/** `WorkflowScheduler` (orchestration/scheduler.py): promote, then look again. */
module Scheduler {
  import opened Names
  import opened Wrappers
  import opened Sequences
  import opened Digraph
  import opened Records
  import opened DependencyGraph
  import opened RunModel
  import opened RunInvariant
  import opened RunHistory
  import opened WorkflowRun

  datatype ScheduleResult = ScheduleResult(promoted: seq<Name>, ready: seq<Name>, blocked: seq<Name>)

  ghost function NotRunnable(s: RunState): iset<Name> {
    iset x | !Runnable(s, x)
  }

  /** What `schedule()` answers when called in state `s`. */
  ghost function Scheduled(s: RunState): ScheduleResult {
    var after := Promote(s);
    ScheduleResult(PromotedIds(s), Select(TaskOrder(after), RunnableSet(after)), Select(TaskOrder(after), NotRunnable(after)))
  }

  class WorkflowScheduler {
    constructor () {
    }

    /** The body of the loop in `evaluate`: a startable state and no reason against it. */
    method IsReady(state: WorkflowRunState, id: Name) returns (ready: bool)
      requires state.Valid() && id in state.tasksById
      ensures ready <==> Runnable(state.View(), id)
    {
      LookupId(state.View(), id);
      ghost var at := TaskAt(state.View(), id);
      var task := state.tasksById[id];
      var clear := state.HasNoReasons(task.id);
      ready := (Unstarted(task.state) || task.state == READY) && clear.value;
    }

    /** `evaluate`: one readiness flag per task, in topological order. */
    method Evaluate(state: WorkflowRunState) returns (order: seq<Name>, flags: seq<bool>)
      requires state.Valid()
      ensures order == TaskOrder(state.View())
      ensures |flags| == |order| && forall i | 0 <= i < |order| :: flags[i] <==> Runnable(state.View(), order[i])
    {
      hide GraphOk, Indexed, Safe, Numbered, OneActive, HumanOk, ApprovalsOk, StatusOk;
      TaskOrderFacts(state.View());
      var view := BuildDependencyView(state.graph);
      order := view.value.order;
      flags := [];
      var i := 0;
      while i < |order|
        invariant 0 <= i <= |order| && |flags| == i
        invariant forall k | 0 <= k < i :: flags[k] <==> Runnable(state.View(), order[k])
      {
        assert order[i] in Elements(order);
        var ready := IsReady(state, order[i]);
        flags := flags + [ready];
        i := i + 1;
      }
    }

    /** `promote` */
    method Promote(state: WorkflowRunState) returns (r: ScheduleResult)
      requires state.Valid()
      modifies state
      ensures state.Valid()
      ensures state.View() == RunModel.Promote(old(state.View()))
      ensures r == Scheduled(old(state.View()))
    {
      hide GraphOk, Indexed, Safe, Numbered, OneActive, HumanOk, ApprovalsOk, StatusOk;
      ghost var s := state.View();
      PromoteInv(s, s.tasksById.Keys);
      var promoted := state.PromoteReadyTasks();
      ghost var after := state.View();
      var order, flags := Evaluate(state);
      var ready, blocked: seq<Name> := [], [];
      var i := 0;
      while i < |order|
        invariant 0 <= i <= |order| && state.View() == after
        invariant ready == Select(order[..i], RunnableSet(after))
        invariant blocked == Select(order[..i], NotRunnable(after))
      {
        SelectPush(order, i, RunnableSet(after));
        SelectPush(order, i, NotRunnable(after));
        if flags[i] {
          ready := ready + [order[i]];
        } else {
          blocked := blocked + [order[i]];
        }
        i := i + 1;
      }
      assert order[..i] == order;
      r := ScheduleResult(promoted, ready, blocked);
    }
  }

  // ---------------------------------------------------------------- the two passes agree

  lemma {:induction false} SelectSame(order: seq<Name>, a: iset<Name>, b: iset<Name>)
    requires forall x | x in order :: x in a <==> x in b
    ensures Select(order, a) == Select(order, b)
  {
    if order != [] {
      SelectSame(order[..|order| - 1], a, b);
    }
  }

  lemma PromoteKeepsRunnable(s: RunState, x: Name)
    requires Inv(s) && x in s.tasksById
    ensures Runnable(Promote(s), x) <==> Runnable(s, x)
    ensures Runnable(s, x) <==> Promote(s).tasksById[x].state == READY
  {
    var i := TaskAt(s, x);
    PromoteKeepsDone(s, s.tasksById.Keys, x);
    if s.tasksById[x].state == READY {
      assert DepsDone(s.graph.edges, s.tasksById, x);
    }
  }

  lemma PromoteKeepsOrder(s: RunState)
    requires Inv(s)
    ensures TaskOrder(Promote(s)) == TaskOrder(s)
  {
    PromoteGraph(s, s.tasksById.Keys);
  }

  /** The ids promoted by mutation are the ids found ready by looking again, in the same order,
      and they are exactly the READY tasks. */
  lemma TwoPassAgreement(s: RunState)
    requires Inv(s)
    ensures Scheduled(s).promoted == Scheduled(s).ready
    ensures forall x | x in s.tasksById :: x in Scheduled(s).ready <==> Promote(s).tasksById[x].state == READY
  {
    hide GraphOk, Indexed, Safe, Numbered, OneActive, HumanOk, ApprovalsOk, StatusOk;
    TaskOrderFacts(s);
    PromoteKeepsOrder(s);
    forall x | x in s.tasksById
      ensures Runnable(Promote(s), x) <==> Runnable(s, x)
      ensures Runnable(s, x) <==> Promote(s).tasksById[x].state == READY
    {
      PromoteKeepsRunnable(s, x);
    }
    forall x | x in TaskOrder(s) ensures x in RunnableSet(s) <==> x in RunnableSet(Promote(s)) {
      assert x in Elements(TaskOrder(s));
    }
    SelectSame(TaskOrder(s), RunnableSet(s), RunnableSet(Promote(s)));
    forall x | x in s.tasksById ensures x in Scheduled(s).ready <==> Promote(s).tasksById[x].state == READY {
      assert x in Elements(TaskOrder(s));
      SelectMember(TaskOrder(s), RunnableSet(Promote(s)), x);
    }
  }

  lemma {:induction false} SelectMember(order: seq<Name>, chosen: iset<Name>, x: Name)
    ensures x in Select(order, chosen) <==> x in order && x in chosen
  {
    if order != [] {
      var n := |order| - 1;
      SelectMember(order[..n], chosen, x);
      assert order == order[..n] + [order[n]];
    }
  }

  lemma {:induction false} SelectCount(order: seq<Name>, a: iset<Name>, b: iset<Name>)
    requires forall x :: x in a <==> x !in b
    ensures |Select(order, a)| + |Select(order, b)| == |order|
  {
    if order != [] {
      SelectCount(order[..|order| - 1], a, b);
    }
  }

  /** Ready and blocked partition the tasks, and a task is in ready exactly when `can_run` says so. */
  lemma ReadyBlockedPartition(s: RunState, x: Name)
    requires Inv(s)
    ensures x in Scheduled(s).ready <==> x in s.tasksById && Lookup(Promote(s), x) == Ok(x) && Runnable(Promote(s), x)
    ensures x in Scheduled(s).blocked <==> x in s.tasksById && x !in Scheduled(s).ready
    ensures |Scheduled(s).ready| + |Scheduled(s).blocked| == |s.tasksById|
  {
    hide GraphOk, Indexed, Safe, Numbered, OneActive, HumanOk, ApprovalsOk, StatusOk;
    var after := Promote(s);
    PromoteInv(s, s.tasksById.Keys);
    TaskOrderFacts(after);
    assert after.tasksById.Keys == s.tasksById.Keys;
    SelectMember(TaskOrder(after), RunnableSet(after), x);
    SelectMember(TaskOrder(after), NotRunnable(after), x);
    SelectCount(TaskOrder(after), RunnableSet(after), NotRunnable(after));
    DistinctSize(TaskOrder(after));
    assert |after.tasksById.Keys| == |s.tasksById|;
    assert x in TaskOrder(after) <==> x in Elements(TaskOrder(after));
    if x in s.tasksById {
      LookupId(after, x);
    }
  }

  /** A promoted task stays as it is. */
  lemma PromotedAgain(s: RunState, x: Name)
    requires Inv(s) && x in s.tasksById
    ensures PromotedTask(Promote(s), PromotedTask(s, s.tasksById[x])) == PromotedTask(s, s.tasksById[x])
  {
    hide GraphOk, Safe, Numbered, OneActive, HumanOk, ApprovalsOk, RequestsOwned, StatusOk, DepsDone;
    var i := TaskAt(s, x);
    PromoteKeepsDone(s, s.tasksById.Keys, x);
  }

  lemma PromoteTwice(s: RunState)
    requires Inv(s)
    ensures Promote(Promote(s)) == Promote(s)
  {
    hide GraphOk, Safe, Numbered, OneActive, HumanOk, ApprovalsOk, RequestsOwned, StatusOk, PromotedTask;
    var u := Promote(s);
    forall x | x in s.tasksById ensures PromotedTask(u, PromotedTask(s, s.tasksById[x])) == PromotedTask(s, s.tasksById[x]) {
      PromotedAgain(s, x);
    }
    assert Promote(u).tasksById == u.tasksById;
    forall k | 0 <= k < |u.graph.tasks| ensures Promote(u).graph.tasks[k] == u.graph.tasks[k] {
      assert s.graph.tasks[k].id in s.tasksById && s.tasksById[s.graph.tasks[k].id] == s.graph.tasks[k];
    }
    assert Promote(u).graph.tasks == u.graph.tasks;
  }

  /** Scheduling twice is scheduling once: the second call changes nothing and answers the same. */
  lemma SecondScheduleIdle(s: RunState)
    requires Inv(s)
    ensures Promote(Promote(s)) == Promote(s)
    ensures Scheduled(Promote(s)) == Scheduled(s)
  {
    PromoteTwice(s);
    PromoteInv(s, s.tasksById.Keys);
    TwoPassAgreement(s);
    TwoPassAgreement(Promote(s));
  }

  lemma {:induction false} SelectDistinct(order: seq<Name>, chosen: iset<Name>)
    requires Distinct(order)
    ensures Distinct(Select(order, chosen))
  {
    if order != [] {
      var n := |order| - 1;
      SelectDistinct(order[..n], chosen);
      if order[n] in chosen {
        SelectMember(order[..n], chosen, order[n]);
        DistinctAppend(Select(order[..n], chosen), [order[n]]);
      }
    }
  }

  lemma {:induction false} SelectOrdered(order: seq<Name>, chosen: iset<Name>)
    ensures forall i, j | 0 <= i < j < |Select(order, chosen)| :: Precedes(order, Select(order, chosen)[i], Select(order, chosen)[j])
  {
    if order != [] {
      var n := |order| - 1;
      var front, all := Select(order[..n], chosen), Select(order, chosen);
      SelectOrdered(order[..n], chosen);
      assert order == order[..n] + [order[n]];
      forall i, j | 0 <= i < j < |all| ensures Precedes(order, all[i], all[j]) {
        SelectMember(order[..n], chosen, all[i]);
        PrecedesMore(order[..n], order[n], all[i], all[j]);
      }
    }
  }

  /** The answers of `schedule()` stand in the topological order of the run's graph. */
  lemma ScheduleOrdered(s: RunState)
    requires Inv(s)
    ensures var r := Scheduled(s);
            && (forall i, j | 0 <= i < j < |r.promoted| :: Precedes(TaskOrder(s), r.promoted[i], r.promoted[j]))
            && (forall i, j | 0 <= i < j < |r.ready| :: Precedes(TaskOrder(s), r.ready[i], r.ready[j]))
            && (forall i, j | 0 <= i < j < |r.blocked| :: Precedes(TaskOrder(s), r.blocked[i], r.blocked[j]))
  {
    hide Inv, Promote, TaskOrder, Precedes;
    PromoteKeepsOrder(s);
    SelectOrdered(TaskOrder(s), RunnableSet(s));
    SelectOrdered(TaskOrder(s), RunnableSet(Promote(s)));
    SelectOrdered(TaskOrder(s), NotRunnable(Promote(s)));
  }

  /** `schedule()` never names a task twice. */
  lemma ReadyDistinct(s: RunState)
    requires Inv(s)
    ensures Distinct(Scheduled(s).ready)
  {
    hide GraphOk, Indexed, Safe, Numbered, OneActive, HumanOk, ApprovalsOk, StatusOk;
    PromoteInv(s, s.tasksById.Keys);
    TaskOrderFacts(Promote(s));
    SelectDistinct(TaskOrder(Promote(s)), RunnableSet(Promote(s)));
  }
}
