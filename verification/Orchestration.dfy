/** `OrchestrationService` (orchestration/service.py): the composite steps, each a sequence of
    mutating calls that may raise half-way and leave the first of them done, and the recovery of
    stale attempts on load, one round of which is such a sequence. */
module Orchestration {
  import opened Names
  import opened Wrappers
  import opened Sequences
  import opened Digraph
  import opened Records
  import opened DependencyGraph
  import opened RunModel
  import opened RunInvariant
  import opened RunHistory
  import opened WorkflowRun

  // ---------------------------------------------------------------- composite steps on values

  ghost function FinalizeSuccess(s: RunState, ref: Name, attemptId: Name): Outcome<Task> {
    var a := MoveAttempt(s, attemptId, SUCCEEDED);
    if a.reply.Err? then Outcome(a.state, Err(a.reply.error)) else CompleteTask(a.state, ref)
  }

  function FinalizeFailure(s: RunState, ref: Name, attemptId: Name, reason: string, recoverable: bool): Outcome<Task> {
    var a := FailAttempt(s, attemptId, recoverable);
    if a.reply.Err? then Outcome(a.state, Err(a.reply.error))
    else if recoverable then BlockTask(a.state, ref, reason)
    else FailTask(a.state, ref, reason)
  }

  predicate AttemptIn(s: RunState, attemptId: Name, states: set<AttemptState>) {
    attemptId in s.attemptsById && s.attemptsById[attemptId].state in states
  }

  predicate TaskIn(s: RunState, ref: Name, states: set<TaskState>) {
    Lookup(s, ref).Ok? && s.tasksById[Lookup(s, ref).value].state in states
  }

  predicate TaskIs(s: RunState, id: Name, st: TaskState) {
    id in s.tasksById && s.tasksById[id].state == st
  }

  lemma SucceedAttemptShape(s: RunState, attemptId: Name)
    ensures var a := MoveAttempt(s, attemptId, SUCCEEDED);
            && a.state == s.(attemptsById := a.state.attemptsById)
            && (a.reply.Ok? <==> AttemptIn(s, attemptId, {RUNNING}))
            && (a.reply.Ok? ==> a.state.attemptsById == s.attemptsById[attemptId := s.attemptsById[attemptId].(state := SUCCEEDED)])
  {
  }

  lemma CompletionShape(s: RunState, ref: Name)
    ensures var o := CompleteTask(s, ref);
            && o.state.attemptsById == s.attemptsById
            && (o.reply.Ok? <==> TaskIn(s, ref, {READY, IN_PROGRESS}) && Done(s, Lookup(s, ref).value))
            && (o.reply.Err? ==> o.state.tasksById == s.tasksById)
            && (o.reply.Ok? ==>
                  && o.reply.value == s.tasksById[Lookup(s, ref).value].(state := COMPLETED, blockReason := None)
                  && o.state.tasksById == s.tasksById[o.reply.value.id := o.reply.value])
  {
    hide DepsDone, AllCompleted, Refresh;
  }

  lemma FinalizeSuccessShape(s: RunState, ref: Name, attemptId: Name)
    ensures var o := FinalizeSuccess(s, ref, attemptId);
            && (o.reply.Ok? <==> AttemptIn(s, attemptId, {RUNNING}) && TaskIn(s, ref, {READY, IN_PROGRESS}) && Done(s, Lookup(s, ref).value))
            && (o.reply.Err? ==> o.state.tasksById == s.tasksById)
            && (o.reply.Ok? ==>
                  && o.reply.value == s.tasksById[Lookup(s, ref).value].(state := COMPLETED, blockReason := None)
                  && o.state.tasksById == s.tasksById[o.reply.value.id := o.reply.value]
                  && o.state.attemptsById == s.attemptsById[attemptId := s.attemptsById[attemptId].(state := SUCCEEDED)])
  {
    hide MoveAttempt, CompleteTask, DepsDone;
    var a := MoveAttempt(s, attemptId, SUCCEEDED);
    SucceedAttemptShape(s, attemptId);
    CompletionShape(a.state, ref);
    assert Lookup(a.state, ref) == Lookup(s, ref);
  }

  /** Success is recorded exactly when the attempt runs and the task is ready or in progress: its
      dependencies are then done.  Otherwise no task changes, although the attempt may already
      have been marked. */
  lemma FinalizeSuccessIff(s: RunState, ref: Name, attemptId: Name)
    requires Inv(s)
    ensures var o := FinalizeSuccess(s, ref, attemptId);
            && (o.reply.Ok? <==> AttemptIn(s, attemptId, {RUNNING}) && TaskIn(s, ref, {READY, IN_PROGRESS}))
            && (o.reply.Err? ==> o.state.tasksById == s.tasksById)
            && (o.reply.Ok? ==>
                  && TaskIs(o.state, Lookup(s, ref).value, COMPLETED) && AttemptIn(o.state, attemptId, {SUCCEEDED}))
  {
    hide GraphOk, Indexed, DepsDone, Numbered, OneActive, HumanOk, ApprovalsOk, StatusOk, FinalizeSuccess;
    FinalizeSuccessShape(s, ref, attemptId);
    if Lookup(s, ref).Ok? {
      var i := TaskAt(s, Lookup(s, ref).value);
    }
  }

  /** A failure is recorded exactly from these attempt and task states. */
  lemma FinalizeFailureIff(s: RunState, ref: Name, attemptId: Name, reason: string, recoverable: bool)
    ensures FinalizeFailure(s, ref, attemptId, reason, recoverable).reply.Ok? <==>
              if recoverable then
                AttemptIn(s, attemptId, {DISPATCHING, RUNNING, PAUSED})
                && TaskIn(s, ref, {READY, IN_PROGRESS, WAITING_FOR_HUMAN, WAITING_FOR_APPROVAL})
              else
                AttemptIn(s, attemptId, {DISPATCHING, RUNNING}) && TaskIn(s, ref, {READY, IN_PROGRESS, BLOCKED})
    ensures FinalizeFailure(s, ref, attemptId, reason, recoverable).reply.Err? ==>
              FinalizeFailure(s, ref, attemptId, reason, recoverable).state.tasksById == s.tasksById
  {
    var a := FailAttempt(s, attemptId, recoverable);
    assert a.state.tasksById == s.tasksById && a.state.tasksByKey == s.tasksByKey;
    assert Lookup(a.state, ref) == Lookup(s, ref);
  }

  class OrchestrationService {
    const state: WorkflowRunState

    constructor (state: WorkflowRunState)
      ensures this.state == state
    {
      this.state := state;
    }

    method FinalizeAttemptSuccess(ref: Name, attemptId: Name) returns (r: Result<Task>)
      requires state.Valid()
      modifies state
      ensures state.Valid()
      ensures Outcome(state.View(), r) == FinalizeSuccess(old(state.View()), ref, attemptId)
    {
      MoveAttemptInv(state.View(), attemptId, SUCCEEDED);
      var a := state.MoveAttempt(attemptId, SUCCEEDED);
      if a.Err? {
        return Err(a.error);
      }
      r := state.CompleteTask(ref);
    }

    method FinalizeAttemptFailure(ref: Name, attemptId: Name, reason: string, recoverable: bool) returns (r: Result<Task>)
      requires state.Valid()
      modifies state
      ensures state.Valid()
      ensures Outcome(state.View(), r) == FinalizeFailure(old(state.View()), ref, attemptId, reason, recoverable)
    {
      MoveAttemptInv(state.View(), attemptId, if recoverable then ORPHANED else ERRORED);
      var a := state.FailAttempt(attemptId, recoverable);
      if a.Err? {
        return Err(a.error);
      }
      if recoverable {
        r := state.BlockTask(ref, reason);
      } else {
        r := state.FailTask(ref, reason);
      }
    }

    /** `recover_attempt` */
    method RecoverAttempt(ref: Name, attemptId: Name, reason: string) returns (r: Result<Task>)
      requires state.Valid()
      modifies state
      ensures state.Valid()
      ensures Outcome(state.View(), r) == FinalizeFailure(old(state.View()), ref, attemptId, reason, true)
    {
      r := FinalizeAttemptFailure(ref, attemptId, reason, true);
    }

    /** One round of stale-attempt recovery: orphan the attempt, block its task, unblock it. */
    method RecoverOne(ghost s: RunState, ghost done: set<Name>, attemptId: Name) returns (r: Result<Task>)
      requires Inv(s) && state.Valid() && state.View() == RecoverSome(s, done)
      requires attemptId in s.attemptsById && attemptId !in done && InFlight(s.attemptsById[attemptId].state)
      requires forall a | a in done :: a in s.attemptsById && InFlight(s.attemptsById[a].state)
      modifies state
      ensures state.Valid()
      ensures r.Ok? <==> Blockable(s.tasksById[s.attemptsById[attemptId].taskId].state)
      ensures r.Ok? ==> state.View() == RecoverSome(s, done + {attemptId})
      ensures r.Err? ==> state.View() == MoveAttempt(RecoverSome(s, done), attemptId, ORPHANED).state
    {
      hide Inv, RecoverSome, FinalizeFailure, UnblockTask, MoveAttempt;
      RecoverOutcome(s, done, attemptId);
      var taskId := state.attemptsById[attemptId].taskId;
      r := RecoverAttempt(taskId, attemptId, "lease_missing_on_runtime_load");
      if r.Ok? {
        r := state.UnblockTask(taskId);
      }
    }
  }

  // ---------------------------------------------------------------- stale attempts

  /** The states the recovery on load looks at. */
  predicate InFlight(st: AttemptState) {
    st == DISPATCHING || st == RUNNING
  }

  /** The task states from which blocking and unblocking succeed. */
  predicate Blockable(st: TaskState) {
    st in {READY, IN_PROGRESS, WAITING_FOR_HUMAN, WAITING_FOR_APPROVAL}
  }

  ghost function TasksOf(s: RunState, chosen: set<Name>): set<Name> {
    set a | a in chosen && a in s.attemptsById :: s.attemptsById[a].taskId
  }

  function Readied(t: Task): Task {
    t.(state := READY, blockReason := None)
  }

  /** Exactly the chosen attempts orphaned, exactly their tasks READY, nothing else touched. */
  ghost function RecoverSome(s: RunState, chosen: set<Name>): RunState {
    s.(attemptsById := map a | a in s.attemptsById :: if a in chosen then s.attemptsById[a].(state := ORPHANED) else s.attemptsById[a],
       tasksById := map x | x in s.tasksById :: if x in TasksOf(s, chosen) then Readied(s.tasksById[x]) else s.tasksById[x],
       graph := s.graph.(tasks := seq(|s.graph.tasks|, i requires 0 <= i < |s.graph.tasks| =>
         if s.graph.tasks[i].id in TasksOf(s, chosen) then Readied(s.graph.tasks[i]) else s.graph.tasks[i])))
  }

  ghost predicate AllInFlight(s: RunState, chosen: set<Name>) {
    forall a | a in chosen :: a in s.attemptsById && InFlight(s.attemptsById[a].state)
  }

  lemma RecoverNone(s: RunState)
    ensures RecoverSome(s, {}) == s
  {
    assert TasksOf(s, {}) == {};
    assert RecoverSome(s, {}).attemptsById == s.attemptsById && RecoverSome(s, {}).tasksById == s.tasksById;
    assert RecoverSome(s, {}).graph.tasks == s.graph.tasks;
  }

  /** With one active attempt per task, another attempt in flight belongs to another task. */
  lemma OtherTask(s: RunState, done: set<Name>, a: Name)
    requires Inv(s) && AllInFlight(s, done) && a in s.attemptsById && a !in done && InFlight(s.attemptsById[a].state)
    ensures s.attemptsById[a].taskId !in TasksOf(s, done)
    ensures s.attemptsById[a].taskId in s.tasksById && Lookup(s, s.attemptsById[a].taskId) == Ok(s.attemptsById[a].taskId)
    ensures TasksOf(s, done + {a}) == TasksOf(s, done) + {s.attemptsById[a].taskId}
  {
    hide GraphOk, Indexed, Safe, HumanOk, ApprovalsOk, StatusOk;
    assert Entry(s.tasksById.Keys, s.attemptsById, s.attemptsByTask, a);
    LookupId(s, s.attemptsById[a].taskId);
  }

  lemma RecoverTaskAt(s: RunState, done: set<Name>, a: Name, final: Task, k: nat)
    requires Inv(s) && AllInFlight(s, done) && a in s.attemptsById && a !in done && InFlight(s.attemptsById[a].state)
    requires final == Readied(s.tasksById[s.attemptsById[a].taskId]) && k < |s.graph.tasks|
    ensures var u, v := RecoverSome(s, done), RecoverSome(s, done + {a});
            |SetTask(u, final).graph.tasks| == |s.graph.tasks| && SetTask(u, final).graph.tasks[k] == v.graph.tasks[k]
  {
    hide GraphOk, Safe, Numbered, OneActive, HumanOk, ApprovalsOk, RequestsOwned, StatusOk, SetTask, InFlight, TasksOf;
    OtherTask(s, done, a);
    var u := RecoverSome(s, done);
    var i := TaskAt(s, s.attemptsById[a].taskId);
    assert s.graph.tasks[k].id in s.tasksById && s.tasksById[s.graph.tasks[k].id] == s.graph.tasks[k];
    SetTaskLength(u, final);
    SetTaskAt(u, final, k);
  }

  lemma RecoverById(s: RunState, done: set<Name>, a: Name, final: Task)
    requires Inv(s) && AllInFlight(s, done) && a in s.attemptsById && a !in done && InFlight(s.attemptsById[a].state)
    requires final == Readied(s.tasksById[s.attemptsById[a].taskId])
    ensures RecoverSome(s, done).tasksById[final.id := final] == RecoverSome(s, done + {a}).tasksById
  {
    hide GraphOk, Safe, Numbered, OneActive, HumanOk, ApprovalsOk, RequestsOwned, StatusOk, InFlight, TasksOf, AllInFlight;
    OtherTask(s, done, a);
    var i := TaskAt(s, s.attemptsById[a].taskId);
  }

  lemma RecoverTasks(s: RunState, done: set<Name>, a: Name, final: Task)
    requires Inv(s) && AllInFlight(s, done) && a in s.attemptsById && a !in done && InFlight(s.attemptsById[a].state)
    requires final == Readied(s.tasksById[s.attemptsById[a].taskId])
    ensures var u, v := RecoverSome(s, done), RecoverSome(s, done + {a});
            SetTask(u, final).tasksById == v.tasksById && SetTask(u, final).graph.tasks == v.graph.tasks
  {
    hide Inv, InFlight, TasksOf, Refresh, AllInFlight, Readied;
    var u, v := RecoverSome(s, done), RecoverSome(s, done + {a});
    RecoverById(s, done, a, final);
    SetTaskLength(u, final);
    forall k | 0 <= k < |s.graph.tasks| ensures SetTask(u, final).graph.tasks[k] == v.graph.tasks[k] {
      RecoverTaskAt(s, done, a, final, k);
    }
  }

  lemma RecoverAttempts(s: RunState, done: set<Name>, a: Name)
    requires a in s.attemptsById && a !in done && s.attemptsById[a].id == a
    ensures var u, v := RecoverSome(s, done), RecoverSome(s, done + {a});
            u.attemptsById[a := s.attemptsById[a].(state := ORPHANED)] == v.attemptsById
  {
  }

  /** The calls of one round, as a function of the state before it. */
  function RecoverRound(u: RunState, taskId: Name, a: Name): Outcome<Task> {
    var first := FinalizeFailure(u, taskId, a, "lease_missing_on_runtime_load", true);
    if first.reply.Err? then first else UnblockTask(first.state, taskId)
  }

  /** A round whose task cannot be blocked has orphaned the attempt and done nothing else. */
  lemma RoundRaises(u: RunState, taskId: Name, a: Name)
    requires Lookup(u, taskId) == Ok(taskId) && !Blockable(u.tasksById[taskId].state)
    requires a in u.attemptsById && InFlight(u.attemptsById[a].state)
    ensures RecoverRound(u, taskId, a) == Outcome(MoveAttempt(u, a, ORPHANED).state, Err(StateTransition))
  {
    hide SetTask;
    assert Lookup(FailAttempt(u, a, true).state, taskId) == Ok(taskId);
  }

  lemma RoundShape(u: RunState, taskId: Name, a: Name)
    requires Lookup(u, taskId) == Ok(taskId) && u.tasksById[taskId].id == taskId
    requires u.tasksById[taskId].key in u.tasksByKey && u.tasksByKey[u.tasksById[taskId].key] == taskId
    requires a in u.attemptsById && InFlight(u.attemptsById[a].state) && Coherent(u)
    ensures RecoverRound(u, taskId, a).reply.Ok? <==> Blockable(u.tasksById[taskId].state)
    ensures FinalizeFailure(u, taskId, a, "lease_missing_on_runtime_load", true).reply.Ok? <==> Blockable(u.tasksById[taskId].state)
    ensures Blockable(u.tasksById[taskId].state) ==>
              var mid := FinalizeFailure(u, taskId, a, "lease_missing_on_runtime_load", true).state;
              && Lookup(mid, taskId) == Ok(taskId)
              && RecoverRound(u, taskId, a).state == RoundEnd(u, taskId, a)
  {
    var first := FailAttempt(u, a, true);
    var t := u.tasksById[taskId];
    assert Lookup(first.state, taskId) == Ok(taskId);
    if Blockable(t.state) {
      var blocked := t.(state := BLOCKED, blockReason := Some("lease_missing_on_runtime_load"));
      var mid := SetTask(first.state, blocked);
      assert FinalizeFailure(u, taskId, a, "lease_missing_on_runtime_load", true).state == mid;
      assert mid.tasksByKey == u.tasksByKey;
      assert Lookup(mid, taskId) == Ok(taskId);
      SetTwice(first.state, blocked, Readied(t));
      assert UnblockTask(mid, taskId).state == SetTask(mid, Readied(t));
    }
  }

  function RoundEnd(u: RunState, taskId: Name, a: Name): RunState
    requires taskId in u.tasksById && a in u.attemptsById
  {
    SetTask(u.(attemptsById := u.attemptsById[a := u.attemptsById[a].(state := ORPHANED)]), Readied(u.tasksById[taskId]))
  }

  ghost predicate Coherent(s: RunState) {
    forall k | 0 <= k < |s.graph.tasks| :: s.graph.tasks[k].id in s.tasksById && s.tasksById[s.graph.tasks[k].id].id == s.graph.tasks[k].id
  }

  lemma SetTwice(s: RunState, x: Task, y: Task)
    requires x.id == y.id && x.key == y.key && Coherent(s)
    ensures SetTask(SetTask(s, x), y) == SetTask(s, y)
  {
    assert s.tasksById[x.id := x][y.id := y] == s.tasksById[y.id := y];
    assert s.tasksByKey[x.key := x.id][y.key := y.id] == s.tasksByKey[y.key := y.id];
    var p, q := SetTask(SetTask(s, x), y).graph.tasks, SetTask(s, y).graph.tasks;
    forall k | 0 <= k < |s.graph.tasks| ensures p[k] == q[k] {
    }
    assert p == q;
  }

  /** What one round does, in terms of the state in which the recovery started. */
  lemma RecoverOutcome(s: RunState, done: set<Name>, a: Name)
    requires Inv(s) && AllInFlight(s, done) && a in s.attemptsById && a !in done && InFlight(s.attemptsById[a].state)
    ensures var u := RecoverSome(s, done);
            var id := s.attemptsById[a].taskId;
            && a in u.attemptsById && u.attemptsById[a].taskId == id
            && id in s.tasksById
            && (RecoverRound(u, id, a).reply.Ok? <==> Blockable(s.tasksById[id].state))
            && (RecoverRound(u, id, a).reply.Ok? ==> RecoverRound(u, id, a).state == RecoverSome(s, done + {a}))
            && (RecoverRound(u, id, a).reply.Err? ==> RecoverRound(u, id, a).state == MoveAttempt(u, a, ORPHANED).state)
  {
    hide GraphOk, Safe, Numbered, OneActive, HumanOk, ApprovalsOk, StatusOk, RecoverRound;
    OtherTask(s, done, a);
    var id := s.attemptsById[a].taskId;
    var u, v := RecoverSome(s, done), RecoverSome(s, done + {a});
    var i := TaskAt(s, id);
    assert u.tasksById[id] == s.tasksById[id] && u.tasksByKey == s.tasksByKey;
    assert Lookup(u, id) == Ok(id);
    RecoverCoherent(s, done);
    RoundShape(u, id, a);
    if Blockable(s.tasksById[id].state) {
      RoundCloses(s, done, a);
    } else {
      RoundRaises(u, id, a);
    }
  }

  lemma RecoverCoherent(s: RunState, done: set<Name>)
    requires Inv(s)
    ensures Coherent(RecoverSome(s, done))
  {
    hide GraphOk, Safe, Numbered, OneActive, HumanOk, ApprovalsOk, StatusOk;
  }

  lemma RoundCloses(s: RunState, done: set<Name>, a: Name)
    requires Inv(s) && AllInFlight(s, done) && a in s.attemptsById && a !in done && InFlight(s.attemptsById[a].state)
    ensures s.attemptsById[a].taskId in s.tasksById
    ensures RoundEnd(RecoverSome(s, done), s.attemptsById[a].taskId, a) == RecoverSome(s, done + {a})
  {
    hide GraphOk, Safe, Numbered, OneActive, HumanOk, ApprovalsOk, StatusOk, RoundEnd;
    OtherTask(s, done, a);
    var id := s.attemptsById[a].taskId;
    var u, v := RecoverSome(s, done), RecoverSome(s, done + {a});
    var i := TaskAt(s, id);
    AttemptKnows(s, a);
    RecoverTasks(s, done, a, Readied(s.tasksById[id]));
    RecoverAttempts(s, done, a);
    assert u.tasksByKey[s.tasksById[id].key := id] == u.tasksByKey;
    RoundEndIs(u, id, a, v);
  }

  lemma AttemptKnows(s: RunState, a: Name)
    requires Inv(s) && a in s.attemptsById
    ensures s.attemptsById[a].id == a
  {
    assert Entry(s.tasksById.Keys, s.attemptsById, s.attemptsByTask, a);
  }

  lemma RoundEndIs(u: RunState, id: Name, a: Name, v: RunState)
    requires id in u.tasksById && a in u.attemptsById && u.tasksById[id].id == id
    requires u.tasksByKey[u.tasksById[id].key := id] == u.tasksByKey
    requires v == u.(attemptsById := v.attemptsById, tasksById := v.tasksById, graph := u.graph.(tasks := v.graph.tasks))
    requires SetTask(u, Readied(u.tasksById[id])).tasksById == v.tasksById
    requires SetTask(u, Readied(u.tasksById[id])).graph.tasks == v.graph.tasks
    requires u.attemptsById[a := u.attemptsById[a].(state := ORPHANED)] == v.attemptsById
    ensures RoundEnd(u, id, a) == v
  {
  }
}
