/** Whole runs: sequences of calls of the run's methods, in any order, returning or raising. */
module RunHistory {
  import opened Names
  import opened Wrappers
  import opened Sequences
  import opened Digraph
  import opened Records
  import opened DependencyGraph
  import opened RunModel
  import opened RunInvariant

  /** One call.  Ids the program draws from uuid4 are arguments here. */
  datatype Op =
    | AddDynamic(tasks: seq<Task>, edges: seq<Edge>)
    | UpdateTask(task: Task)
    | OpenOp(ref: Name, freshId: Name, leaseKey: Option<Name>, payload: string)
    | Record(attempt: Attempt)
    | Dispatch(attemptId: Name)
    | Start(attemptId: Name)
    | Move(attemptId: Name, to: AttemptState)
    | PromoteReady
    | StartTaskOp(ref: Name)
    | FailTaskOp(ref: Name, reason: string)
    | Unblock(ref: Name)
    | Block(ref: Name, reason: string)
    | Complete(ref: Name)
    | AskHuman(ref: Name, attemptId: Name, question: string, context: string, freshId: Name)
    | AnswerHuman(requestId: Name, answer: string, who: string)
    | AskApproval(ref: Name, attemptId: Name, approvalType: string, reason: string, freshId: Name)
    | Resolve(requestId: Name, approved: bool, who: string)

  /** What callers owe and the methods do not check: fresh ids are fresh, appended batches are
      clean, and records handed back through `update_task` and `record_attempt` keep identity. */
  ghost predicate Legal(s: RunState, op: Op) {
    match op
    case AddDynamic(tasks, edges) => CleanBatch(s, tasks, edges)
    case UpdateTask(t) => Permitted(s, t)
    case OpenOp(_, freshId, _, _) => freshId !in s.attemptsById
    case Record(a) => a.id in s.attemptsById && SameAttempt(s.attemptsById[a.id], a)
    case AskHuman(_, _, _, _, freshId) => freshId !in s.humanRequests
    case AskApproval(_, _, _, _, freshId) => freshId !in s.approvalRequests
    case _ => true
  }

  predicate SameAttempt(a: Attempt, b: Attempt) {
    a.id == b.id && a.taskId == b.taskId && a.number == b.number && a.state == b.state
  }

  ghost function Apply(s: RunState, op: Op): RunState {
    match op
    case AddDynamic(tasks, edges) => AddDynamicTasks(s, tasks, edges).state
    case UpdateTask(t) => SetTask(s, t)
    case OpenOp(ref, freshId, leaseKey, payload) => OpenAttempt(s, ref, freshId, leaseKey, payload).state
    case Record(a) => RecordAttempt(s, a)
    case Dispatch(id) => DispatchAttempt(s, id).state
    case Start(id) => StartAttempt(s, id).state
    case Move(id, to) => MoveAttempt(s, id, to).state
    case PromoteReady => Promote(s)
    case StartTaskOp(ref) => StartTask(s, ref).state
    case FailTaskOp(ref, reason) => FailTask(s, ref, reason).state
    case Unblock(ref) => UnblockTask(s, ref).state
    case Block(ref, reason) => BlockTask(s, ref, reason).state
    case Complete(ref) => CompleteTask(s, ref).state
    case AskHuman(ref, a, q, c, f) => RequestClarification(s, ref, a, q, c, f).state
    case AnswerHuman(r, a, w) => AnswerHumanRequest(s, r, a, w).state
    case AskApproval(ref, a, t, r, f) => RequestApproval(s, ref, a, t, r, f).state
    case Resolve(r, ok, w) => ResolveApproval(s, r, ok, w).state
  }

  ghost function Run(s: RunState, ops: seq<Op>): RunState
    decreases |ops|
  {
    if ops == [] then s else Run(Apply(s, ops[0]), ops[1..])
  }

  ghost predicate LegalRun(s: RunState, ops: seq<Op>)
    decreases |ops|
  {
    ops == [] || (Legal(s, ops[0]) && LegalRun(Apply(s, ops[0]), ops[1..]))
  }

  // ---------------------------------------------------------------- the invariant over runs

  lemma RecordInv(s: RunState, a: Attempt)
    requires Inv(s) && a.id in s.attemptsById && SameAttempt(s.attemptsById[a.id], a)
    ensures RecordAttempt(s, a) == s.(attemptsById := s.attemptsById[a.id := a])
    ensures Inv(RecordAttempt(s, a))
  {
    hide GraphOk, Indexed, Safe, OneActive, HumanOk, ApprovalsOk, RequestsOwned, StatusOk;
    assert Entry(s.tasksById.Keys, s.attemptsById, s.attemptsByTask, a.id);
    var ids := s.attemptsByTask[a.taskId];
    assert a.id in ids;
    assert s.attemptsByTask[a.taskId := ids] == s.attemptsByTask;
    ReplaceAttemptInv(s, a);
  }

  lemma AddDynamicInv(s: RunState, tasks: seq<Task>, edges: seq<Edge>)
    requires Inv(s) && CleanBatch(s, tasks, edges)
    ensures Inv(AddDynamicTasks(s, tasks, edges).state)
  {
    if tasks != [] && Appendable(s, tasks, edges) {
      AppendedInv(s, tasks, edges);
    } else {
      assert AddDynamicTasks(s, tasks, edges).state == s;
    }
  }

  /** Every method, in every reachable state, keeps the invariant, raising or not. */
  lemma StepInv(s: RunState, op: Op)
    requires Inv(s) && Legal(s, op)
    ensures Inv(Apply(s, op))
  {
    hide Inv, Permitted, CleanBatch, AddDynamicTasks, RecordAttempt, OpenAttempt, MoveAttempt, StartAttempt, DispatchAttempt, StartTask, FailTask, UnblockTask, BlockTask, CompleteTask, RequestClarification, AnswerHumanRequest, RequestApproval, ResolveApproval, SetTask;
    match op
    case AddDynamic(tasks, edges) => AddDynamicInv(s, tasks, edges);
    case UpdateTask(t) => SetTaskInv(s, t);
    case OpenOp(ref, freshId, leaseKey, payload) => OpenAttemptInv(s, ref, freshId, leaseKey, payload);
    case Record(a) => RecordInv(s, a);
    case Dispatch(id) => DispatchAttemptInv(s, id);
    case Start(id) => StartAttemptInv(s, id);
    case Move(id, to) => MoveAttemptInv(s, id, to);
    case PromoteReady => PromoteInv(s, s.tasksById.Keys);
    case StartTaskOp(ref) => StartTaskInv(s, ref);
    case FailTaskOp(ref, reason) => FailTaskInv(s, ref, reason);
    case Unblock(ref) => UnblockTaskInv(s, ref);
    case Block(ref, reason) => BlockTaskInv(s, ref, reason);
    case Complete(ref) => CompleteTaskInv(s, ref);
    case AskHuman(ref, a, q, c, f) => ClarificationInv(s, ref, a, q, c, f);
    case AnswerHuman(r, a, w) => AnswerInv(s, r, a, w);
    case AskApproval(ref, a, t, r, f) => ApprovalInv(s, ref, a, t, r, f);
    case Resolve(r, ok, w) => ResolveInv(s, r, ok, w);
  }

  lemma {:induction false} RunInv(s: RunState, ops: seq<Op>)
    requires Inv(s) && LegalRun(s, ops)
    ensures Inv(Run(s, ops))
    decreases |ops|
  {
    if ops != [] {
      StepInv(s, ops[0]);
      RunInv(Apply(s, ops[0]), ops[1..]);
    }
  }

  lemma DoneOneArc(s: RunState, x: Name, y: Name)
    requires Inv(s) && (x, y) in HardArcs(s.graph.edges) && x in s.tasksById && !Unstarted(s.tasksById[x].state)
    ensures y in s.tasksById && s.tasksById[y].state == COMPLETED
  {
    hide GraphOk, Indexed, Numbered, OneActive, HumanOk, ApprovalsOk, RequestsOwned, StatusOk;
    HardArcsMembers(s.graph.edges);
    assert DepsDone(s.graph.edges, s.tasksById, x);
  }

  lemma {:induction false} DoneAlongWalk(s: RunState, p: seq<Name>)
    requires Inv(s) && |p| >= 2 && Walk(HardArcs(s.graph.edges), p)
    requires p[0] in s.tasksById && !Unstarted(s.tasksById[p[0]].state)
    ensures p[|p| - 1] in s.tasksById && s.tasksById[p[|p| - 1]].state == COMPLETED
    decreases |p|
  {
    hide Inv, HardArcs;
    assert (p[0], p[1]) in HardArcs(s.graph.edges);
    DoneOneArc(s, p[0], p[1]);
    if |p| > 2 {
      var q := p[1..];
      assert Walk(HardArcs(s.graph.edges), q) by {
        forall i, j | 0 <= i && j == i + 1 && j < |q| ensures (q[i], q[j]) in HardArcs(s.graph.edges) {
          assert (p[i + 1], p[j + 1]) in HardArcs(s.graph.edges);
        }
      }
      DoneAlongWalk(s, q);
    }
  }

  /** Dependency safety over whole runs: whatever is called in whatever order, a task that has
      ever been made ready has every transitive hard ancestor COMPLETED. */
  lemma DependencySafety(g: Graph, ops: seq<Op>, id: Name, ancestor: Name)
    requires Startable(g) && LegalRun(FromGraph(g), ops)
    requires var s := Run(FromGraph(g), ops);
             && id in s.tasksById && !Unstarted(s.tasksById[id].state)
             && Reaches(HardArcs(s.graph.edges), id, ancestor)
    ensures var s := Run(FromGraph(g), ops); ancestor in s.tasksById && s.tasksById[ancestor].state == COMPLETED
  {
    FromGraphInv(g);
    RunInv(FromGraph(g), ops);
    var s := Run(FromGraph(g), ops);
    var p :| |p| >= 2 && p[0] == id && p[|p| - 1] == ancestor && Walk(HardArcs(s.graph.edges), p);
    DoneAlongWalk(s, p);
  }

  /** In every reachable state the run is COMPLETED only if every task, appended ones included, is,
      and FAILED only if some task is. */
  lemma StatusTruth(g: Graph, ops: seq<Op>)
    requires Startable(g) && LegalRun(FromGraph(g), ops)
    ensures var s := Run(FromGraph(g), ops);
            && (s.graph.run.status == RunCompleted ==> forall x | x in s.tasksById :: s.tasksById[x].state == COMPLETED)
            && (s.graph.run.status == RunFailed ==> exists x :: x in s.tasksById && s.tasksById[x].state == FAILED)
  {
    hide GraphOk, Indexed, Safe, Numbered, OneActive, HumanOk, ApprovalsOk;
    FromGraphInv(g);
    RunInv(FromGraph(g), ops);
  }

  lemma InvSchedulable(s: RunState)
    requires Inv(s)
    ensures Schedulable(TaskIds(s.graph.tasks), s.graph.edges)
    ensures Order(TaskIds(s.graph.tasks), s.graph.edges) == Ok(TaskOrder(s))
  {
    OrderSucceedsIff(TaskIds(s.graph.tasks), s.graph.edges);
  }

  lemma ReadyMeansDone(s: RunState)
    requires Inv(s)
    ensures forall x | x in s.tasksById && s.tasksById[x].state == READY :: Done(s, x)
  {
    hide GraphOk, Indexed, Numbered, OneActive, HumanOk, ApprovalsOk, RequestsOwned, StatusOk;
  }

  /** Neither way in which `schedule()` could raise is reachable: the sort always succeeds, and no
      READY task ever waits for a dependency. */
  lemma ScheduleCannotRaise(g: Graph, ops: seq<Op>)
    requires Startable(g) && LegalRun(FromGraph(g), ops)
    ensures var s := Run(FromGraph(g), ops);
            && Order(TaskIds(s.graph.tasks), s.graph.edges).Ok?
            && forall x | x in s.tasksById && s.tasksById[x].state == READY :: Done(s, x)
  {
    hide Startable, LegalRun, Run, FromGraph, Order, Schedulable, DepsDone;
    FromGraphInv(g);
    RunInv(FromGraph(g), ops);
    var s := Run(FromGraph(g), ops);
    InvSchedulable(s);
    ReadyMeansDone(s);
  }

  /** One attempt's place: its number is its position, no other attempt of the task shares it, and
      it is active exactly when it is the latest active one. */
  ghost predicate Disciplined(s: RunState, a: Name)
    requires a in s.attemptsById
  {
    var r := s.attemptsById[a];
    && 1 <= r.number <= |AttemptList(s, r.taskId)| && AttemptList(s, r.taskId)[r.number - 1] == a
    && (ActiveState(r.state) <==> LatestActive(s, r.taskId) == Some(a))
  }

  /** In every reachable state attempts are numbered 1..n by position and at most one per task is
      active. */
  lemma AttemptDiscipline(g: Graph, ops: seq<Op>, a: Name)
    requires Startable(g) && LegalRun(FromGraph(g), ops)
    requires a in Run(FromGraph(g), ops).attemptsById
    ensures Disciplined(Run(FromGraph(g), ops), a)
  {
    FromGraphInv(g);
    RunInv(FromGraph(g), ops);
    InvDisciplined(Run(FromGraph(g), ops), a);
  }

  lemma InvDisciplined(s: RunState, a: Name)
    requires Inv(s) && a in s.attemptsById
    ensures Disciplined(s, a)
  {
    hide GraphOk, Indexed, Safe, OneActive, HumanOk, ApprovalsOk, StatusOk;
    assert Entry(s.tasksById.Keys, s.attemptsById, s.attemptsByTask, a);
    LatestActiveIff(s, s.attemptsById[a].taskId, a);
  }

  // ---------------------------------------------------------------- what a run never undoes

  /** The later graph extends the earlier: nothing is lost, edges are only added into tasks that
      are new, and the revision tells whether tasks were added. */
  ghost predicate GraphGrows(earlier: Graph, known: set<Name>, later: Graph) {
    && earlier.run.id == later.run.id
    && TaskIds(earlier.tasks) <= TaskIds(later.tasks) && TaskKeys(earlier.tasks) <= TaskKeys(later.tasks)
    && earlier.edges <= later.edges
    && (forall i | |earlier.edges| <= i < |later.edges| :: later.edges[i].to !in known)
    && earlier.run.revision <= later.run.revision
    && (earlier.run.revision == later.run.revision ==> |earlier.tasks| == |later.tasks|)
    && (|earlier.tasks| == |later.tasks| ==> earlier.edges == later.edges && earlier.run.revision == later.run.revision)
  }

  predicate Kept(a: Task, b: Task) {
    && a.id == b.id && a.key == b.key
    && (a.state == COMPLETED ==> b.state == COMPLETED) && (a.state == FAILED ==> b.state == FAILED)
  }

  ghost predicate TasksKept(earlier: map<Name, Task>, later: map<Name, Task>) {
    forall x | x in earlier :: x in later && Kept(earlier[x], later[x])
  }

  /** What no call ever undoes. */
  ghost predicate Grows(earlier: RunState, later: RunState) {
    GraphGrows(earlier.graph, earlier.tasksById.Keys, later.graph) && TasksKept(earlier.tasksById, later.tasksById)
  }

  lemma SameShapeGrows(s: RunState, u: RunState)
    requires u.graph.run.id == s.graph.run.id && u.graph.run.revision == s.graph.run.revision
    requires TaskIds(u.graph.tasks) == TaskIds(s.graph.tasks) && TaskKeys(u.graph.tasks) == TaskKeys(s.graph.tasks)
    requires u.graph.edges == s.graph.edges
    requires TasksKept(s.tasksById, u.tasksById)
    ensures Grows(s, u)
  {
    assert |TaskIds(s.graph.tasks)| == |s.graph.tasks| && |TaskIds(u.graph.tasks)| == |u.graph.tasks|;
  }

  lemma SetTaskGrows(s: RunState, t: Task)
    requires Inv(s) && t.id in s.tasksById && Kept(s.tasksById[t.id], t) && t.runId == s.tasksById[t.id].runId
    ensures Grows(s, SetTask(s, t))
  {
    hide Safe, Numbered, OneActive, HumanOk, ApprovalsOk, RequestsOwned, StatusOk, Distinct, Acyclic, Unrepeated, NoAlias, Owned, EndpointsIn, Refresh;
    var i := TaskAt(s, t.id);
    SetTaskShape(s, t);
    assert forall x | x in s.tasksById :: s.tasksById[x].id == x by {
      forall x | x in s.tasksById ensures s.tasksById[x].id == x {
        var k := TaskAt(s, x);
      }
    }
    SameShapeGrows(s, SetTask(s, t));
  }

  lemma MoveTaskGrows(s: RunState, id: Name, to: TaskState, reason: Option<string>)
    requires Inv(s) && id in s.tasksById
    ensures Grows(s, MoveTask(s, id, to, reason).state)
  {
    var o := MoveTask(s, id, to, reason);
    var i := TaskAt(s, id);
    GrowsRefl(s);
    if o.reply.Ok? {
      SetTaskGrows(s, o.reply.value);
    }
  }

  lemma PromoteGrows(s: RunState)
    requires Inv(s)
    ensures Grows(s, Promote(s))
  {
    PromoteGraph(s, s.tasksById.Keys);
    SameShapeGrows(s, Promote(s));
  }

  lemma AppendedGrows(s: RunState, tasks: seq<Task>, edges: seq<Edge>)
    requires Inv(s) && tasks != [] && Appendable(s, tasks, edges) && CleanBatch(s, tasks, edges)
    ensures Grows(s, Appended(s, tasks, edges))
  {
    hide GraphOk, Safe, Numbered, OneActive, HumanOk, ApprovalsOk, RequestsOwned, StatusOk, NoAlias, Owned, Unrepeated, Acyclic, Distinct, AddById, AddByKey;
    var u := Appended(s, tasks, edges);
    IdsConcat(s.graph.tasks, tasks);
    forall i | |s.graph.edges| <= i < |u.graph.edges| ensures u.graph.edges[i].to !in s.tasksById {
      assert u.graph.edges[i] == edges[i - |s.graph.edges|];
      BatchIsFresh(s, tasks, u.graph.edges[i].to);
    }
    forall x | x in s.tasksById ensures x in u.tasksById && Kept(s.tasksById[x], u.tasksById[x]) {
      AppendedTask(s, tasks, edges, x);
    }
  }

  lemma GrowsRefl(s: RunState)
    ensures Grows(s, s)
  {
  }

  lemma GraphGrowsTrans(a: Graph, known: set<Name>, b: Graph, more: set<Name>, c: Graph)
    requires GraphGrows(a, known, b) && GraphGrows(b, more, c) && known <= more
    ensures GraphGrows(a, known, c)
  {
    assert |TaskIds(a.tasks)| == |a.tasks| && |TaskIds(b.tasks)| == |b.tasks| && |TaskIds(c.tasks)| == |c.tasks|;
    forall i | |a.edges| <= i < |c.edges| ensures c.edges[i].to !in known {
      if i < |b.edges| {
        assert c.edges[i] == b.edges[i];
      }
    }
  }

  lemma GrowsTrans(a: RunState, b: RunState, c: RunState)
    requires Grows(a, b) && Grows(b, c)
    ensures Grows(a, c)
  {
    GraphGrowsTrans(a.graph, a.tasksById.Keys, b.graph, b.tasksById.Keys, c.graph);
  }

  lemma DoneKeptByGrowth(a: RunState, b: RunState, id: Name)
    requires Grows(a, b) && id in a.tasksById && Done(a, id)
    ensures Done(b, id)
  {
    forall i | 0 <= i < |b.graph.edges| && b.graph.edges[i].hard && b.graph.edges[i].to == id
      ensures b.graph.edges[i].from in b.tasksById && b.tasksById[b.graph.edges[i].from].state == COMPLETED
    {
      assert i < |a.graph.edges| && a.graph.edges[i] == b.graph.edges[i];
    }
  }

  /** Growth looks at the graph and the tasks only, and not at the run's status. */
  lemma GrowsThrough(s: RunState, mid: RunState, u: RunState)
    requires Grows(s, mid)
    requires u.graph.run.id == mid.graph.run.id && u.graph.run.revision == mid.graph.run.revision
    requires u.graph.tasks == mid.graph.tasks && u.graph.edges == mid.graph.edges && u.tasksById == mid.tasksById
    ensures Grows(s, u)
  {
  }

  lemma StartTaskShape(s: RunState, ref: Name)
    requires StartTask(s, ref).reply.Ok?
    ensures var t, u := StartTask(s, ref).reply.value, StartTask(s, ref).state;
            var mid := SetTask(s, t);
            && u.graph.run.id == mid.graph.run.id && u.graph.run.revision == mid.graph.run.revision
            && u.graph.tasks == mid.graph.tasks && u.graph.edges == mid.graph.edges && u.tasksById == mid.tasksById
  {
  }

  lemma StartTaskGrows(s: RunState, ref: Name)
    requires Inv(s)
    ensures Grows(s, StartTask(s, ref).state)
  {
    var o := StartTask(s, ref);
    GrowsRefl(s);
    if o.reply.Ok? {
      var i := TaskAt(s, Lookup(s, ref).value);
      SetTaskGrows(s, o.reply.value);
      StartTaskShape(s, ref);
      GrowsThrough(s, SetTask(s, o.reply.value), o.state);
    }
  }

  lemma FailTaskGrows(s: RunState, ref: Name, reason: string)
    requires Inv(s)
    ensures Grows(s, FailTask(s, ref, reason).state)
  {
    if Lookup(s, ref).Ok? {
      var mid := MoveTask(s, Lookup(s, ref).value, FAILED, Some(reason)).state;
      MoveTaskGrows(s, Lookup(s, ref).value, FAILED, Some(reason));
      GrowsRefl(s);
      if FailTask(s, ref, reason).reply.Ok? {
        GrowsThrough(s, mid, FailTask(s, ref, reason).state);
      }
    } else {
      GrowsRefl(s);
    }
  }

  lemma CompleteTaskShape(s: RunState, ref: Name)
    requires CompleteTask(s, ref).reply.Ok?
    ensures var t, u := CompleteTask(s, ref).reply.value, CompleteTask(s, ref).state;
            var mid := SetTask(s, t);
            && u.graph.run.id == mid.graph.run.id && u.graph.run.revision == mid.graph.run.revision
            && u.graph.tasks == mid.graph.tasks && u.graph.edges == mid.graph.edges && u.tasksById == mid.tasksById
            && Lookup(s, ref).Ok? && t == s.tasksById[Lookup(s, ref).value].(state := COMPLETED, blockReason := None)
            && s.tasksById[Lookup(s, ref).value].state in {READY, IN_PROGRESS}
  {
  }

  lemma CompleteTaskGrows(s: RunState, ref: Name)
    requires Inv(s)
    ensures Grows(s, CompleteTask(s, ref).state)
  {
    var o := CompleteTask(s, ref);
    GrowsRefl(s);
    if o.reply.Ok? {
      CompleteTaskShape(s, ref);
      var i := TaskAt(s, Lookup(s, ref).value);
      SetTaskGrows(s, o.reply.value);
      GrowsThrough(s, SetTask(s, o.reply.value), o.state);
    }
  }

  lemma ParkGrows<T>(s: RunState, base: RunState, id: Name, to: TaskState, answer: T)
    requires Inv(base) && id in base.tasksById && base.graph == s.graph && base.tasksById == s.tasksById
    ensures Grows(s, Park(base, id, to, answer).state)
  {
    ParkShape(base, id, to, answer);
    MoveTaskGrows(base, id, to, None);
    GrowsRefl(base);
    assert Grows(base, Park(base, id, to, answer).state);
  }

  lemma AskHumanGrows(s: RunState, ref: Name, attemptId: Name, question: string, context: string, freshId: Name)
    requires Inv(s) && freshId !in s.humanRequests
    ensures Grows(s, RequestClarification(s, ref, attemptId, question, context, freshId).state)
  {
    if Lookup(s, ref).Ok? {
      var id := Lookup(s, ref).value;
      var r := ClarificationToStore(s, id, attemptId, question, context, freshId);
      ClarificationStored(s, id, attemptId, question, context, freshId);
      ParkGrows(s, StoreHuman(s, r), id, WAITING_FOR_HUMAN, r);
    } else {
      GrowsRefl(s);
    }
  }

  lemma AskApprovalGrows(s: RunState, ref: Name, attemptId: Name, approvalType: string, reason: string, freshId: Name)
    requires Inv(s) && freshId !in s.approvalRequests
    ensures Grows(s, RequestApproval(s, ref, attemptId, approvalType, reason, freshId).state)
  {
    if Lookup(s, ref).Ok? {
      var id := Lookup(s, ref).value;
      var r := ApprovalToStore(s, id, attemptId, approvalType, reason, freshId);
      ApprovalStored(s, id, attemptId, approvalType, reason, freshId);
      ParkGrows(s, StoreApproval(s, r), id, WAITING_FOR_APPROVAL, r);
    } else {
      GrowsRefl(s);
    }
  }

  lemma ReleaseGrows(s: RunState, base: RunState, id: Name, parked: TaskState, attemptId: Name, to: TaskState, reason: Option<string>)
    requires Inv(base) && id in base.tasksById && base.graph == s.graph && base.tasksById == s.tasksById
    ensures Grows(s, Release(base, id, parked, attemptId, to, reason))
  {
    MoveTaskGrows(base, id, to, reason);
    GrowsRefl(base);
    assert Grows(base, Release(base, id, parked, attemptId, to, reason));
  }

  lemma AnswerGrows(s: RunState, requestId: Name, answer: string, who: string)
    requires Inv(s)
    ensures Grows(s, AnswerHumanRequest(s, requestId, answer, who).state)
  {
    if requestId in s.humanRequests && Lookup(s, s.humanRequests[requestId].taskId).Ok? {
      var r := s.humanRequests[requestId].(status := Answered, answer := Some(answer), answeredBy := Some(who));
      StoreHumanInv(s, r);
      ReleaseGrows(s, StoreHuman(s, r), Lookup(s, r.taskId).value, WAITING_FOR_HUMAN, r.attemptId, READY, None);
    } else {
      GrowsRefl(s);
    }
  }

  lemma ResolveGrows(s: RunState, requestId: Name, approved: bool, who: string)
    requires Inv(s)
    ensures Grows(s, ResolveApproval(s, requestId, approved, who).state)
  {
    if requestId in s.approvalRequests && Lookup(s, s.approvalRequests[requestId].taskId).Ok? {
      var r := s.approvalRequests[requestId].(status := if approved then Approved else Rejected, resolvedBy := Some(who));
      var to, reason := if approved then READY else BLOCKED, if approved then None else Some("approval_rejected");
      StoreApprovalInv(s, r);
      ReleaseGrows(s, StoreApproval(s, r), Lookup(s, r.taskId).value, WAITING_FOR_APPROVAL, r.attemptId, to, reason);
    } else {
      GrowsRefl(s);
    }
  }

  /** The calls that change the graph or its tasks. */
  lemma TaskStepGrows(s: RunState, op: Op)
    requires Inv(s) && Legal(s, op)
    requires op.AddDynamic? || op.UpdateTask? || op.PromoteReady? || op.StartTaskOp? || op.FailTaskOp? || op.Unblock? || op.Block? || op.Complete?
    ensures Grows(s, Apply(s, op))
  {
    hide GraphOk, Indexed, Safe, Numbered, OneActive, HumanOk, ApprovalsOk, StatusOk;
    GrowsRefl(s);
    match op
    case AddDynamic(tasks, edges) =>
      if tasks != [] && Appendable(s, tasks, edges) {
        AppendedGrows(s, tasks, edges);
      }
    case UpdateTask(t) =>
      var i := TaskAt(s, t.id);
      SetTaskGrows(s, t);
    case PromoteReady => PromoteGrows(s);
    case StartTaskOp(ref) => StartTaskGrows(s, ref);
    case FailTaskOp(ref, reason) => FailTaskGrows(s, ref, reason);
    case Unblock(ref) =>
      if Lookup(s, ref).Ok? {
        MoveTaskGrows(s, Lookup(s, ref).value, READY, None);
      }
    case Block(ref, reason) =>
      if Lookup(s, ref).Ok? {
        MoveTaskGrows(s, Lookup(s, ref).value, BLOCKED, Some(reason));
      }
    case Complete(ref) => CompleteTaskGrows(s, ref);
  }

  /** The graph and the task dictionary are as they were, up to the run's status. */
  ghost predicate SameTasks(s: RunState, u: RunState) {
    && u.graph.tasks == s.graph.tasks && u.graph.edges == s.graph.edges && u.tasksById == s.tasksById
    && u.graph.run.id == s.graph.run.id && u.graph.run.revision == s.graph.run.revision && u.graphRevision == s.graphRevision
  }

  lemma OpenSameTasks(s: RunState, ref: Name, freshId: Name, leaseKey: Option<Name>, payload: string)
    ensures SameTasks(s, OpenAttempt(s, ref, freshId, leaseKey, payload).state)
  {
    hide Lookup, LatestActive, AttemptList;
  }

  lemma MarkRunningSameTasks(s: RunState)
    ensures SameTasks(s, MarkRunning(s))
  {
  }

  lemma MoveSameTasks(s: RunState, id: Name, to: AttemptState)
    ensures SameTasks(s, MoveAttempt(s, id, to).state)
  {
    hide AllowedAttempt;
  }

  lemma DispatchSameTasks(s: RunState, id: Name)
    ensures SameTasks(s, DispatchAttempt(s, id).state)
  {
    hide MoveAttempt, MarkRunning;
    MoveSameTasks(s, id, DISPATCHING);
    MarkRunningSameTasks(MoveAttempt(s, id, DISPATCHING).state);
  }

  lemma StartSameTasks(s: RunState, id: Name)
    ensures SameTasks(s, StartAttempt(s, id).state)
  {
    hide MarkRunning, AllowedAttempt;
    if StartAttempt(s, id).reply.Ok? {
      MarkRunningSameTasks(s.(attemptsById := s.attemptsById[id := StartAttempt(s, id).reply.value]));
    }
  }

  lemma AttemptStepGrows(s: RunState, op: Op)
    requires op.OpenOp? || op.Record? || op.Dispatch? || op.Start? || op.Move?
    ensures SameTasks(s, Apply(s, op))
  {
    hide OpenAttempt, MoveAttempt, DispatchAttempt, StartAttempt;
    match op
    case OpenOp(ref, freshId, leaseKey, payload) => OpenSameTasks(s, ref, freshId, leaseKey, payload);
    case Record(a) =>
    case Dispatch(id) => DispatchSameTasks(s, id);
    case Start(id) => StartSameTasks(s, id);
    case Move(id, to) => MoveSameTasks(s, id, to);
  }

  lemma StepGrows(s: RunState, op: Op)
    requires Inv(s) && Legal(s, op)
    ensures Grows(s, Apply(s, op))
  {
    hide Inv, Grows, AddDynamicTasks, Promote, RecordAttempt, OpenAttempt, MoveAttempt, StartAttempt, DispatchAttempt, StartTask, FailTask, UnblockTask, BlockTask, CompleteTask, RequestClarification, AnswerHumanRequest, RequestApproval, ResolveApproval, SetTask;
    match op
    case AskHuman(ref, a, q, c, f) => AskHumanGrows(s, ref, a, q, c, f);
    case AnswerHuman(r, a, w) => AnswerGrows(s, r, a, w);
    case AskApproval(ref, a, t, r, f) => AskApprovalGrows(s, ref, a, t, r, f);
    case Resolve(r, ok, w) => ResolveGrows(s, r, ok, w);
    case _ =>
      if op.OpenOp? || op.Record? || op.Dispatch? || op.Start? || op.Move? {
        AttemptStepGrows(s, op);
        GrowsRefl(s);
        GrowsThrough(s, s, Apply(s, op));
      } else {
        TaskStepGrows(s, op);
      }
  }

  /** Over a whole run nothing is lost, completed and failed tasks stay so, and edges are only ever
      added into new tasks. */
  lemma {:induction false} RunGrows(s: RunState, ops: seq<Op>)
    requires Inv(s) && LegalRun(s, ops)
    ensures Grows(s, Run(s, ops))
    decreases |ops|
  {
    if ops == [] {
      GrowsRefl(s);
    } else {
      StepInv(s, ops[0]);
      StepGrows(s, ops[0]);
      RunGrows(Apply(s, ops[0]), ops[1..]);
      GrowsTrans(s, Apply(s, ops[0]), Run(Apply(s, ops[0]), ops[1..]));
    }
  }

  // ---------------------------------------------------------------- appends happen once

  /** This call appends a task with this key. */
  ghost predicate Appends(s: RunState, op: Op, key: Name) {
    op.AddDynamic? && op.tasks != [] && Appendable(s, op.tasks, op.edges) && key in TaskKeys(op.tasks)
  }

  ghost function AppendCount(s: RunState, ops: seq<Op>, key: Name): nat
    decreases |ops|
  {
    if ops == [] then 0
    else (if Appends(s, ops[0], key) then 1 else 0) + AppendCount(Apply(s, ops[0]), ops[1..], key)
  }

  lemma KeysOnlyGrow(s: RunState, op: Op, key: Name)
    requires Inv(s) && Legal(s, op)
    ensures key in s.tasksByKey || Appends(s, op, key) ==> key in Apply(s, op).tasksByKey
  {
    hide GraphOk, Safe, Numbered, OneActive, HumanOk, ApprovalsOk, RequestsOwned, StatusOk, Legal, TasksKept, Promote, RecordAttempt, OpenAttempt, MoveAttempt, StartAttempt, DispatchAttempt, StartTask, FailTask, UnblockTask, BlockTask, CompleteTask, RequestClarification, AnswerHumanRequest, RequestApproval, ResolveApproval, SetTask;
    StepInv(s, op);
    StepGrows(s, op);
    var u := Apply(s, op);
    if key in s.tasksByKey {
      assert key in TaskKeys(s.graph.tasks);
      assert key in TaskKeys(u.graph.tasks);
    }
    if Appends(s, op, key) {
      AddByKeyFacts(s.tasksByKey, op.tasks);
    }
  }

  /** A key is appended at most once in a whole run, and never if the graph already has it; this
      covers the four rework keys and the release signoff. */
  lemma {:induction false} AppendedAtMostOnce(s: RunState, ops: seq<Op>, key: Name)
    requires Inv(s) && LegalRun(s, ops)
    ensures AppendCount(s, ops, key) <= 1
    ensures key in s.tasksByKey ==> AppendCount(s, ops, key) == 0
    decreases |ops|
  {
    if ops != [] {
      StepInv(s, ops[0]);
      KeysOnlyGrow(s, ops[0], key);
      AppendedAtMostOnce(Apply(s, ops[0]), ops[1..], key);
      if Appends(s, ops[0], key) {
        BatchIsFresh(s, ops[0].tasks, key);
      }
    }
  }

  ghost predicate SameRevision(s: RunState, u: RunState) {
    u.graphRevision == s.graphRevision && u.graph.run.revision == s.graph.run.revision
  }

  lemma MoveTaskRevision(s: RunState, id: Name, to: TaskState, reason: Option<string>)
    requires id in s.tasksById
    ensures SameRevision(s, MoveTask(s, id, to, reason).state)
  {
  }

  lemma StartTaskRevision(s: RunState, ref: Name)
    ensures SameRevision(s, StartTask(s, ref).state)
  {
    hide Done, Refresh;
  }

  lemma CompleteTaskRevision(s: RunState, ref: Name)
    ensures SameRevision(s, CompleteTask(s, ref).state)
  {
    hide Done, AllCompleted, Refresh;
  }

  lemma GuardedMoveRevision(s: RunState, ref: Name, reason: string)
    ensures SameRevision(s, FailTask(s, ref, reason).state)
    ensures SameRevision(s, BlockTask(s, ref, reason).state) && SameRevision(s, UnblockTask(s, ref).state)
  {
    hide MoveTask;
    if Lookup(s, ref).Ok? {
      var id := Lookup(s, ref).value;
      MoveTaskRevision(s, id, FAILED, Some(reason));
      MoveTaskRevision(s, id, BLOCKED, Some(reason));
      MoveTaskRevision(s, id, READY, None);
    }
  }

  lemma ParkRevision<T>(s: RunState, id: Name, to: TaskState, answer: T)
    requires id in s.tasksById
    ensures SameRevision(s, Park(s, id, to, answer).state)
  {
    hide MoveTask;
    MoveTaskRevision(s, id, to, None);
  }

  lemma ReleaseRevision(s: RunState, id: Name, parked: TaskState, attemptId: Name, to: TaskState, reason: Option<string>)
    requires id in s.tasksById
    ensures SameRevision(s, Release(s, id, parked, attemptId, to, reason))
  {
    hide MoveTask;
    MoveTaskRevision(s, id, to, reason);
  }

  lemma AskRevision(s: RunState, op: Op)
    requires op.AskHuman? || op.AskApproval?
    ensures SameRevision(s, Apply(s, op))
  {
    hide Park, ClarificationToStore, ApprovalToStore;
    if Lookup(s, op.ref).Ok? {
      var id := Lookup(s, op.ref).value;
      if op.AskHuman? {
        var r := ClarificationToStore(s, id, op.attemptId, op.question, op.context, op.freshId);
        ParkRevision(StoreHuman(s, r), id, WAITING_FOR_HUMAN, r);
      } else {
        var r := ApprovalToStore(s, id, op.attemptId, op.approvalType, op.reason, op.freshId);
        ParkRevision(StoreApproval(s, r), id, WAITING_FOR_APPROVAL, r);
      }
    }
  }

  lemma AnswerRevision(s: RunState, requestId: Name, answer: string, who: string)
    ensures SameRevision(s, AnswerHumanRequest(s, requestId, answer, who).state)
  {
    hide Release;
    if AnswerHumanRequest(s, requestId, answer, who).reply.Ok? {
      var r := AnswerHumanRequest(s, requestId, answer, who).reply.value;
      ReleaseRevision(StoreHuman(s, r), Lookup(s, r.taskId).value, WAITING_FOR_HUMAN, r.attemptId, READY, None);
    }
  }

  lemma ResolveRevision(s: RunState, requestId: Name, approved: bool, who: string)
    ensures SameRevision(s, ResolveApproval(s, requestId, approved, who).state)
  {
    hide Release;
    if ResolveApproval(s, requestId, approved, who).reply.Ok? {
      var r := ResolveApproval(s, requestId, approved, who).reply.value;
      var to, reason := if approved then READY else BLOCKED, if approved then None else Some("approval_rejected");
      ReleaseRevision(StoreApproval(s, r), Lookup(s, r.taskId).value, WAITING_FOR_APPROVAL, r.attemptId, to, reason);
    }
  }

  lemma AppendRevision(s: RunState, tasks: seq<Task>, edges: seq<Edge>)
    requires s.graphRevision == s.graph.run.revision
    ensures var u := AddDynamicTasks(s, tasks, edges).state;
            && u.graphRevision == u.graph.run.revision
            && u.graphRevision == s.graphRevision + if tasks != [] && Appendable(s, tasks, edges) then 1 else 0
  {
    hide Appendable, AddById, AddByKey;
  }

  /** The graph revision moves by exactly one on an append and not at all otherwise. */
  lemma RevisionStep(s: RunState, op: Op)
    requires s.graphRevision == s.graph.run.revision
    ensures var u := Apply(s, op);
            && u.graphRevision == u.graph.run.revision
            && u.graphRevision == s.graphRevision
                 + if op.AddDynamic? && op.tasks != [] && Appendable(s, op.tasks, op.edges) then 1 else 0
  {
    hide Appendable, AddDynamicTasks, OpenAttempt, MoveAttempt, DispatchAttempt, StartAttempt, StartTask, FailTask, UnblockTask, BlockTask,
      CompleteTask, RequestClarification, AnswerHumanRequest, RequestApproval, ResolveApproval, Done, RecordAttempt;
    match op
    case AddDynamic(tasks, edges) => AppendRevision(s, tasks, edges);
    case UpdateTask(t) =>
    case PromoteReady =>
    case StartTaskOp(ref) => StartTaskRevision(s, ref);
    case FailTaskOp(ref, reason) => GuardedMoveRevision(s, ref, reason);
    case Unblock(ref) => GuardedMoveRevision(s, ref, "");
    case Block(ref, reason) => GuardedMoveRevision(s, ref, reason);
    case Complete(ref) => CompleteTaskRevision(s, ref);
    case AskHuman(_, _, _, _, _) => AskRevision(s, op);
    case AnswerHuman(r, a, w) => AnswerRevision(s, r, a, w);
    case AskApproval(_, _, _, _, _) => AskRevision(s, op);
    case Resolve(r, ok, w) => ResolveRevision(s, r, ok, w);
    case _ => AttemptStepGrows(s, op);
  }

  // ---------------------------------------------------------------- update_task

  /** `update_task` keeps the indexes exact only for a record of a known task with its key
      unchanged, and for every such record. */
  lemma UpdateTaskKeepsIndexIff(s: RunState, t: Task)
    requires Inv(s)
    ensures Indexed(SetTask(s, t).graph.tasks, SetTask(s, t).tasksById, SetTask(s, t).tasksByKey)
       <==> t.id in s.tasksById && s.tasksById[t.id].key == t.key
  {
    hide GraphOk, Safe, Numbered, OneActive, HumanOk, ApprovalsOk, StatusOk;
    var u := SetTask(s, t);
    if t.id in s.tasksById {
      var i := TaskAt(s, t.id);
      SetTaskTasks(s, t);
      if t.key == s.tasksById[t.id].key {
        assert TaskIds(u.graph.tasks) == TaskIds(s.graph.tasks) && TaskKeys(u.graph.tasks) == TaskKeys(s.graph.tasks);
      } else if Indexed(u.graph.tasks, u.tasksById, u.tasksByKey) {
        StaleKey(s, t, i);
      }
    } else if Indexed(u.graph.tasks, u.tasksById, u.tasksByKey) {
      UnknownIdStaysOut(s, t);
    }
  }

  lemma UnknownIdStaysOut(s: RunState, t: Task)
    requires Indexed(s.graph.tasks, s.tasksById, s.tasksByKey) && t.id !in s.tasksById
    ensures t.id in SetTask(s, t).tasksById && t.id !in Elements(TaskIds(SetTask(s, t).graph.tasks))
  {
    var u := SetTask(s, t);
    assert forall k | 0 <= k < |s.graph.tasks| :: s.graph.tasks[k].id in s.tasksById;
    assert u.graph.tasks == s.graph.tasks;
  }

  /** The old key stays in the key index although no task of the graph has it any more. */
  lemma StaleKey(s: RunState, t: Task, i: nat)
    requires Inv(s) && t.id in s.tasksById && t.key != s.tasksById[t.id].key
    requires i < |s.graph.tasks| && s.graph.tasks[i].id == t.id
    ensures var u := SetTask(s, t);
            s.graph.tasks[i].key in u.tasksByKey && s.graph.tasks[i].key !in Elements(TaskKeys(u.graph.tasks))
  {
    var u := SetTask(s, t);
    SetTaskTasks(s, t);
    var old_ := s.graph.tasks[i].key;
    forall k | 0 <= k < |u.graph.tasks| ensures TaskKeys(u.graph.tasks)[k] != old_ {
      assert TaskIds(s.graph.tasks)[k] == s.graph.tasks[k].id && TaskKeys(s.graph.tasks)[k] == s.graph.tasks[k].key;
    }
  }
}
