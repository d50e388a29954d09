/** What the calls of concurrent workers keep of each other. */
module Protocol {
  import opened Names
  import opened Wrappers
  import opened Sequences
  import opened Records
  import opened RunModel
  import opened RunInvariant
  import opened RunHistory
  import opened Orchestration

  // Two facts carry the worker protocol.  A call that names neither a task nor an attempt of it
  // leaves both exactly as they were, so workers on different tasks do not disturb each other.
  // And as long as workers start a task before its attempt and end the attempt before the task
  // moves on, every attempt in flight has its task IN_PROGRESS, at every moment.

  ghost predicate AttemptOf(s: RunState, a: Name, id: Name) {
    a in s.attemptsById && s.attemptsById[a].taskId == id
  }

  // ---------------------------------------------------------------- calls about other tasks

  /** The call names neither the task nor an attempt or request of it. */
  ghost predicate Apart(s: RunState, op: Op, id: Name) {
    match op
    case AddDynamic(_, _) => true
    case UpdateTask(t) => t.id != id
    case OpenOp(ref, _, _, _) => Lookup(s, ref) != Ok(id)
    case Record(a) => a.taskId != id
    case Dispatch(a) => !AttemptOf(s, a, id)
    case Start(a) => !AttemptOf(s, a, id)
    case Move(a, _) => !AttemptOf(s, a, id)
    case PromoteReady => true
    case StartTaskOp(ref) => Lookup(s, ref) != Ok(id)
    case FailTaskOp(ref, _) => Lookup(s, ref) != Ok(id)
    case Unblock(ref) => Lookup(s, ref) != Ok(id)
    case Block(ref, _) => Lookup(s, ref) != Ok(id)
    case Complete(ref) => Lookup(s, ref) != Ok(id)
    case AskHuman(ref, _, _, _, _) => Lookup(s, ref) != Ok(id)
    case AnswerHuman(r, _, _) => r in s.humanRequests ==> Lookup(s, s.humanRequests[r].taskId) != Ok(id)
    case AskApproval(ref, _, _, _, _) => Lookup(s, ref) != Ok(id)
    case Resolve(r, _, _) => r in s.approvalRequests ==> Lookup(s, s.approvalRequests[r].taskId) != Ok(id)
  }

  /** The task, its attempts and their list are exactly as they were. */
  ghost predicate Unmoved(s: RunState, u: RunState, id: Name) {
    && id in s.tasksById && id in u.tasksById && u.tasksById[id] == s.tasksById[id]
    && AttemptList(u, id) == AttemptList(s, id)
    && (forall a | AttemptOf(s, a, id) :: a in u.attemptsById && u.attemptsById[a] == s.attemptsById[a])
    && (forall a | AttemptOf(u, a, id) :: AttemptOf(s, a, id))
  }

  /** Of the tasks at most `x` changed, and no attempt did. */
  ghost predicate OnlyTask(s: RunState, u: RunState, x: Name) {
    && u.attemptsById == s.attemptsById && u.attemptsByTask == s.attemptsByTask
    && (forall y | y in s.tasksById :: y in u.tasksById)
    && (forall y | y in s.tasksById && y != x :: u.tasksById[y] == s.tasksById[y])
  }

  lemma SetTaskOnly(s: RunState, t: Task)
    ensures OnlyTask(s, SetTask(s, t), t.id)
  {
    hide Refresh;
  }

  lemma MoveTaskOnly(s: RunState, x: Name, to: TaskState, reason: Option<string>)
    requires x in s.tasksById && s.tasksById[x].id == x
    ensures OnlyTask(s, MoveTask(s, x, to, reason).state, x)
  {
    hide SetTask, AllowedTask;
    if MoveTask(s, x, to, reason).reply.Ok? {
      SetTaskOnly(s, MoveTask(s, x, to, reason).reply.value);
    }
  }

  /** A looked-up task carries its own id. */
  lemma KnownTask(s: RunState, ref: Name)
    requires Inv(s) && Lookup(s, ref).Ok?
    ensures Lookup(s, ref).value in s.tasksById && s.tasksById[Lookup(s, ref).value].id == Lookup(s, ref).value
  {
    hide GraphOk, Safe, Numbered, OneActive, HumanOk, ApprovalsOk, RequestsOwned, StatusOk;
    var i := TaskAt(s, Lookup(s, ref).value);
  }

  /** The task a call changes, if any. */
  ghost function Target(s: RunState, op: Op): Result<Name> {
    match op
    case UpdateTask(t) => Ok(t.id)
    case StartTaskOp(ref) => Lookup(s, ref)
    case FailTaskOp(ref, _) => Lookup(s, ref)
    case Unblock(ref) => Lookup(s, ref)
    case Block(ref, _) => Lookup(s, ref)
    case Complete(ref) => Lookup(s, ref)
    case AskHuman(ref, _, _, _, _) => Lookup(s, ref)
    case AnswerHuman(r, _, _) => if r in s.humanRequests then Lookup(s, s.humanRequests[r].taskId) else Err(UnknownKey)
    case AskApproval(ref, _, _, _, _) => Lookup(s, ref)
    case Resolve(r, _, _) => if r in s.approvalRequests then Lookup(s, s.approvalRequests[r].taskId) else Err(UnknownKey)
    case _ => Err(UnknownKey)
  }

  predicate AboutTask(op: Op) {
    op.UpdateTask? || op.StartTaskOp? || op.FailTaskOp? || op.Unblock? || op.Block? || op.Complete?
    || op.AskHuman? || op.AnswerHuman? || op.AskApproval? || op.Resolve?
  }

  lemma StartTaskOnly(s: RunState, ref: Name)
    requires Inv(s)
    ensures StartTask(s, ref).reply.Err? ==> StartTask(s, ref).state == s
    ensures StartTask(s, ref).reply.Ok? ==>
              && OnlyTask(s, StartTask(s, ref).state, Lookup(s, ref).value)
              && TaskIs(StartTask(s, ref).state, Lookup(s, ref).value, IN_PROGRESS)
  {
    hide Inv, Done, Refresh;
    if StartTask(s, ref).reply.Ok? {
      KnownTask(s, ref);
    }
  }

  lemma CompleteTaskOnly(s: RunState, ref: Name)
    requires Inv(s)
    ensures CompleteTask(s, ref).reply.Err? ==> CompleteTask(s, ref).state == s
    ensures CompleteTask(s, ref).reply.Ok? ==> OnlyTask(s, CompleteTask(s, ref).state, Lookup(s, ref).value)
  {
    hide Inv, Done, Refresh, AllCompleted;
    if CompleteTask(s, ref).reply.Ok? {
      KnownTask(s, ref);
    }
  }

  lemma GuardedMoveOnly(s: RunState, ref: Name, reason: string)
    requires Inv(s) && Lookup(s, ref).Ok?
    ensures OnlyTask(s, FailTask(s, ref, reason).state, Lookup(s, ref).value)
    ensures OnlyTask(s, BlockTask(s, ref, reason).state, Lookup(s, ref).value)
    ensures OnlyTask(s, UnblockTask(s, ref).state, Lookup(s, ref).value)
  {
    hide Inv, MoveTask;
    KnownTask(s, ref);
    MoveTaskOnly(s, Lookup(s, ref).value, FAILED, Some(reason));
    MoveTaskOnly(s, Lookup(s, ref).value, BLOCKED, Some(reason));
    MoveTaskOnly(s, Lookup(s, ref).value, READY, None);
  }

  lemma ParkOnly<T>(s: RunState, x: Name, to: TaskState, answer: T)
    requires x in s.tasksById && s.tasksById[x].id == x
    ensures OnlyTask(s, Park(s, x, to, answer).state, x)
  {
    hide MoveTask;
    MoveTaskOnly(s, x, to, None);
  }

  lemma ReleaseOnly(s: RunState, x: Name, parked: TaskState, attemptId: Name, to: TaskState, reason: Option<string>)
    requires x in s.tasksById && s.tasksById[x].id == x
    ensures OnlyTask(s, Release(s, x, parked, attemptId, to, reason), x)
    ensures s.tasksById[x].state != parked ==> Release(s, x, parked, attemptId, to, reason) == s
  {
    hide MoveTask;
    MoveTaskOnly(s, x, to, reason);
  }

  lemma AskOnly(s: RunState, op: Op)
    requires Inv(s) && (op.AskHuman? || op.AskApproval?) && Lookup(s, op.ref).Ok?
    ensures OnlyTask(s, Apply(s, op), Lookup(s, op.ref).value)
  {
    hide Inv, Park, ClarificationToStore, ApprovalToStore;
    var id := Lookup(s, op.ref).value;
    KnownTask(s, op.ref);
    if op.AskHuman? {
      var r := ClarificationToStore(s, id, op.attemptId, op.question, op.context, op.freshId);
      ParkOnly(StoreHuman(s, r), id, WAITING_FOR_HUMAN, r);
    } else {
      var r := ApprovalToStore(s, id, op.attemptId, op.approvalType, op.reason, op.freshId);
      ParkOnly(StoreApproval(s, r), id, WAITING_FOR_APPROVAL, r);
    }
  }

  lemma SettleOnly(s: RunState, op: Op)
    requires Inv(s) && (op.AnswerHuman? || op.Resolve?) && Target(s, op).Ok?
    ensures OnlyTask(s, Apply(s, op), Target(s, op).value)
    ensures var x := Target(s, op).value;
            x in s.tasksById && (s.tasksById[x].state == IN_PROGRESS ==> TaskIs(Apply(s, op), x, IN_PROGRESS))
  {
    hide Inv, Release;
    var x := Target(s, op).value;
    if op.AnswerHuman? {
      KnownTask(s, s.humanRequests[op.requestId].taskId);
      var r := s.humanRequests[op.requestId].(status := Answered, answer := Some(op.answer), answeredBy := Some(op.who));
      ReleaseOnly(StoreHuman(s, r), x, WAITING_FOR_HUMAN, r.attemptId, READY, None);
    } else {
      KnownTask(s, s.approvalRequests[op.requestId].taskId);
      var r := s.approvalRequests[op.requestId].(status := if op.approved then Approved else Rejected, resolvedBy := Some(op.who));
      var to, reason := if op.approved then READY else BLOCKED, if op.approved then None else Some("approval_rejected");
      ReleaseOnly(StoreApproval(s, r), x, WAITING_FOR_APPROVAL, r.attemptId, to, reason);
    }
  }

  /** A call about a task changes that task only, and no attempt. */
  lemma AboutTaskOnly(s: RunState, op: Op)
    requires Inv(s) && AboutTask(op)
    ensures match Target(s, op) case Ok(x) => OnlyTask(s, Apply(s, op), x) case Err(_) => Apply(s, op) == s
  {
    hide Inv, StartTask, FailTask, UnblockTask, BlockTask, CompleteTask, RequestClarification, AnswerHumanRequest, RequestApproval, ResolveApproval, SetTask;
    match op
    case UpdateTask(t) => SetTaskOnly(s, t);
    case StartTaskOp(ref) => StartTaskOnly(s, ref); StartTaskUnknown(s, ref);
    case Complete(ref) => CompleteTaskOnly(s, ref); StartTaskUnknown(s, ref);
    case AskHuman(ref, _, _, _, _) => AskUnknown(s, op); if Target(s, op).Ok? { AskOnly(s, op); }
    case AskApproval(ref, _, _, _, _) => AskUnknown(s, op); if Target(s, op).Ok? { AskOnly(s, op); }
    case AnswerHuman(_, _, _) => SettleUnknown(s, op); if Target(s, op).Ok? { SettleOnly(s, op); }
    case Resolve(_, _, _) => SettleUnknown(s, op); if Target(s, op).Ok? { SettleOnly(s, op); }
    case FailTaskOp(ref, reason) => StartTaskUnknown(s, ref); if Target(s, op).Ok? { GuardedMoveOnly(s, ref, reason); }
    case Block(ref, reason) => StartTaskUnknown(s, ref); if Target(s, op).Ok? { GuardedMoveOnly(s, ref, reason); }
    case Unblock(ref) => StartTaskUnknown(s, ref); if Target(s, op).Ok? { GuardedMoveOnly(s, ref, ""); }
  }

  lemma StartTaskUnknown(s: RunState, ref: Name)
    ensures Lookup(s, ref).Err? ==>
              && StartTask(s, ref) == Outcome(s, Err(UnknownKey)) && CompleteTask(s, ref) == Outcome(s, Err(UnknownKey))
              && UnblockTask(s, ref) == Outcome(s, Err(UnknownKey))
    ensures Lookup(s, ref).Err? ==>
              forall reason :: FailTask(s, ref, reason).state == s && BlockTask(s, ref, reason).state == s
  {
  }

  lemma AskUnknown(s: RunState, op: Op)
    requires op.AskHuman? || op.AskApproval?
    ensures Lookup(s, op.ref).Err? ==> Apply(s, op) == s
  {
    hide Park, ClarificationToStore, ApprovalToStore;
  }

  lemma SettleUnknown(s: RunState, op: Op)
    requires op.AnswerHuman? || op.Resolve?
    ensures Target(s, op).Err? ==> Apply(s, op) == s
  {
    hide Release;
  }

  // ---------------------------------------------------------------- calls about attempts

  predicate AboutAttempt(op: Op) {
    op.OpenOp? || op.Record? || op.Dispatch? || op.Start? || op.Move?
  }

  /** The attempt such a call changes. */
  function Subject(op: Op): Name
    requires AboutAttempt(op)
  {
    match op
    case OpenOp(_, freshId, _, _) => freshId
    case Record(a) => a.id
    case Dispatch(a) => a
    case Start(a) => a
    case Move(a, _) => a
  }

  /** At most the attempt `a` changed or was opened, and only its task's list with it. */
  ghost predicate OnlyAttempt(s: RunState, u: RunState, a: Name) {
    && u.tasksById == s.tasksById
    && (forall b | b != a :: (b in u.attemptsById <==> b in s.attemptsById))
    && (forall b | b != a && b in s.attemptsById :: u.attemptsById[b] == s.attemptsById[b])
    && (a in s.attemptsById ==> a in u.attemptsById && u.attemptsById[a].taskId == s.attemptsById[a].taskId)
    && (forall t | !AttemptOf(u, a, t) :: AttemptList(u, t) == AttemptList(s, t))
  }

  /** `a` is replaced by a record of the same task. */
  lemma ReplacedOnly(s: RunState, u: RunState, a: Name, r: Attempt)
    requires a in s.attemptsById && r.taskId == s.attemptsById[a].taskId
    requires u.tasksById == s.tasksById && u.attemptsByTask == s.attemptsByTask && u.attemptsById == s.attemptsById[a := r]
    ensures OnlyAttempt(s, u, a) && u.attemptsById.Keys == s.attemptsById.Keys
  {
  }

  lemma MoveOnly(s: RunState, a: Name, to: AttemptState)
    ensures OnlyAttempt(s, MoveAttempt(s, a, to).state, a)
    ensures MoveAttempt(s, a, to).state.attemptsById.Keys == s.attemptsById.Keys
  {
    hide AllowedAttempt, OnlyAttempt;
    var o := MoveAttempt(s, a, to);
    if o.reply.Ok? {
      ReplacedOnly(s, o.state, a, o.reply.value);
    } else {
      UnchangedOnly(s, a);
    }
  }

  lemma UnchangedOnly(s: RunState, a: Name)
    ensures OnlyAttempt(s, s, a)
  {
  }

  lemma MarkedOnly(s: RunState, u: RunState, a: Name)
    requires OnlyAttempt(s, u, a)
    ensures OnlyAttempt(s, MarkRunning(u), a) && MarkRunning(u).attemptsById == u.attemptsById
  {
    hide OnlyAttempt;
    SameDictionaries(s, u, MarkRunning(u), a);
  }

  lemma SameDictionaries(s: RunState, u: RunState, v: RunState, a: Name)
    requires OnlyAttempt(s, u, a)
    requires v.tasksById == u.tasksById && v.attemptsById == u.attemptsById && v.attemptsByTask == u.attemptsByTask
    ensures OnlyAttempt(s, v, a)
  {
    forall t ensures AttemptList(v, t) == AttemptList(u, t) {
    }
    assert forall t :: AttemptOf(v, a, t) == AttemptOf(u, a, t);
  }

  lemma DispatchOnly(s: RunState, a: Name)
    ensures OnlyAttempt(s, DispatchAttempt(s, a).state, a)
    ensures DispatchAttempt(s, a).state.attemptsById.Keys == s.attemptsById.Keys
  {
    hide MoveAttempt, OnlyAttempt, MarkRunning;
    MoveOnly(s, a, DISPATCHING);
    MarkedOnly(s, MoveAttempt(s, a, DISPATCHING).state, a);
  }

  lemma StartOnly(s: RunState, a: Name)
    ensures OnlyAttempt(s, StartAttempt(s, a).state, a)
    ensures StartAttempt(s, a).state.attemptsById.Keys == s.attemptsById.Keys
  {
    hide AllowedAttempt, OnlyAttempt, MarkRunning;
    var o := StartAttempt(s, a);
    if o.reply.Ok? {
      var u := s.(attemptsById := s.attemptsById[a := o.reply.value]);
      ReplacedOnly(s, u, a, o.reply.value);
      MarkedOnly(s, u, a);
    } else {
      UnchangedOnly(s, a);
    }
  }

  lemma RecordedNew(s: RunState, a: Attempt)
    requires a.id !in s.attemptsById
    ensures OnlyAttempt(s, RecordAttempt(s, a), a.id)
    ensures a.id in RecordAttempt(s, a).attemptsById && RecordAttempt(s, a).attemptsById[a.id] == a
  {
    var u := RecordAttempt(s, a);
    forall t | !AttemptOf(u, a.id, t) ensures AttemptList(u, t) == AttemptList(s, t) {
      assert t != a.taskId;
    }
  }

  lemma OpenOnly(s: RunState, ref: Name, freshId: Name, leaseKey: Option<Name>, payload: string)
    requires freshId !in s.attemptsById
    ensures var u := OpenAttempt(s, ref, freshId, leaseKey, payload).state;
            && OnlyAttempt(s, u, freshId)
            && (freshId in u.attemptsById ==> Lookup(s, ref) == Ok(u.attemptsById[freshId].taskId) && u.attemptsById[freshId].state == QUEUED)
  {
    hide Lookup, LatestActive, OnlyAttempt, RecordAttempt;
    var o := OpenAttempt(s, ref, freshId, leaseKey, payload);
    if o.reply.Ok? {
      RecordedNew(s, o.reply.value);
    } else {
      UnchangedOnly(s, freshId);
    }
  }

  lemma RecordOnly(s: RunState, a: Attempt)
    requires Inv(s) && Legal(s, Record(a))
    ensures OnlyAttempt(s, RecordAttempt(s, a), a.id) && RecordAttempt(s, a).attemptsById.Keys == s.attemptsById.Keys
    ensures a.id in s.attemptsById && s.attemptsById[a.id].taskId == a.taskId && s.attemptsById[a.id].state == a.state
  {
    hide Inv;
    RecordInv(s, a);
  }

  lemma AboutAttemptOnly(s: RunState, op: Op)
    requires Inv(s) && Legal(s, op) && AboutAttempt(op)
    ensures OnlyAttempt(s, Apply(s, op), Subject(op))
    ensures !op.OpenOp? ==> Apply(s, op).attemptsById.Keys == s.attemptsById.Keys
  {
    hide Inv, RecordAttempt, OpenAttempt, MoveAttempt, StartAttempt, DispatchAttempt, OnlyAttempt, SameAttempt;
    match op
    case OpenOp(ref, freshId, leaseKey, payload) => OpenOnly(s, ref, freshId, leaseKey, payload);
    case Record(a) => RecordOnly(s, a);
    case Dispatch(a) => DispatchOnly(s, a);
    case Start(a) => StartOnly(s, a);
    case Move(a, to) => MoveOnly(s, a, to);
  }

  /** A call about an attempt of another task leaves this one's attempts alone. */
  lemma AttemptApart(s: RunState, op: Op, id: Name)
    requires Inv(s) && Legal(s, op) && AboutAttempt(op) && Apart(s, op, id) && id in s.tasksById
    ensures Unmoved(s, Apply(s, op), id)
  {
    hide Inv, Apply, Lookup, SameAttempt;
    AboutAttemptOnly(s, op);
    var u := Apply(s, op);
    if op.OpenOp? {
      OpenOnly(s, op.ref, op.freshId, op.leaseKey, op.payload);
      OpenApply(s, op);
    } else if op.Record? {
      RecordOnly(s, op.attempt);
    }
    assert !AttemptOf(s, Subject(op), id) && !AttemptOf(u, Subject(op), id);
  }

  lemma OpenApply(s: RunState, op: Op)
    requires op.OpenOp?
    ensures Apply(s, op) == OpenAttempt(s, op.ref, op.freshId, op.leaseKey, op.payload).state
  {
  }

  lemma PromoteApart(s: RunState, id: Name)
    requires id in s.tasksById && !Unstarted(s.tasksById[id].state)
    ensures Unmoved(s, Promote(s), id)
  {
  }

  lemma AppendApart(s: RunState, tasks: seq<Task>, edges: seq<Edge>, id: Name)
    requires Inv(s) && CleanBatch(s, tasks, edges) && id in s.tasksById
    ensures Unmoved(s, AddDynamicTasks(s, tasks, edges).state, id)
  {
    hide Inv, CleanBatch, Appendable;
    if tasks != [] && Appendable(s, tasks, edges) {
      AppendedTask(s, tasks, edges, id);
    }
  }

  /** Independence: a call that names neither a started task nor an attempt or request of it
      leaves the task, its attempts and their order exactly as they were. */
  lemma StepApart(s: RunState, op: Op, id: Name)
    requires Inv(s) && Legal(s, op) && Apart(s, op, id)
    requires id in s.tasksById && !Unstarted(s.tasksById[id].state)
    ensures Unmoved(s, Apply(s, op), id)
  {
    hide Inv, Legal, AddDynamicTasks, Promote, RecordAttempt, OpenAttempt, MoveAttempt, StartAttempt, DispatchAttempt, StartTask, FailTask, UnblockTask, BlockTask, CompleteTask, RequestClarification, AnswerHumanRequest, RequestApproval, ResolveApproval, SetTask;
    if AboutTask(op) {
      AboutTaskOnly(s, op);
    } else if AboutAttempt(op) {
      AttemptApart(s, op, id);
    } else if op.PromoteReady? {
      PromoteApart(s, id);
    } else {
      LegalBatch(s, op);
      AppendApart(s, op.tasks, op.edges, id);
    }
  }

  lemma LegalBatch(s: RunState, op: Op)
    requires op.AddDynamic? && Legal(s, op)
    ensures CleanBatch(s, op.tasks, op.edges)
  {
  }

  ghost predicate ApartRun(s: RunState, ops: seq<Op>, id: Name)
    decreases |ops|
  {
    ops == [] || (Apart(s, ops[0], id) && ApartRun(Apply(s, ops[0]), ops[1..], id))
  }

  lemma {:induction false} RunApart(s: RunState, ops: seq<Op>, id: Name)
    requires Inv(s) && LegalRun(s, ops) && ApartRun(s, ops, id)
    requires id in s.tasksById && !Unstarted(s.tasksById[id].state)
    ensures Unmoved(s, RunHistory.Run(s, ops), id)
    decreases |ops|
  {
    hide Inv, Legal, Apart, Apply;
    if ops != [] {
      StepInv(s, ops[0]);
      StepApart(s, ops[0], id);
      RunApart(Apply(s, ops[0]), ops[1..], id);
      UnmovedTrans(s, Apply(s, ops[0]), RunHistory.Run(s, ops), id);
    }
  }

  lemma UnmovedTrans(s: RunState, m: RunState, u: RunState, id: Name)
    requires Unmoved(s, m, id) && Unmoved(m, u, id)
    ensures Unmoved(s, u, id)
  {
  }

  // ---------------------------------------------------------------- attempts in flight

  /** No attempt of the task is in flight. */
  ghost predicate Idle(s: RunState, id: Name) {
    forall a | AttemptOf(s, a, id) :: !InFlight(s.attemptsById[a].state)
  }

  /** Every attempt in flight has its task IN_PROGRESS. */
  ghost predicate Grounded(s: RunState) {
    forall a | a in s.attemptsById && InFlight(s.attemptsById[a].state) :: TaskIs(s, s.attemptsById[a].taskId, IN_PROGRESS)
  }

  /** The order in which the runtime makes its calls: an attempt goes into flight only under a task
      IN_PROGRESS, and a task leaves IN_PROGRESS only when none of its attempts is in flight. */
  ghost predicate InOrder(s: RunState, op: Op) {
    match op
    case UpdateTask(t) => TaskIs(s, t.id, IN_PROGRESS) && t.state != IN_PROGRESS ==> Idle(s, t.id)
    case Dispatch(a) => a in s.attemptsById ==> TaskIs(s, s.attemptsById[a].taskId, IN_PROGRESS)
    case Start(a) => a in s.attemptsById ==> TaskIs(s, s.attemptsById[a].taskId, IN_PROGRESS)
    case Move(a, to) => a in s.attemptsById && InFlight(to) ==> TaskIs(s, s.attemptsById[a].taskId, IN_PROGRESS)
    case FailTaskOp(ref, _) => Lookup(s, ref).Ok? ==> Idle(s, Lookup(s, ref).value)
    case Block(ref, _) => Lookup(s, ref).Ok? ==> Idle(s, Lookup(s, ref).value)
    case Complete(ref) => Lookup(s, ref).Ok? ==> Idle(s, Lookup(s, ref).value)
    case AskHuman(ref, _, _, _, _) => Lookup(s, ref).Ok? ==> Idle(s, Lookup(s, ref).value)
    case AskApproval(ref, _, _, _, _) => Lookup(s, ref).Ok? ==> Idle(s, Lookup(s, ref).value)
    case _ => true
  }

  /** A changed task is still IN_PROGRESS, or had no attempt in flight. */
  lemma GroundedByTask(s: RunState, u: RunState, x: Name)
    requires Grounded(s) && OnlyTask(s, u, x) && x in u.tasksById
    requires TaskIs(s, x, IN_PROGRESS) ==> TaskIs(u, x, IN_PROGRESS) || Idle(s, x)
    ensures Grounded(u)
  {
    forall a | a in u.attemptsById && InFlight(u.attemptsById[a].state) ensures TaskIs(u, u.attemptsById[a].taskId, IN_PROGRESS) {
      assert TaskIs(s, s.attemptsById[a].taskId, IN_PROGRESS);
      assert AttemptOf(s, a, s.attemptsById[a].taskId);
    }
  }

  lemma GroundedByAttempt(s: RunState, u: RunState, a: Name)
    requires Grounded(s) && OnlyAttempt(s, u, a)
    requires a in u.attemptsById && InFlight(u.attemptsById[a].state) ==> TaskIs(s, u.attemptsById[a].taskId, IN_PROGRESS)
    ensures Grounded(u)
  {
  }

  lemma UnblockKeepsProgress(s: RunState, ref: Name)
    requires Lookup(s, ref).Ok? && TaskIs(s, Lookup(s, ref).value, IN_PROGRESS)
    ensures UnblockTask(s, ref).state == s
  {
  }

  lemma TaskStepGrounded(s: RunState, op: Op)
    requires Inv(s) && Grounded(s) && Legal(s, op) && InOrder(s, op) && AboutTask(op)
    ensures Grounded(Apply(s, op))
  {
    hide Inv, Grounded, Idle, Lookup, Permitted, StartTask, FailTask, UnblockTask, BlockTask, CompleteTask, RequestClarification, AnswerHumanRequest, RequestApproval, ResolveApproval, SetTask;
    AboutTaskOnly(s, op);
    if Target(s, op).Ok? {
      var x, u := Target(s, op).value, Apply(s, op);
      TargetKnown(s, op);
      if op.UpdateTask? {
        SetTaskState(s, op.task);
      } else if op.StartTaskOp? {
        StartTaskOnly(s, op.ref);
      } else if op.Unblock? {
        if TaskIs(s, x, IN_PROGRESS) {
          UnblockKeepsProgress(s, op.ref);
        }
      } else if op.AnswerHuman? || op.Resolve? {
        SettleOnly(s, op);
      }
      GroundedByTask(s, u, x);
    }
  }

  lemma SetTaskState(s: RunState, t: Task)
    ensures TaskIs(SetTask(s, t), t.id, t.state)
  {
    hide Refresh;
  }

  lemma TargetKnown(s: RunState, op: Op)
    requires AboutTask(op) && Legal(s, op) && Target(s, op).Ok?
    ensures Target(s, op).value in s.tasksById
  {
  }

  lemma AttemptStepGrounded(s: RunState, op: Op)
    requires Inv(s) && Grounded(s) && Legal(s, op) && InOrder(s, op) && AboutAttempt(op)
    ensures Grounded(Apply(s, op))
  {
    hide Inv, Apply, Grounded, OnlyAttempt, SameAttempt;
    AboutAttemptOnly(s, op);
    GoesInFlight(s, op);
    GroundedByAttempt(s, Apply(s, op), Subject(op));
  }

  lemma GoesInFlight(s: RunState, op: Op)
    requires Inv(s) && Grounded(s) && Legal(s, op) && InOrder(s, op) && AboutAttempt(op)
    ensures var a, u := Subject(op), Apply(s, op);
            a in u.attemptsById && InFlight(u.attemptsById[a].state) ==> TaskIs(s, u.attemptsById[a].taskId, IN_PROGRESS)
  {
    hide Inv, AllowedAttempt, Lookup, LatestActive;
    AboutAttemptOnly(s, op);
    if op.Record? {
      RecordOnly(s, op.attempt);
    }
  }

  lemma PromoteGrounded(s: RunState)
    requires Grounded(s)
    ensures Grounded(Promote(s))
  {
  }

  lemma AppendGrounded(s: RunState, tasks: seq<Task>, edges: seq<Edge>)
    requires Inv(s) && Grounded(s) && CleanBatch(s, tasks, edges)
    ensures Grounded(AddDynamicTasks(s, tasks, edges).state)
  {
    hide Inv, CleanBatch, Appendable, Appended;
    if tasks != [] && Appendable(s, tasks, edges) {
      var u := Appended(s, tasks, edges);
      AppendedAttempts(s, tasks, edges);
      forall a | a in u.attemptsById && InFlight(u.attemptsById[a].state) ensures TaskIs(u, u.attemptsById[a].taskId, IN_PROGRESS) {
        assert TaskIs(s, s.attemptsById[a].taskId, IN_PROGRESS);
        AppendedTask(s, tasks, edges, s.attemptsById[a].taskId);
      }
    }
  }

  lemma AppendedAttempts(s: RunState, tasks: seq<Task>, edges: seq<Edge>)
    ensures Appended(s, tasks, edges).attemptsById == s.attemptsById
  {
  }

  /** Calls made in the runtime's order keep every attempt in flight under a task IN_PROGRESS. */
  lemma StepGrounded(s: RunState, op: Op)
    requires Inv(s) && Grounded(s) && Legal(s, op) && InOrder(s, op)
    ensures Grounded(Apply(s, op))
  {
    hide Inv, Grounded, Legal, InOrder, AddDynamicTasks, Promote, RecordAttempt, OpenAttempt, MoveAttempt, StartAttempt, DispatchAttempt, StartTask, FailTask, UnblockTask, BlockTask, CompleteTask, RequestClarification, AnswerHumanRequest, RequestApproval, ResolveApproval, SetTask;
    if AboutTask(op) {
      TaskStepGrounded(s, op);
    } else if AboutAttempt(op) {
      AttemptStepGrounded(s, op);
    } else if op.PromoteReady? {
      PromoteGrounded(s);
    } else {
      LegalBatch(s, op);
      AppendGrounded(s, op.tasks, op.edges);
    }
  }

  ghost predicate InOrderRun(s: RunState, ops: seq<Op>)
    decreases |ops|
  {
    ops == [] || (InOrder(s, ops[0]) && InOrderRun(Apply(s, ops[0]), ops[1..]))
  }

  /** Hence at every moment of such a run, between any two calls. */
  lemma {:induction false} AlwaysGrounded(s: RunState, ops: seq<Op>, k: nat)
    requires Inv(s) && Grounded(s) && LegalRun(s, ops) && InOrderRun(s, ops) && k <= |ops|
    ensures Inv(RunHistory.Run(s, ops[..k])) && Grounded(RunHistory.Run(s, ops[..k]))
    decreases |ops|
  {
    hide Inv, Grounded, Legal, InOrder, Apply;
    if k > 0 {
      StepInv(s, ops[0]);
      StepGrounded(s, ops[0]);
      AlwaysGrounded(Apply(s, ops[0]), ops[1..], k - 1);
      assert ops[..k][1..] == ops[1..][..k - 1];
    }
  }

  lemma FreshGrounded(g: Graph)
    ensures Grounded(FromGraph(g))
  {
  }

  // ---------------------------------------------------------------- the calls made so far

  /** `ops` are calls made in the runtime's order, and lead from `s` to `u`. */
  ghost predicate Traced(s: RunState, ops: seq<Op>, u: RunState) {
    LegalRun(s, ops) && InOrderRun(s, ops) && RunHistory.Run(s, ops) == u
  }

  ghost predicate Leads(s: RunState, u: RunState) {
    exists ops :: Traced(s, ops, u)
  }

  lemma {:induction false} RunConcat(s: RunState, a: seq<Op>, b: seq<Op>)
    requires LegalRun(s, a) && InOrderRun(s, a) && LegalRun(RunHistory.Run(s, a), b) && InOrderRun(RunHistory.Run(s, a), b)
    ensures Traced(s, a + b, RunHistory.Run(RunHistory.Run(s, a), b))
    decreases |a|
  {
    hide Legal, InOrder, Apply;
    if a == [] {
      assert a + b == b;
    } else {
      RunConcat(Apply(s, a[0]), a[1..], b);
      assert (a + b)[1..] == a[1..] + b;
    }
  }

  lemma LeadsRefl(s: RunState)
    ensures Leads(s, s)
  {
    assert Traced(s, [], s);
  }

  lemma LeadsTrans(s: RunState, m: RunState, u: RunState)
    requires Leads(s, m) && Leads(m, u)
    ensures Leads(s, u)
  {
    var a :| Traced(s, a, m);
    var b :| Traced(m, b, u);
    RunConcat(s, a, b);
  }

  lemma TracedOne(m: RunState, op: Op)
    requires Legal(m, op) && InOrder(m, op)
    ensures Traced(m, [op], Apply(m, op))
  {
    hide Legal, InOrder, Apply;
    var u := Apply(m, op);
    assert [op][1..] == [];
    assert LegalRun(u, []) && InOrderRun(u, []) && RunHistory.Run(u, []) == u;
    assert LegalRun(m, [op]) && InOrderRun(m, [op]) && RunHistory.Run(m, [op]) == u;
  }

  lemma LeadsOne(s: RunState, m: RunState, op: Op)
    requires Leads(s, m) && Legal(m, op) && InOrder(m, op)
    ensures Leads(s, Apply(m, op))
  {
    hide Legal, InOrder, Apply;
    TracedOne(m, op);
    LeadsTrans(s, m, Apply(m, op));
  }

  /** At every moment of these calls the invariant holds and every attempt in flight is grounded. */
  ghost predicate GroundedAlong(s: RunState, ops: seq<Op>) {
    forall k: nat | k <= |ops| :: Inv(RunHistory.Run(s, ops[..k])) && Grounded(RunHistory.Run(s, ops[..k]))
  }

  lemma LeadsThroughGrounded(s: RunState, u: RunState)
    requires Inv(s) && Grounded(s) && Leads(s, u)
    ensures exists ops :: Traced(s, ops, u) && GroundedAlong(s, ops)
  {
    hide Inv, Grounded, LegalRun, InOrderRun, RunHistory.Run;
    var ops :| Traced(s, ops, u);
    forall k: nat | k <= |ops| ensures Inv(RunHistory.Run(s, ops[..k])) && Grounded(RunHistory.Run(s, ops[..k])) {
      AlwaysGrounded(s, ops, k);
    }
    assert GroundedAlong(s, ops);
  }

  /** Whatever such calls lead to is a state of the invariant with every attempt in flight under a
      task IN_PROGRESS, and extends the state they began in. */
  lemma LeadsKeeps(s: RunState, u: RunState)
    requires Inv(s) && Leads(s, u)
    ensures Inv(u) && Grows(s, u)
    ensures Grounded(s) ==> Grounded(u)
  {
    hide Inv, Grounded, Grows;
    var ops :| Traced(s, ops, u);
    RunInv(s, ops);
    RunGrows(s, ops);
    if Grounded(s) {
      AlwaysGrounded(s, ops, |ops|);
      assert ops[..|ops|] == ops;
    }
  }
}
