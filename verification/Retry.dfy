/** One task's run through its attempts (local_runtime.py): `_run_task`, its retry recursion and the
    event loop, with other threads' calls on the same run between any two steps.  What the worker
    streams and what the other threads do is arbitrary. */
module Retry {
  import opened Names
  import opened Wrappers
  import opened Sequences
  import opened Records
  import opened RunModel
  import opened RunInvariant
  import opened RunHistory
  import opened WorkflowRun
  import opened Orchestration
  import opened Protocol
  import opened Stream

  /** How one attempt goes: where it ends before the worker streams, or what the worker streams. */
  datatype Course =
    | NotDispatched | NeedsApprovalFirst | DuplicateDispatch | LeaseUnavailable | BootstrapFailed
    | Streamed(events: seq<StreamEvent>)

  /** The task and attempt states in which an effect leaves them. */
  function Settled(effect: Effect): (TaskState, AttemptState) {
    match effect
    case AsksHuman => (WAITING_FOR_HUMAN, NEEDS_INPUT)
    case ReusesAnswer => (READY, ABORTED)
    case LoopsOnAnswer => (FAILED, ABORTED)
    case AsksApproval => (WAITING_FOR_APPROVAL, PAUSED)
    case Succeeds => (COMPLETED, SUCCEEDED)
    case Recovers => (BLOCKED, ORPHANED)
    case Fails => (FAILED, ERRORED)
    case Nothing => (IN_PROGRESS, RUNNING)
  }

  function Ending(c: Course): (TaskState, AttemptState) {
    match c
    case NotDispatched => (READY, QUEUED)
    case NeedsApprovalFirst => (WAITING_FOR_APPROVAL, QUEUED)
    case DuplicateDispatch => (READY, ABORTED)
    case LeaseUnavailable => (BLOCKED, ABORTED)
    case BootstrapFailed => (FAILED, ERRORED)
    case Streamed(events) => Settled(Verdict(events))
  }

  /** Where one event alone leaves task and attempt, for each pair of states exactly which events. */
  lemma DecisionTable(e: StreamEvent)
    ensures var end := Ending(Streamed([e]));
            var plain := !AsksForHuman(e) && !e.approvalRequired && !SaysSuccess(e) && !CompletesByType(e);
            && (end == (WAITING_FOR_HUMAN, NEEDS_INPUT) <==> AsksForHuman(e) && !e.answered)
            && (end == (READY, ABORTED) <==> AsksForHuman(e) && e.answered && !e.exhausted)
            && (end == (FAILED, ABORTED) <==> AsksForHuman(e) && e.answered && e.exhausted)
            && (end == (WAITING_FOR_APPROVAL, PAUSED) <==> !AsksForHuman(e) && e.approvalRequired)
            && (end == (COMPLETED, SUCCEEDED) <==>
                  !AsksForHuman(e) && !e.approvalRequired && (SaysSuccess(e) || CompletesByType(e)))
            && (end == (BLOCKED, ORPHANED) <==> plain && (SaysStalled(e) || (SaysFailure(e) && e.emptyLoop)))
            && (end == (FAILED, ERRORED) <==> plain && SaysFailure(e) && !e.emptyLoop)
            && (end == (IN_PROGRESS, RUNNING) <==> plain && !SaysStalled(e) && !SaysFailure(e))
  {
    hide Says, Lower, SaysSuccess, SaysStalled, SaysFailure, Silent;
    WordsIff(e);
    KindsDisjoint(e);
    assert Verdict([e]) == EffectOf(e);
  }

  ghost predicate Undecided(e: StreamEvent) {
    Ending(Streamed([e])) == (IN_PROGRESS, RUNNING)
  }

  lemma UndecidedEvent(e: StreamEvent)
    ensures Ending(Streamed([e])) == Settled(EffectOf(e))
    ensures Undecided(e) <==> !Decides(e)
  {
    assert Verdict([e]) == EffectOf(e);
  }

  ghost predicate FirstToDecide(events: seq<StreamEvent>, i: nat) {
    Reached(events, i) && !Undecided(events[i]) && forall k | 0 <= k < i :: Undecided(events[k])
  }

  /** A stream ends as the first event that decides, of those the loop gets to, would alone; without
      one the worker is left running. */
  lemma StreamEnding(events: seq<StreamEvent>)
    ensures forall i: nat | FirstToDecide(events, i) :: Ending(Streamed(events)) == Ending(Streamed([events[i]]))
    ensures (forall i: nat :: !FirstToDecide(events, i)) ==> Ending(Streamed(events)) == (IN_PROGRESS, RUNNING)
  {
    hide Stops, EffectOf, Ending;
    forall e ensures Undecided(e) <==> !Decides(e) {
      UndecidedEvent(e);
    }
    forall i: nat | FirstToDecide(events, i) ensures Ending(Streamed(events)) == Ending(Streamed([events[i]])) {
      VerdictAt(events, i);
      UndecidedEvent(events[i]);
      EndingOfStream(events);
    }
    if Verdict(events) != Nothing {
      var i := VerdictIndex(events);
      assert FirstToDecide(events, i);
    } else {
      EndingOfStream(events);
    }
  }

  lemma EndingOfStream(events: seq<StreamEvent>)
    ensures Ending(Streamed(events)) == Settled(Verdict(events))
    ensures Verdict(events) == Nothing ==> Ending(Streamed(events)) == (IN_PROGRESS, RUNNING)
  {
  }

  lemma ReachedUpTo(events: seq<StreamEvent>, i: nat, j: nat)
    requires i < |events| && Stops(events[i]) && Reached(events, j)
    ensures j <= i
  {
    hide Stops;
  }

  /** What follows an event that stops the loop is never looked at. */
  lemma NothingAfterStop(events: seq<StreamEvent>, i: nat)
    requires i < |events| && Stops(events[i])
    ensures Ending(Streamed(events)) == Ending(Streamed(events[..i + 1]))
    ensures Collides(events) <==> Collides(events[..i + 1])
  {
    hide Stops, OpenCompletion, EffectOf, Settled, Collides;
    var front := events[..i + 1];
    forall j: nat ensures Reached(events, j) <==> Reached(front, j) {
      if Reached(events, j) {
        ReachedUpTo(events, i, j);
      }
    }
    if Verdict(events) != Nothing {
      var j := VerdictIndex(events);
      assert Reached(front, j) && front[j] == events[j];
      VerdictAt(front, j);
    } else {
      UndecidedIff(events);
      UndecidedIff(front);
      assert forall j: nat | Reached(front, j) :: Reached(events, j) && front[j] == events[j];
    }
    SameCollisions(events, front);
  }

  lemma SameCollisions(events: seq<StreamEvent>, front: seq<StreamEvent>)
    requires front <= events && forall j: nat :: Reached(events, j) <==> Reached(front, j)
    ensures Collides(events) <==> Collides(front)
  {
    hide Stops, OpenCompletion, EffectOf;
    if Collides(events) {
      var x, y :| 0 <= x < y < |events| && OpenCompletion(events[x]) && Reached(events, y) && Decides(events[y]);
      assert Reached(front, y) && OpenCompletion(front[x]) && Decides(front[y]);
    }
    if Collides(front) {
      var x, y :| 0 <= x < y < |front| && OpenCompletion(front[x]) && Reached(front, y) && Decides(front[y]);
      assert Reached(events, y) && OpenCompletion(events[x]) && Decides(events[y]);
    }
  }

  /** Who can take the task up next, over all ways an attempt goes: the scheduler, a human, an
      operator, or nobody. */
  lemma CourseTable(c: Course)
    ensures var (task, attempt) := Ending(c);
            && (!c.Streamed? ==>
                  && (task == READY <==> c.NotDispatched? || c.DuplicateDispatch?)
                  && (task == WAITING_FOR_APPROVAL <==> c.NeedsApprovalFirst?)
                  && (task == BLOCKED <==> c.LeaseUnavailable?) && (task == FAILED <==> c.BootstrapFailed?)
                  && (attempt == QUEUED <==> c.NotDispatched? || c.NeedsApprovalFirst?)
                  && (attempt == ABORTED <==> c.DuplicateDispatch? || c.LeaseUnavailable?) && (attempt == ERRORED <==> c.BootstrapFailed?))
            && (ActiveState(attempt) <==> attempt == QUEUED || task in {WAITING_FOR_HUMAN, WAITING_FOR_APPROVAL, IN_PROGRESS})
            && (task == COMPLETED <==> attempt == SUCCEEDED)
  {
  }

  /** The attempt was lost to an empty-response loop somewhere in its stream. */
  predicate Retryable(c: Course) {
    c.Streamed? && Verdict(c.events) == Recovers && exists i | 0 <= i < |c.events| :: c.events[i].emptyLoop
  }

  predicate Raises(c: Course) {
    c.Streamed? && Collides(c.events)
  }

  /** The task is in `st`; its newest attempt is `a`, the `n`-th, in `ast`; no other is active. */
  ghost predicate Holding(s: RunState, id: Name, st: TaskState, a: Name, ast: AttemptState, n: nat) {
    && TaskIs(s, id, st) && |AttemptList(s, id)| == n
    && AttemptIn(s, a, {ast}) && s.attemptsById[a].taskId == id && s.attemptsById[a].number == n
    && forall b | b in s.attemptsById && s.attemptsById[b].taskId == id && ActiveState(s.attemptsById[b].state) :: b == a
  }

  /** The task may enter a run: READY, no attempt active, `n` attempts so far. */
  ghost predicate Enterable(s: RunState, id: Name, n: nat) {
    TaskIs(s, id, READY) && LatestActive(s, id) == None && |AttemptList(s, id)| == n
  }

  /** A worker that stalled, or failed for good, is retried only if its stream tells of an
      empty-response loop; a worker lost to one always is. */
  lemma RetryTable(events: seq<StreamEvent>, i: nat)
    requires FirstToDecide(events, i)
    ensures Retryable(Streamed(events)) <==>
              && Ending(Streamed([events[i]])) == (BLOCKED, ORPHANED)
              && exists k :: 0 <= k < |events| && events[k].emptyLoop
  {
    hide Stops, EffectOf;
    UndecidedEvent(events[i]);
    forall k | 0 <= k < i ensures !Decides(events[k]) {
      UndecidedEvent(events[k]);
    }
    VerdictAt(events, i);
  }

  lemma RaisingIsNotRetried(c: Course)
    ensures Raises(c) ==> !Retryable(c)
    ensures Retryable(c) ==> Ending(c) == (BLOCKED, ORPHANED)
  {
    hide Collides, Verdict;
    if Raises(c) {
      CollisionSucceeds(c.events);
    }
  }

  /** A task parked for somebody has an open request that somebody can answer. */
  ghost predicate Answerable(s: RunState, id: Name, st: TaskState) {
    && (st == WAITING_FOR_HUMAN ==> exists r :: OpenClarification(s, r, id))
    && (st == WAITING_FOR_APPROVAL ==> exists r :: r in s.approvalRequests && s.approvalRequests[r].taskId == id && s.approvalRequests[r].status == Requested)
  }

  /** Attempt after attempt from the `n + 1`-st: another is made exactly when the one before was lost
      to an empty-response loop and its number is below the limit. */
  ghost predicate Retried(courses: seq<Course>, dispatch: bool, n: nat, limit: nat) {
    && courses != [] && (forall k | 0 <= k < |courses| :: courses[k].NotDispatched? <==> !dispatch)
    && forall k | 0 <= k < |courses| :: k + 1 < |courses| <==> Retryable(courses[k]) && n + 1 + k < limit
  }

  lemma RetriedOnce(course: Course, dispatch: bool, n: nat, limit: nat)
    requires (course.NotDispatched? <==> !dispatch) && !(Retryable(course) && n + 1 < limit)
    ensures Retried([course], dispatch, n, limit) && [n + 1] == seq(1, k => n + 1 + k)
  {
    hide Retryable;
  }

  lemma RetriedAgain(course: Course, more: seq<Course>, dispatch: bool, n: nat, limit: nat)
    requires (course.NotDispatched? <==> !dispatch) && Retryable(course) && n + 1 < limit && Retried(more, dispatch, n + 1, limit)
    ensures Retried([course] + more, dispatch, n, limit)
    ensures [n + 1] + seq(|more|, k => n + 2 + k) == seq(1 + |more|, k => n + 1 + k)
  {
    hide Retryable;
    var all := [course] + more;
    forall k | 0 <= k < |all| ensures k + 1 < |all| <==> Retryable(all[k]) && n + 1 + k < limit {
      assert k > 0 ==> all[k] == more[k - 1];
    }
  }

  // ---------------------------------------------------------------- the other threads

  /** Calls others may make here: legal, in the runtime's order, and not about this task. */
  ghost predicate Polite(s: RunState, calls: seq<Op>, id: Name) {
    LegalRun(s, calls) && InOrderRun(s, calls) && ApartRun(s, calls, id)
  }

  /** Whatever the others do, at whatever moment and in whatever state, is polite. */
  ghost predicate Considerate(others: (nat, RunState) -> seq<Op>, id: Name) {
    forall k: nat, s: RunState | Inv(s) && id in s.tasksById && !Unstarted(s.tasksById[id].state) :: Polite(s, others(k, s), id)
  }

  lemma HoldingUnmoved(s: RunState, u: RunState, id: Name, st: TaskState, a: Name, ast: AttemptState, n: nat)
    requires Holding(s, id, st, a, ast, n) && Unmoved(s, u, id)
    ensures Holding(u, id, st, a, ast, n)
  {
    hide AttemptList;
    assert AttemptOf(s, a, id);
    forall b | b in u.attemptsById && u.attemptsById[b].taskId == id && ActiveState(u.attemptsById[b].state) ensures b == a {
      assert AttemptOf(u, b, id);
      assert AttemptOf(s, b, id);
    }
  }

  lemma EnterableUnmoved(s: RunState, u: RunState, id: Name, n: nat)
    requires Inv(s) && Inv(u) && Enterable(s, id, n) && Unmoved(s, u, id)
    ensures Enterable(u, id, n)
  {
    hide Inv, AttemptList, LatestActive;
    if LatestActive(u, id).Some? {
      var b := LatestActive(u, id).value;
      LatestActiveIff(u, id, b);
      assert AttemptOf(u, b, id);
      assert AttemptOf(s, b, id);
      LatestActiveIff(s, id, b);
    }
  }

  lemma PoliteLeads(s: RunState, m: RunState, calls: seq<Op>, id: Name)
    requires Inv(m) && Leads(s, m) && Polite(m, calls, id) && id in m.tasksById && !Unstarted(m.tasksById[id].state)
    ensures Leads(s, RunHistory.Run(m, calls)) && Unmoved(m, RunHistory.Run(m, calls), id)
  {
    hide Inv, LegalRun, InOrderRun, ApartRun, RunHistory.Run, Unmoved, Leads;
    RunApart(m, calls, id);
    assert Leads(m, RunHistory.Run(m, calls)) by { TracedLeads(m, calls); }
    LeadsTrans(s, m, RunHistory.Run(m, calls));
  }

  lemma TracedLeads(m: RunState, calls: seq<Op>)
    requires LegalRun(m, calls) && InOrderRun(m, calls)
    ensures Leads(m, RunHistory.Run(m, calls))
  {
    hide LegalRun, InOrderRun, RunHistory.Run;
    assert Traced(m, calls, RunHistory.Run(m, calls));
  }

  // ---------------------------------------------------------------- single steps

  lemma Opened(s: RunState, id: Name, n: nat, freshId: Name, leaseKey: Option<Name>, payload: string)
    requires Inv(s) && Enterable(s, id, n) && freshId !in s.attemptsById
    ensures OpenAttempt(s, id, freshId, leaseKey, payload).reply.Ok?
    ensures Holding(OpenAttempt(s, id, freshId, leaseKey, payload).state, id, READY, freshId, QUEUED, n + 1)
  {
    hide GraphOk, Indexed, Safe, HumanOk, ApprovalsOk, StatusOk;
    LookupId(s, id);
    forall b | b in s.attemptsById && s.attemptsById[b].taskId == id ensures !ActiveState(s.attemptsById[b].state) {
      LatestActiveIff(s, id, b);
    }
    assert forall i: nat | i < |AttemptList(s, id)| :: Slot(s.attemptsById, id, i, AttemptList(s, id)[i]);
  }

  /** Moving the attempt succeeds exactly when the table allows it; either way the task is held. */
  lemma AttemptMoved(s: RunState, id: Name, st: TaskState, a: Name, ast: AttemptState, n: nat, to: AttemptState)
    requires Holding(s, id, st, a, ast, n)
    ensures MoveAttempt(s, a, to).reply.Ok? <==> to in AllowedAttempt(ast)
    ensures Holding(MoveAttempt(s, a, to).state, id, st, a, if to in AllowedAttempt(ast) then to else ast, n)
  {
  }

  lemma Marked(s: RunState, id: Name, st: TaskState, a: Name, ast: AttemptState, n: nat)
    requires Holding(s, id, st, a, ast, n)
    ensures Holding(MarkRunning(s), id, st, a, ast, n)
  {
  }

  /** Storing the task in another state keeps it held. */
  lemma TaskStored(s: RunState, id: Name, st: TaskState, a: Name, ast: AttemptState, n: nat, t: Task)
    requires Holding(s, id, st, a, ast, n) && t.id == id
    ensures Holding(SetTask(s, t), id, t.state, a, ast, n)
  {
  }

  lemma TaskMoved(s: RunState, id: Name, st: TaskState, a: Name, ast: AttemptState, n: nat, to: TaskState, reason: Option<string>)
    requires Inv(s) && Holding(s, id, st, a, ast, n) && to in AllowedTask(st)
    ensures Lookup(s, id) == Ok(id)
    ensures MoveTask(s, id, to, reason).reply.Ok? && Holding(MoveTask(s, id, to, reason).state, id, to, a, ast, n)
  {
    hide GraphOk, Safe, Numbered, OneActive, HumanOk, ApprovalsOk, StatusOk;
    LookupId(s, id);
    var i := TaskAt(s, id);
    var o := MoveTask(s, id, to, reason);
    TaskStored(s, id, st, a, ast, n, o.reply.value);
  }

  /** A record of the newest attempt in the same state takes its place. */
  lemma Recorded(s: RunState, id: Name, st: TaskState, a: Name, ast: AttemptState, n: nat, r: Attempt)
    requires Inv(s) && Holding(s, id, st, a, ast, n) && r.id == a && SameAttempt(s.attemptsById[a], r)
    ensures Holding(RecordAttempt(s, r), id, st, a, ast, n)
  {
    hide Inv;
    RecordInv(s, r);
  }

  /** With the newest attempt out of flight the task has none in flight. */
  lemma HoldingIdle(s: RunState, id: Name, st: TaskState, a: Name, ast: AttemptState, n: nat)
    requires Inv(s) && Holding(s, id, st, a, ast, n) && !InFlight(ast)
    ensures Lookup(s, id) == Ok(id) && Idle(s, id)
  {
    hide Inv;
    LookupId(s, id);
  }

  lemma HoldingKnown(s: RunState, id: Name, st: TaskState, a: Name, ast: AttemptState, n: nat)
    requires Inv(s) && Holding(s, id, st, a, ast, n)
    ensures id in s.tasksById && s.tasksById[id].id == id && s.tasksById[id].state == st && Lookup(s, id) == Ok(id)
    ensures a in s.attemptsById && s.attemptsById[a].id == a && s.attemptsById[a].number == n
    ensures s.attemptsById[a].taskId == id && s.attemptsById[a].state == ast
  {
    hide GraphOk, Safe, OneActive, HumanOk, ApprovalsOk, StatusOk;
    LookupId(s, id);
    var i := TaskAt(s, id);
    AttemptKnows(s, a);
  }

  lemma SettledEnterable(s: RunState, id: Name, a: Name, n: nat)
    requires Inv(s) && Holding(s, id, READY, a, ORPHANED, n)
    ensures Enterable(s, id, n)
  {
    hide GraphOk, Indexed, Safe, Numbered, OneActive, HumanOk, ApprovalsOk, RequestsOwned, StatusOk, LatestActive;
    if LatestActive(s, id).Some? {
      LatestActiveIff(s, id, LatestActive(s, id).value);
    }
  }

  lemma Started(s: RunState, id: Name, a: Name, n: nat)
    requires Inv(s) && Holding(s, id, READY, a, QUEUED, n)
    ensures StartTask(s, id).reply.Ok? && Holding(StartTask(s, id).state, id, IN_PROGRESS, a, QUEUED, n)
  {
    hide GraphOk, Indexed, Numbered, OneActive, HumanOk, ApprovalsOk, StatusOk, Holding, SetTask, MarkRunning;
    HoldingKnown(s, id, READY, a, QUEUED, n);
    Marked(s, id, READY, a, QUEUED, n);
    TaskStored(MarkRunning(s), id, READY, a, QUEUED, n, s.tasksById[id].(state := IN_PROGRESS, blockReason := None));
  }

  lemma Dispatched(s: RunState, id: Name, a: Name, n: nat)
    requires Holding(s, id, IN_PROGRESS, a, QUEUED, n)
    ensures InOrder(s, Dispatch(a))
    ensures DispatchAttempt(s, a).reply.Ok? && Holding(DispatchAttempt(s, a).state, id, IN_PROGRESS, a, DISPATCHING, n)
  {
    hide MoveAttempt, MarkRunning;
    AttemptMoved(s, id, IN_PROGRESS, a, QUEUED, n, DISPATCHING);
    Marked(MoveAttempt(s, a, DISPATCHING).state, id, IN_PROGRESS, a, DISPATCHING, n);
  }

  lemma Running(s: RunState, id: Name, a: Name, n: nat)
    requires Holding(s, id, IN_PROGRESS, a, DISPATCHING, n)
    ensures InOrder(s, Start(a))
    ensures StartAttempt(s, a).reply.Ok? && Holding(StartAttempt(s, a).state, id, IN_PROGRESS, a, RUNNING, n)
  {
    hide MarkRunning;
    AttemptMoved(s, id, IN_PROGRESS, a, DISPATCHING, n, RUNNING);
    Marked(MoveAttempt(s, a, RUNNING).state, id, IN_PROGRESS, a, RUNNING, n);
  }

  lemma Stopped(s: RunState, id: Name, st: TaskState, a: Name, ast: AttemptState, n: nat, to: TaskState, reason: string)
    requires Inv(s) && Holding(s, id, st, a, ast, n) && to in {BLOCKED, FAILED} && (st == READY || st == IN_PROGRESS)
    ensures to == BLOCKED ==> BlockTask(s, id, reason).reply.Ok? && Holding(BlockTask(s, id, reason).state, id, to, a, ast, n)
    ensures to == FAILED ==> FailTask(s, id, reason).reply.Ok? && Holding(FailTask(s, id, reason).state, id, to, a, ast, n)
  {
    hide Inv, MoveTask;
    TaskMoved(s, id, st, a, ast, n, to, Some(reason));
  }

  lemma Unblocked(s: RunState, id: Name, a: Name, ast: AttemptState, n: nat)
    requires Inv(s) && Holding(s, id, BLOCKED, a, ast, n)
    ensures UnblockTask(s, id).reply.Ok? && Holding(UnblockTask(s, id).state, id, READY, a, ast, n)
  {
    hide Inv, MoveTask;
    TaskMoved(s, id, BLOCKED, a, ast, n, READY, None);
  }

  lemma HumanAsked(s: RunState, id: Name, st: TaskState, a: Name, ast: AttemptState, n: nat, question: string, context: string, freshId: Name)
    requires Inv(s) && Holding(s, id, st, a, ast, n) && (st == READY || st == IN_PROGRESS) && freshId !in s.humanRequests
    ensures Inv(RequestClarification(s, id, a, question, context, freshId).state)
    ensures Answerable(RequestClarification(s, id, a, question, context, freshId).state, id, WAITING_FOR_HUMAN)
    ensures Holding(RequestClarification(s, id, a, question, context, freshId).state, id, WAITING_FOR_HUMAN, a, ast, n)
  {
    hide Inv, ClarificationToStore, MoveTask;
    LookupId(s, id);
    var q := ClarificationToStore(s, id, a, question, context, freshId);
    ClarificationStored(s, id, a, question, context, freshId);
    ClarificationInv(s, id, a, question, context, freshId);
    TaskMoved(StoreHuman(s, q), id, st, a, ast, n, WAITING_FOR_HUMAN, None);
    ClarificationStays(s, id, a, question, context, freshId);
  }

  lemma ClarificationStays(s: RunState, id: Name, a: Name, question: string, context: string, freshId: Name)
    requires Lookup(s, id) == Ok(id) && Inv(s)
    ensures Answerable(RequestClarification(s, id, a, question, context, freshId).state, id, WAITING_FOR_HUMAN)
  {
    hide GraphOk, Indexed, Safe, Numbered, OneActive, ApprovalsOk, RequestsOwned, StatusOk;
    var q := ClarificationToStore(s, id, a, question, context, freshId);
    assert OpenClarification(StoreHuman(s, q), q.id, id);
    assert OpenClarification(RequestClarification(s, id, a, question, context, freshId).state, q.id, id);
  }

  lemma ApprovalStays(s: RunState, id: Name, a: Name, kind: string, reason: string, freshId: Name)
    requires Lookup(s, id) == Ok(id) && Inv(s)
    ensures Answerable(RequestApproval(s, id, a, kind, reason, freshId).state, id, WAITING_FOR_APPROVAL)
  {
    hide GraphOk, Indexed, Safe, Numbered, OneActive, HumanOk, RequestsOwned, StatusOk;
    var q := ApprovalToStore(s, id, a, kind, reason, freshId);
    assert OpenApproval(StoreApproval(s, q), q.id, id, kind);
    assert OpenApproval(RequestApproval(s, id, a, kind, reason, freshId).state, q.id, id, kind);
  }

  lemma ApprovalAsked(s: RunState, id: Name, st: TaskState, a: Name, ast: AttemptState, n: nat, kind: string, reason: string, freshId: Name)
    requires Inv(s) && Holding(s, id, st, a, ast, n) && (st == READY || st == IN_PROGRESS) && freshId !in s.approvalRequests
    ensures Inv(RequestApproval(s, id, a, kind, reason, freshId).state)
    ensures Answerable(RequestApproval(s, id, a, kind, reason, freshId).state, id, WAITING_FOR_APPROVAL)
    ensures Holding(RequestApproval(s, id, a, kind, reason, freshId).state, id, WAITING_FOR_APPROVAL, a, ast, n)
  {
    hide Inv, ApprovalToStore, MoveTask;
    LookupId(s, id);
    var q := ApprovalToStore(s, id, a, kind, reason, freshId);
    ApprovalStored(s, id, a, kind, reason, freshId);
    ApprovalInv(s, id, a, kind, reason, freshId);
    TaskMoved(StoreApproval(s, q), id, st, a, ast, n, WAITING_FOR_APPROVAL, None);
    ApprovalStays(s, id, a, kind, reason, freshId);
  }

  /** Success is recorded once; a second time it raises at the attempt and changes nothing. */
  lemma Completed(s: RunState, id: Name, st: TaskState, a: Name, ast: AttemptState, n: nat)
    requires Inv(s) && Holding(s, id, st, a, ast, n) && (st, ast) in {(IN_PROGRESS, RUNNING), (COMPLETED, SUCCEEDED)}
    ensures FinalizeSuccess(s, id, a).reply.Ok? <==> ast == RUNNING
    ensures Holding(FinalizeSuccess(s, id, a).state, id, COMPLETED, a, SUCCEEDED, n)
  {
    hide Inv, FinalizeSuccess;
    HoldingKnown(s, id, st, a, ast, n);
    FinalizeSuccessIff(s, id, a);
    FinalizeSuccessShape(s, id, a);
    FinalizeSuccessLists(s, id, a);
  }

  lemma FinalizeSuccessLists(s: RunState, id: Name, a: Name)
    ensures FinalizeSuccess(s, id, a).state.attemptsByTask == s.attemptsByTask
    ensures !AttemptIn(s, a, {RUNNING}) ==> FinalizeSuccess(s, id, a).state == s
  {
    hide Lookup, Done, AllCompleted, Refresh;
  }

  lemma SuccessLeads(origin: RunState, s: RunState, id: Name, st: TaskState, a: Name, ast: AttemptState, n: nat)
    requires Inv(s) && Leads(origin, s) && Holding(s, id, st, a, ast, n) && (ast == RUNNING || ast == SUCCEEDED)
    ensures Leads(origin, FinalizeSuccess(s, id, a).state)
  {
    hide Inv, Leads, RunModel.MoveAttempt, CompleteTask, Holding;
    AttemptMoved(s, id, st, a, ast, n, SUCCEEDED);
    MoveAttemptInv(s, a, SUCCEEDED);
    LeadsOne(origin, s, Move(a, SUCCEEDED));
    var m := MoveAttempt(s, a, SUCCEEDED).state;
    HoldingIdle(m, id, st, a, SUCCEEDED, n);
    LeadsOne(origin, m, Complete(id));
  }

  // ---------------------------------------------------------------- reading a stream

  /** The first `m` events have been read; `settled` is what they decided, at event `at`. */
  ghost predicate Read(events: seq<StreamEvent>, m: nat, settled: Effect, at: nat) {
    && m <= |events| && (forall k | 0 <= k < m - 1 :: !Stops(events[k]))
    && (settled != Nothing ==> at < m && Decides(events[at]) && EffectOf(events[at]) == settled)
    && forall k | 0 <= k < m && Decides(events[k]) :: settled != Nothing && k == at
  }

  /** They have been read without the loop ending. */
  ghost predicate Reading(events: seq<StreamEvent>, m: nat, settled: Effect, at: nat) {
    && Read(events, m, settled, at) && (m > 0 ==> !Stops(events[m - 1]))
    && (settled != Nothing ==> OpenCompletion(events[at]) && settled == Succeeds)
  }

  lemma ReadNone(events: seq<StreamEvent>)
    ensures Reading(events, 0, Nothing, 0) && Settled(Nothing) == (IN_PROGRESS, RUNNING)
  {
  }

  lemma ReadNext(events: seq<StreamEvent>, m: nat, settled: Effect, at: nat)
    requires m < |events| && Reading(events, m, settled, at) && (Decides(events[m]) ==> settled == Nothing)
    ensures var after, where := if Decides(events[m]) then EffectOf(events[m]) else settled, if Decides(events[m]) then m else at;
            && Read(events, m + 1, after, where)
            && (!Stops(events[m]) ==> Reading(events, m + 1, after, where))
  {
    hide Stops, OpenCompletion, EffectOf;
    OpenCompletionIff(events[m]);
  }

  lemma SecondDecision(events: seq<StreamEvent>, m: nat, settled: Effect, at: nat)
    requires m < |events| && Reading(events, m, settled, at) && settled != Nothing && Decides(events[m])
    ensures Collides(events) && Verdict(events) == settled
  {
    hide Decides, Stops, OpenCompletion, EffectOf;
    assert forall k | 0 <= k < m :: !Stops(events[k]);
    assert Reached(events, m);
    VerdictAt(events, at);
  }

  lemma ReadingEnds(events: seq<StreamEvent>, m: nat, settled: Effect, at: nat)
    requires Read(events, m, settled, at) && (m == |events| || (m > 0 && Stops(events[m - 1])))
    ensures !Collides(events) && Verdict(events) == settled
  {
    hide Decides, Stops, OpenCompletion, EffectOf;
    forall i, j | 0 <= i < j < |events| && OpenCompletion(events[i]) && Reached(events, j) ensures !Decides(events[j]) {
      OpenCompletionIff(events[i]);
      assert j < m;
    }
    if settled != Nothing {
      VerdictAt(events, at);
    } else {
      UndecidedIff(events);
    }
  }

  class TaskRunner {
    const service: OrchestrationService
    const maxAttempts: nat
    const others: (nat, RunState) -> seq<Op>
    ghost const origin: RunState
    var clock: nat

    constructor (service: OrchestrationService, maxAttempts: nat, others: (nat, RunState) -> seq<Op>)
      requires maxAttempts >= 1 && service.state.Valid()
      ensures this.service == service && this.maxAttempts == maxAttempts && this.others == others
      ensures origin == service.state.View() && Inv(origin) && Leads(origin, service.state.View())
    {
      this.service, this.maxAttempts, this.others, clock := service, maxAttempts, others, 0;
      origin := service.state.View();
      LeadsRefl(service.state.View());
    }

    /** Everything done to the run since this runner was made, by it and by the others, was a
        sequence of legal calls in the runtime's order. */
    ghost predicate Sound(id: Name)
      reads this, service.state
    {
      service.state.Valid() && Inv(origin) && Leads(origin, service.state.View()) && Considerate(others, id)
    }

    ghost predicate Holds(id: Name, st: TaskState, a: Name, ast: AttemptState, n: nat)
      reads this, service.state
    {
      Sound(id) && Holding(service.state.View(), id, st, a, ast, n)
    }

    ghost predicate Enters(id: Name, n: nat)
      reads this, service.state
    {
      Sound(id) && Enterable(service.state.View(), id, n)
    }

    /** Other threads take the lock for a while. */
    method Others(id: Name)
      requires Sound(id) && id in service.state.tasksById && !Unstarted(service.state.tasksById[id].state)
      modifies this`clock, service.state
      ensures Sound(id) && Unmoved(old(service.state.View()), service.state.View(), id)
    {
      hide Inv, Leads, Legal, Apply, Unmoved, InOrderRun, ApartRun;
      ghost var s := service.state.View();
      var calls := others(clock, service.state.View());
      clock := clock + 1;
      assert Polite(s, calls, id);
      PoliteLeads(origin, s, calls, id);
      var i := 0;
      while i < |calls|
        invariant 0 <= i <= |calls| && service.state.Valid()
        invariant LegalRun(service.state.View(), calls[i..])
        invariant RunHistory.Run(service.state.View(), calls[i..]) == RunHistory.Run(s, calls)
      {
        assert calls[i..][1..] == calls[i + 1..];
        service.state.Perform(calls[i]);
        i := i + 1;
      }
    }

    method Pause(id: Name, ghost st: TaskState, ghost a: Name, ghost ast: AttemptState, ghost n: nat)
      requires Holds(id, st, a, ast, n) && !Unstarted(st)
      modifies this`clock, service.state
      ensures Holds(id, st, a, ast, n)
    {
      hide Inv, Leads, Considerate, Unmoved;
      ghost var s := service.state.View();
      Others(id);
      HoldingUnmoved(s, service.state.View(), id, st, a, ast, n);
    }

    method Open(id: Name, ghost n: nat) returns (a: Name)
      requires Enters(id, n)
      modifies this`clock, service.state
      ensures Holds(id, READY, a, QUEUED, n + 1)
    {
      hide Inv, Leads, Considerate, Unmoved, OpenAttempt, LatestActive, AttemptList, Holding;
      ghost var s := service.state.View();
      Others(id);
      ghost var m := service.state.View();
      EnterableUnmoved(s, m, id, n);
      a := DrawId(service.state.attemptsById.Keys);
      OpenAttemptInv(m, id, a, None, "");
      Opened(m, id, n, a, None, "");
      LeadsOne(origin, m, OpenOp(id, a, None, ""));
      var attempt := service.state.OpenAttempt(id, a, None, "");
    }

    /** `record_attempt` with the lease key and the launch payload. */
    method Describe(id: Name, a: Name, ghost n: nat, payload: string)
      requires Holds(id, READY, a, QUEUED, n)
      modifies this`clock, service.state
      ensures Holds(id, READY, a, QUEUED, n) && a in service.state.attemptsById
      ensures service.state.attemptsById[a].leaseKey == Some(Name("lease:" + a.text)) && service.state.attemptsById[a].payload == payload
    {
      hide Inv, Leads, Considerate, Holding, RunModel.RecordAttempt;
      Pause(id, READY, a, QUEUED, n);
      ghost var s := service.state.View();
      HoldingKnown(s, id, READY, a, QUEUED, n);
      var attempt := service.state.attemptsById[a].(leaseKey := Some(Name("lease:" + a.text)), payload := payload);
      RecordInv(s, attempt);
      Recorded(s, id, READY, a, QUEUED, n, attempt);
      LeadsOne(origin, s, Record(attempt));
      service.state.RecordAttempt(attempt);
    }

    /** `update_task` with new input or output and nothing else. */
    method Annotate(id: Name, ghost st: TaskState, ghost a: Name, ghost ast: AttemptState, ghost n: nat, payload: string)
      requires Holds(id, st, a, ast, n) && !Unstarted(st)
      modifies this`clock, service.state
      ensures Holds(id, st, a, ast, n) && id in service.state.tasksById && service.state.tasksById[id].payload == payload
    {
      hide Inv, Leads, Considerate, Holding, Refresh;
      Pause(id, st, a, ast, n);
      ghost var s := service.state.View();
      HoldingKnown(s, id, st, a, ast, n);
      var t := service.state.tasksById[id].(payload := payload);
      TaskStored(s, id, st, a, ast, n, t);
      LeadsOne(origin, s, UpdateTask(t));
      service.state.UpdateTask(t);
    }

    /** `start_task`, `dispatch_attempt`, `start_attempt` in one locked block: none of them raises. */
    method Begin(id: Name, a: Name, ghost n: nat)
      requires Holds(id, READY, a, QUEUED, n)
      modifies this`clock, service.state
      ensures Holds(id, IN_PROGRESS, a, RUNNING, n)
    {
      hide Inv, Leads, Considerate, Holding, StartTask, DispatchAttempt, StartAttempt;
      Pause(id, READY, a, QUEUED, n);
      ghost var s := service.state.View();
      Started(s, id, a, n);
      LeadsOne(origin, s, StartTaskOp(id));
      var started := service.state.StartTask(id);
      ghost var s1 := service.state.View();
      Dispatched(s1, id, a, n);
      DispatchAttemptInv(s1, a);
      LeadsOne(origin, s1, Dispatch(a));
      var dispatched := service.state.DispatchAttempt(a);
      ghost var s2 := service.state.View();
      Running(s2, id, a, n);
      StartAttemptInv(s2, a);
      LeadsOne(origin, s2, Start(a));
      var running := service.state.StartAttempt(a);
    }

    /** Move the attempt if the table allows it, or raise. */
    method Step(id: Name, ghost st: TaskState, a: Name, ghost ast: AttemptState, ghost n: nat, to: AttemptState) returns (ok: bool)
      requires Holds(id, st, a, ast, n) && !Unstarted(st) && !InFlight(to)
      modifies this`clock, service.state
      ensures ok <==> to in AllowedAttempt(ast)
      ensures Holds(id, st, a, if ok then to else ast, n)
    {
      hide Inv, Leads, Considerate, Holding, RunModel.MoveAttempt;
      Pause(id, st, a, ast, n);
      ghost var s := service.state.View();
      MoveAttemptInv(s, a, to);
      AttemptMoved(s, id, st, a, ast, n, to);
      LeadsOne(origin, s, Move(a, to));
      var moved := service.state.MoveAttempt(a, to);
      ok := moved.Ok?;
    }

    /** Block or fail the task. */
    method Stop(id: Name, ghost st: TaskState, ghost a: Name, ghost ast: AttemptState, ghost n: nat, to: TaskState, reason: string)
      requires Holds(id, st, a, ast, n) && !InFlight(ast)
      requires to in {BLOCKED, FAILED} && (st == READY || st == IN_PROGRESS)
      modifies this`clock, service.state
      ensures Holds(id, to, a, ast, n)
    {
      hide Inv, Leads, Considerate, Holding, BlockTask, FailTask;
      Pause(id, st, a, ast, n);
      ghost var s := service.state.View();
      HoldingIdle(s, id, st, a, ast, n);
      Stopped(s, id, st, a, ast, n, to, reason);
      if to == BLOCKED {
        LeadsOne(origin, s, Block(id, reason));
        var blocked := service.state.BlockTask(id, reason);
      } else {
        LeadsOne(origin, s, FailTaskOp(id, reason));
        var failed := service.state.FailTask(id, reason);
      }
    }

    method Unblock(id: Name, ghost a: Name, ghost ast: AttemptState, ghost n: nat)
      requires Holds(id, BLOCKED, a, ast, n)
      modifies this`clock, service.state
      ensures Holds(id, READY, a, ast, n)
    {
      hide Inv, Leads, Considerate, Holding, UnblockTask;
      Pause(id, BLOCKED, a, ast, n);
      ghost var s := service.state.View();
      Unblocked(s, id, a, ast, n);
      LeadsOne(origin, s, RunHistory.Unblock(id));
      var ready := service.state.UnblockTask(id);
    }

    /** Store a request and park the task; parking cannot raise from READY or IN_PROGRESS. */
    method AskHuman(id: Name, ghost st: TaskState, a: Name, ghost ast: AttemptState, ghost n: nat)
      requires Holds(id, st, a, ast, n) && !InFlight(ast) && (st == READY || st == IN_PROGRESS)
      modifies this`clock, service.state
      ensures Holds(id, WAITING_FOR_HUMAN, a, ast, n) && Answerable(service.state.View(), id, WAITING_FOR_HUMAN)
    {
      hide Answerable, Inv, Leads, Considerate, Holding, RunModel.RequestClarification;
      Pause(id, st, a, ast, n);
      ghost var s := service.state.View();
      HoldingIdle(s, id, st, a, ast, n);
      var freshId := DrawId(service.state.humanRequests.Keys);
      HumanAsked(s, id, st, a, ast, n, "question", "context", freshId);
      LeadsOne(origin, s, RunHistory.AskHuman(id, a, "question", "context", freshId));
      var r := service.state.RequestClarification(id, a, "question", "context", freshId);
    }

    method AskApproval(id: Name, ghost st: TaskState, a: Name, ghost ast: AttemptState, ghost n: nat)
      requires Holds(id, st, a, ast, n) && !InFlight(ast) && (st == READY || st == IN_PROGRESS)
      modifies this`clock, service.state
      ensures Holds(id, WAITING_FOR_APPROVAL, a, ast, n) && Answerable(service.state.View(), id, WAITING_FOR_APPROVAL)
    {
      hide Answerable, Inv, Leads, Considerate, Holding, RunModel.RequestApproval;
      Pause(id, st, a, ast, n);
      ghost var s := service.state.View();
      HoldingIdle(s, id, st, a, ast, n);
      var freshId := DrawId(service.state.approvalRequests.Keys);
      ApprovalAsked(s, id, st, a, ast, n, "review", "reason", freshId);
      LeadsOne(origin, s, RunHistory.AskApproval(id, a, "review", "reason", freshId));
      var r := service.state.RequestApproval(id, a, "review", "reason", freshId);
    }

    /** `finalize_attempt_success` */
    method Succeed(id: Name, ghost st: TaskState, a: Name, ghost ast: AttemptState, ghost n: nat) returns (ok: bool)
      requires Holds(id, st, a, ast, n) && (st, ast) in {(IN_PROGRESS, RUNNING), (COMPLETED, SUCCEEDED)}
      modifies this`clock, service.state
      ensures ok <==> ast == RUNNING
      ensures Holds(id, COMPLETED, a, SUCCEEDED, n)
    {
      hide Inv, Leads, Considerate, Holding, FinalizeSuccess;
      Pause(id, st, a, ast, n);
      ghost var s := service.state.View();
      Completed(s, id, st, a, ast, n);
      SuccessLeads(origin, s, id, st, a, ast, n);
      var r := service.FinalizeAttemptSuccess(id, a);
      ok := r.Ok?;
    }

    /** A worker that asks for human input, by whether the question has an answer already. */
    method Ask(id: Name, ghost st: TaskState, a: Name, ghost ast: AttemptState, ghost n: nat, answered: bool, exhausted: bool)
      returns (raised: bool)
      requires Holds(id, st, a, ast, n) && (st, ast) in {(IN_PROGRESS, RUNNING), (COMPLETED, SUCCEEDED)}
      modifies this`clock, service.state
      ensures raised <==> ast == SUCCEEDED
      ensures var effect := if !answered then AsksHuman else if exhausted then LoopsOnAnswer else ReusesAnswer;
              var end := if raised then (st, ast) else Settled(effect);
              Holds(id, end.0, a, end.1, n) && Answerable(service.state.View(), id, end.0)
    {
      hide Inv, Leads, Holding, Considerate;
      if answered {
        raised := Reuse(id, st, a, ast, n, exhausted);
      } else {
        var ok := Step(id, st, a, ast, n, NEEDS_INPUT);
        if ok {
          AskHuman(id, st, a, NEEDS_INPUT, n);
        }
        raised := !ok;
      }
    }

    /** The answer given before is put into the task's input and the attempt aborted; the task is
        readied, or failed when the answer has been reused too often. */
    method Reuse(id: Name, ghost st: TaskState, a: Name, ghost ast: AttemptState, ghost n: nat, exhausted: bool) returns (raised: bool)
      requires Holds(id, st, a, ast, n) && (st, ast) in {(IN_PROGRESS, RUNNING), (COMPLETED, SUCCEEDED)}
      modifies this`clock, service.state
      ensures raised <==> ast == SUCCEEDED
      ensures var end := if raised then (st, ast) else Settled(if exhausted then LoopsOnAnswer else ReusesAnswer); Holds(id, end.0, a, end.1, n)
    {
      hide Inv, Leads, Holding, Considerate;
      Annotate(id, st, a, ast, n, "latest_human_answer");
      Annotate(id, st, a, ast, n, "clarification_retry_counts");
      var ok := Step(id, st, a, ast, n, ABORTED);
      if ok {
        GiveUp(id, a, n, exhausted);
      }
      raised := !ok;
    }

    method GiveUp(id: Name, ghost a: Name, ghost n: nat, exhausted: bool)
      requires Holds(id, IN_PROGRESS, a, ABORTED, n)
      modifies this`clock, service.state
      ensures Holds(id, if exhausted then FAILED else READY, a, ABORTED, n)
    {
      hide Inv, Leads, Holding, Considerate;
      if exhausted {
        Annotate(id, IN_PROGRESS, a, ABORTED, n, "result_summary");
        Stop(id, IN_PROGRESS, a, ABORTED, n, FAILED, "duplicate_answered_clarification_loop");
      } else {
        Stop(id, IN_PROGRESS, a, ABORTED, n, BLOCKED, "reused_answered_clarification");
        Unblock(id, a, ABORTED, n);
      }
    }

    /** One deciding event.  It raises exactly when the attempt has been settled before, and then
        leaves task and attempt as they were settled. */
    method Decide(id: Name, a: Name, ghost n: nat, ghost before: Effect, event: StreamEvent) returns (raised: bool)
      requires before in {Nothing, Succeeds} && Holds(id, Settled(before).0, a, Settled(before).1, n) && Decides(event)
      modifies this`clock, service.state
      ensures raised <==> before == Succeeds
      ensures var end := if raised then Settled(before) else Ending(Streamed([event]));
              Holds(id, end.0, a, end.1, n) && Answerable(service.state.View(), id, end.0)
    {
      hide Inv, Leads, Holding, Considerate;
      ghost var st, ast := Settled(before).0, Settled(before).1;
      UndecidedEvent(event);
      var e, ok := Seen(event), false;
      var outcome := OutcomeText(e);
      if e.requiresHuman {
        raised := Ask(id, st, a, ast, n, e.answered, e.exhausted);
      } else if e.approvalRequired {
        ok := Step(id, st, a, ast, n, PAUSED);
        if ok {
          AskApproval(id, st, a, PAUSED, n);
        }
        raised := !ok;
      } else if outcome in SUCCESS || Completion(e) {
        Annotate(id, st, a, ast, n, "result_summary");
        ok := Succeed(id, st, a, ast, n);
        raised := !ok;
      } else if outcome in STALLED {
        raised := Lose(id, st, a, ast, n, true);
      } else {
        raised := Lose(id, st, a, ast, n, e.emptyLoop);
      }
    }

    /** `finalize_attempt_failure` */
    method Lose(id: Name, ghost st: TaskState, a: Name, ghost ast: AttemptState, ghost n: nat, recoverable: bool) returns (raised: bool)
      requires Holds(id, st, a, ast, n) && (st, ast) in {(IN_PROGRESS, RUNNING), (COMPLETED, SUCCEEDED)}
      modifies this`clock, service.state
      ensures raised <==> ast == SUCCEEDED
      ensures var end := if raised then (st, ast) else Settled(if recoverable then Recovers else Fails); Holds(id, end.0, a, end.1, n)
    {
      hide Inv, Leads, Holding, Considerate;
      var to := if recoverable then ORPHANED else ERRORED;
      var ok := Step(id, st, a, ast, n, to);
      if ok {
        Stop(id, st, a, to, n, if recoverable then BLOCKED else FAILED, "worker_recovery");
      }
      raised := !ok;
    }

    /** `_process_openhands_stream`.  It raises exactly on the streams that collide; either way task
        and attempt end as the first deciding event that is read says. */
    method Process(id: Name, a: Name, ghost n: nat, events: seq<StreamEvent>) returns (raised: bool)
      requires Holds(id, IN_PROGRESS, a, RUNNING, n)
      modifies this`clock, service.state
      ensures raised <==> Collides(events)
      ensures Holds(id, Ending(Streamed(events)).0, a, Ending(Streamed(events)).1, n)
      ensures Answerable(service.state.View(), id, Ending(Streamed(events)).0)
    {
      hide Holds, Holding, Decides, Stops, EffectOf, Read, Settled, Collides;
      EndingOfStream(events);
      ghost var settled: Effect, at := Nothing, 0;
      ReadNone(events);
      var i := 0;
      while i < |events|
        invariant 0 <= i <= |events| && Reading(events, i, settled, at)
        invariant Holds(id, Settled(settled).0, a, Settled(settled).1, n)
        invariant Answerable(service.state.View(), id, Settled(settled).0)
      {
        var event := events[i];
        if Decides(event) {
          raised := Decide(id, a, n, settled, event);
          UndecidedEvent(event);
          if raised {
            SecondDecision(events, i, settled, at);
            return;
          }
        } else if event.eventType == "progress" {
          Progress(id, a, n, settled);
        }
        ReadNext(events, i, settled, at);
        settled, at := if Decides(event) then EffectOf(event) else settled, if Decides(event) then i else at;
        if Stops(event) {
          ReadingEnds(events, i + 1, settled, at);
          return false;
        }
        i := i + 1;
      }
      ReadingEnds(events, i, settled, at);
      return false;
    }

    /** A progress event starts a READY task and an attempt that waits; this worker's never do. */
    method Progress(id: Name, a: Name, ghost n: nat, ghost settled: Effect)
      requires settled in {Nothing, Succeeds} && Holds(id, Settled(settled).0, a, Settled(settled).1, n)
      modifies this`clock, service.state
      ensures Holds(id, Settled(settled).0, a, Settled(settled).1, n)
      ensures Answerable(service.state.View(), id, Settled(settled).0)
    {
      hide Inv, Leads, Considerate;
      Pause(id, Settled(settled).0, a, Settled(settled).1, n);
      assert service.state.tasksById[id].state != READY;
      assert service.state.attemptsById[a].state !in {PAUSED, NEEDS_INPUT, QUEUED};
    }

    /** From the launch checks to the end of the stream. */
    method Attempt(id: Name, a: Name, ghost n: nat, course: Course) returns (raised: bool)
      requires Holds(id, READY, a, QUEUED, n)
      modifies this`clock, service.state
      ensures raised <==> Raises(course)
      ensures Holds(id, Ending(course).0, a, Ending(course).1, n) && Answerable(service.state.View(), id, Ending(course).0)
    {
      hide Inv, Leads, Holding, Considerate, Collides, Verdict;
      var ok;
      raised := false;
      match course {
        case NotDispatched =>
        case NeedsApprovalFirst => AskApproval(id, READY, a, QUEUED, n);
        case DuplicateDispatch => ok := Step(id, READY, a, QUEUED, n, ABORTED);
        case LeaseUnavailable =>
          ok := Step(id, READY, a, QUEUED, n, ABORTED);
          Stop(id, READY, a, ABORTED, n, BLOCKED, "lease_unavailable");
        case BootstrapFailed =>
          Begin(id, a, n);
          ok := Step(id, IN_PROGRESS, a, RUNNING, n, ERRORED);
          Stop(id, IN_PROGRESS, a, ERRORED, n, FAILED, "openhands bootstrap failed");
        case Streamed(events) =>
          Begin(id, a, n);
          raised := Process(id, a, n, events);
      }
    }

    /** `_run_task`, retries included.  `courses` are the ways the attempts went.  It raises exactly
        when the last stream collides; every attempt but the last was lost to an empty-response
        loop; another attempt is made exactly when the last was so lost and its number is below
        `maxAttempts`; the attempts are numbered consecutively from the next free number, and the
        task ends as the last course says. */
    method RunTask(id: Name, dispatch: bool, ghost n: nat)
      returns (courses: seq<Course>, last: Course, numbers: seq<int>, raised: bool, ghost final: Name)
      requires Enters(id, n)
      modifies this`clock, service.state
      ensures Retried(courses, dispatch, n, maxAttempts) && numbers == seq(|courses|, k => n + 1 + k)
      ensures courses != [] && last == courses[|courses| - 1] && (raised <==> Raises(last))
      ensures Holds(id, Ending(last).0, final, Ending(last).1, n + |courses|)
      ensures Answerable(service.state.View(), id, Ending(last).0)
      ensures Grounded(origin) ==> Grounded(service.state.View())
      decreases if n < maxAttempts then maxAttempts - n else 0
    {
      hide Inv, Leads, Holding, Considerate, Enterable, Grounded, Grows, Retryable, Raises, Ending, Answerable, Retried;
      var a := Open(id, n);
      Describe(id, a, n + 1, "launch_payload");
      var course: Course := *;
      if dispatch == course.NotDispatched? {
        course := if dispatch then DuplicateDispatch else NotDispatched;
      }
      raised := Attempt(id, a, n + 1, course);
      RaisingIsNotRetried(course);
      var number := NumberOf(id, Ending(course).0, a, Ending(course).1, n + 1);
      courses, last, numbers, final := [course], course, [number], a;
      if !raised && Retryable(course) && number < maxAttempts {
        Unblock(id, a, ORPHANED, n + 1);
        SettledEnterable(service.state.View(), id, a, n + 1);
        var more, rest;
        more, last, rest, raised, final := RunTask(id, dispatch, n + 1);
        courses, numbers := [course] + more, [number] + rest;
        RetriedAgain(course, more, dispatch, n, maxAttempts);
      } else {
        RetriedOnce(course, dispatch, n, maxAttempts);
      }
      LeadsKeeps(origin, service.state.View());
    }

    method NumberOf(ghost id: Name, ghost st: TaskState, a: Name, ghost ast: AttemptState, ghost n: nat) returns (number: int)
      requires Holds(id, st, a, ast, n)
      ensures number == n
    {
      number := service.state.attemptsById[a].number;
    }
  }

  /** A fresh id, standing for uuid4. */
  method DrawId(used: set<Name>) returns (id: Name)
    ensures id !in used
  {
    var text := "id";
    while Name(text) in used
      decreases set x | x in used && |x.text| >= |text|
    {
      ghost var longer := set x | x in used && |x.text| >= |text|;
      assert Name(text) in longer;
      text := text + "x";
      assert (set x | x in used && |x.text| >= |text|) <= longer;
    }
    id := Name(text);
  }
}
