/** What each call leaves behind, in plain terms.  The functions of `RunModel` say how a call works.
    Here, for every state of the invariant: when it succeeds, which record it changes and how, what
    becomes of the run, and that nothing else changes.  The source's strings and states are written
    out. */
module Effects {
  import opened Names
  import opened Wrappers
  import opened Sequences
  import opened Records
  import opened DependencyGraph
  import opened RunModel
  import opened RunInvariant
  import opened RunHistory
  import opened Orchestration
  import opened Protocol

  // ---------------------------------------------------------------- frames

  /** Everything but the tasks and the run's own record is as it was. */
  ghost predicate SameAround(s: RunState, u: RunState) {
    && u.attemptsById == s.attemptsById && u.attemptsByTask == s.attemptsByTask
    && u.humanRequests == s.humanRequests && u.approvalRequests == s.approvalRequests
    && u.tasksByKey == s.tasksByKey && u.graph.edges == s.graph.edges && u.graphRevision == s.graphRevision
    && TaskIds(u.graph.tasks) == TaskIds(s.graph.tasks)
  }

  /** The task `id`, and no other, got this state and reason; its other fields stayed. */
  ghost predicate TaskTurned(s: RunState, u: RunState, id: Name, state: TaskState, reason: Option<string>)
    requires id in s.tasksById
  {
    u.tasksById == s.tasksById[id := s.tasksById[id].(state := state, blockReason := reason)]
  }

  /** The call answered with the task as it is now; no other record changed, but perhaps the run's. */
  ghost predicate Turned(s: RunState, o: Outcome<Task>, id: Name, state: TaskState, reason: Option<string>)
    requires id in s.tasksById
  {
    && TaskTurned(s, o.state, id, state, reason) && SameAround(s, o.state)
    && id in o.state.tasksById && o.reply == Ok(o.state.tasksById[id])
  }

  ghost predicate Refused<T>(s: RunState, o: Outcome<T>) {
    o == Outcome(s, Err(StateTransition))
  }

  ghost predicate EveryTaskCompleted(s: RunState) {
    forall x | x in s.tasksById :: s.tasksById[x].state == COMPLETED
  }

  /** The run is live: its other fields stayed, and its start was noted. */
  ghost predicate RunLive(a: Run, b: Run) {
    b.status == RunRunning && b.ended == a.ended && b.id == a.id && b.revision == a.revision && b.payload == a.payload
    && (b.started <==> a.started || a.status != RunRunning)
  }

  ghost predicate RunEnded(a: Run, b: Run, status: RunStatus) {
    b == a.(status := status, ended := true)
  }

  lemma SetTaskAround(s: RunState, t: Task)
    requires Inv(s) && t.id in s.tasksById && t.key == s.tasksById[t.id].key && t.runId == s.tasksById[t.id].runId
    ensures SameAround(s, SetTask(s, t)) && SetTask(s, t).graph.run == s.graph.run && SetTask(s, t).tasksById == s.tasksById[t.id := t]
  {
    hide Safe, Numbered, OneActive, HumanOk, ApprovalsOk, RequestsOwned, StatusOk, Refresh, Distinct, Unrepeated, NoAlias, Owned, EndpointsIn;
    SameKeyIndex(s, t);
    SetTaskShape(s, t);
  }

  lemma MoveTaskEffect(s: RunState, id: Name, to: TaskState, reason: Option<string>)
    requires Inv(s) && id in s.tasksById
    ensures var o := MoveTask(s, id, to, reason);
            if to in AllowedTask(s.tasksById[id].state) then
              && o.reply == Ok(o.state.tasksById[id]) && SameAround(s, o.state) && o.state.graph.run == s.graph.run
              && TaskTurned(s, o.state, id, to, if to == BLOCKED then reason else None)
            else o == Outcome(s, Err(StateTransition))
  {
    hide Inv, SetTask, SameAround;
    KnownId(s, id);
    var t := s.tasksById[id].(state := to, blockReason := if to == BLOCKED then reason else None);
    SetTaskAround(s, t);
  }

  lemma KnownId(s: RunState, id: Name)
    requires Inv(s) && id in s.tasksById
    ensures s.tasksById[id].id == id
  {
    hide GraphOk, Safe, Numbered, OneActive, HumanOk, ApprovalsOk, RequestsOwned, StatusOk;
    var i := TaskAt(s, id);
  }

  /** A task is found by its key as by its id. */
  lemma LookupEffect(s: RunState, ref: Name)
    requires Inv(s)
    ensures Lookup(s, ref).Ok? <==> exists id :: id in s.tasksById && (s.tasksById[id].key == ref || id == ref)
    ensures Lookup(s, ref).Ok? ==>
              var id := Lookup(s, ref).value;
              id in s.tasksById && s.tasksById[id].id == id && (s.tasksById[id].key == ref || id == ref)
    ensures forall id | id in s.tasksById && (s.tasksById[id].key == ref || id == ref) :: Lookup(s, ref) == Ok(id)
  {
    hide GraphOk, Safe, Numbered, OneActive, HumanOk, ApprovalsOk, RequestsOwned, StatusOk;
    forall id | id in s.tasksById && (s.tasksById[id].key == ref || id == ref) ensures Lookup(s, ref) == Ok(id) {
      var i := TaskAt(s, id);
      LookupId(s, id);
    }
    if ref in s.tasksByKey {
      assert ref in Elements(TaskKeys(s.graph.tasks));
      var i :| 0 <= i < |s.graph.tasks| && TaskKeys(s.graph.tasks)[i] == ref;
      assert s.graph.tasks[i].id in s.tasksById;
    } else if ref in s.tasksById {
      KnownId(s, ref);
    }
  }

  // ---------------------------------------------------------------- tasks

  /** A READY task starts, and the run is live. */
  lemma StartTaskEffect(s: RunState, id: Name)
    requires Inv(s) && id in s.tasksById
    ensures var o := StartTask(s, id);
            if s.tasksById[id].state == READY then Turned(s, o, id, IN_PROGRESS, None) && RunLive(s.graph.run, o.state.graph.run)
            else Refused(s, o)
  {
    hide Inv, SetTask, SameAround, Done;
    LookupId(s, id);
    KnownId(s, id);
    if s.tasksById[id].state == READY {
      ReadyMeansDone(s);
      var t := s.tasksById[id].(state := IN_PROGRESS, blockReason := None);
      SetTaskAround(s, t);
      StartTaskMarks(s, t);
    }
  }

  lemma StartTaskMarks(s: RunState, t: Task)
    requires SameAround(s, SetTask(s, t))
    ensures var u := SetTask(MarkRunning(s), t);
            SameAround(s, u) && u.tasksById == SetTask(s, t).tasksById && RunLive(s.graph.run, u.graph.run)
  {
    hide Refresh, SameAround;
    MarkRunningParts(s);
    var v := MarkRunning(s);
    assert SetTask(v, t) == SetTask(s, t).(graph := SetTask(s, t).graph.(run := v.graph.run));
    OtherRun(s, SetTask(s, t), v.graph.run);
  }

  lemma OtherRun(s: RunState, u: RunState, run: Run)
    requires SameAround(s, u)
    ensures SameAround(s, u.(graph := u.graph.(run := run)))
  {
  }

  lemma MarkRunningParts(s: RunState)
    ensures MarkRunning(s) == s.(graph := s.graph.(run := MarkRunning(s).graph.run)) && RunLive(s.graph.run, MarkRunning(s).graph.run)
  {
  }

  /** A completion completes the run exactly when it was the last task's; else the run stays as it
      was. */
  lemma CompleteTaskEffect(s: RunState, id: Name)
    requires Inv(s) && id in s.tasksById
    ensures var o := CompleteTask(s, id);
            if s.tasksById[id].state == READY || s.tasksById[id].state == IN_PROGRESS then
              && Turned(s, o, id, COMPLETED, None)
              && (EveryTaskCompleted(o.state) ==> RunEnded(s.graph.run, o.state.graph.run, RunCompleted))
              && (!EveryTaskCompleted(o.state) ==> o.state.graph.run == s.graph.run)
            else Refused(s, o)
  {
    hide Inv, SetTask, Done, SameAround;
    LookupId(s, id);
    KnownId(s, id);
    if s.tasksById[id].state == READY || s.tasksById[id].state == IN_PROGRESS {
      StartedIsDone(s, id);
      var mid := SetTask(s, s.tasksById[id].(state := COMPLETED, blockReason := None));
      SetTaskAround(s, s.tasksById[id].(state := COMPLETED, blockReason := None));
      OtherRun(s, mid, MarkCompleted(mid).graph.run);
    }
  }

  lemma StartedIsDone(s: RunState, id: Name)
    requires Inv(s) && id in s.tasksById && !Unstarted(s.tasksById[id].state)
    ensures Done(s, id)
  {
    hide GraphOk, Indexed, Numbered, OneActive, HumanOk, ApprovalsOk, RequestsOwned, StatusOk;
  }

  /** A failure ends the run. */
  lemma FailTaskEffect(s: RunState, id: Name, reason: string)
    requires Inv(s) && id in s.tasksById
    ensures var o := FailTask(s, id, reason);
            if s.tasksById[id].state in {READY, IN_PROGRESS, BLOCKED} then
              Turned(s, o, id, FAILED, None) && RunEnded(s.graph.run, o.state.graph.run, RunFailed)
            else Refused(s, o)
  {
    hide Inv, MoveTask, SameAround;
    LookupId(s, id);
    MoveTaskEffect(s, id, FAILED, Some(reason));
    var mid := MoveTask(s, id, FAILED, Some(reason)).state;
    if s.tasksById[id].state in {READY, IN_PROGRESS, BLOCKED} {
      OtherRun(s, mid, MarkFailed(mid).graph.run);
    }
  }

  /** Blocking keeps the reason given. */
  lemma BlockTaskEffect(s: RunState, id: Name, reason: string)
    requires Inv(s) && id in s.tasksById
    ensures var o := BlockTask(s, id, reason);
            if s.tasksById[id].state in {READY, IN_PROGRESS, WAITING_FOR_HUMAN, WAITING_FOR_APPROVAL} then
              Turned(s, o, id, BLOCKED, Some(reason)) && o.state.graph.run == s.graph.run
            else Refused(s, o)
  {
    hide Inv, MoveTask, SameAround;
    LookupId(s, id);
    MoveTaskEffect(s, id, BLOCKED, Some(reason));
  }

  lemma UnblockTaskEffect(s: RunState, id: Name)
    requires Inv(s) && id in s.tasksById
    ensures var o := UnblockTask(s, id);
            if s.tasksById[id].state == BLOCKED then Turned(s, o, id, READY, None) && o.state.graph.run == s.graph.run
            else Refused(s, o)
  {
    hide Inv, MoveTask, SameAround;
    LookupId(s, id);
    MoveTaskEffect(s, id, READY, None);
  }

  /** Every hard predecessor is COMPLETED. */
  ghost predicate Unhindered(s: RunState, id: Name) {
    forall i | 0 <= i < |s.graph.edges| && s.graph.edges[i].hard && s.graph.edges[i].to == id :: TaskIs(s, s.graph.edges[i].from, COMPLETED)
  }

  /** Promotion readies the unstarted tasks whose hard predecessors are all COMPLETED, makes the other
      CREATED ones wait, and touches nothing else. */
  lemma PromoteEffect(s: RunState, id: Name)
    requires Inv(s) && id in s.tasksById
    ensures var u, t := Promote(s), s.tasksById[id];
            && id in u.tasksById
            && u.tasksById[id] ==
                 if (t.state == CREATED || t.state == WAITING_FOR_DEPENDENCY) && Unhindered(s, id) then t.(state := READY, blockReason := None)
                 else if t.state == CREATED then t.(state := WAITING_FOR_DEPENDENCY, blockReason := None)
                 else t
  {
    hide GraphOk, Safe, Numbered, OneActive, HumanOk, ApprovalsOk, RequestsOwned, StatusOk;
    KnownId(s, id);
  }

  lemma PromoteAround(s: RunState)
    requires Inv(s)
    ensures SameAround(s, Promote(s)) && Promote(s).tasksById.Keys == s.tasksById.Keys && Promote(s).graph.run == s.graph.run
  {
    hide Inv;
    PromoteGraph(s, s.tasksById.Keys);
  }

  // ---------------------------------------------------------------- the transition tables, read backwards

  /** From which states each task state is entered. */
  lemma TaskEntries(from: TaskState, to: TaskState)
    ensures to in AllowedTask(from) <==>
              match to
              case CREATED => false
              case READY => from in {CREATED, WAITING_FOR_DEPENDENCY, WAITING_FOR_HUMAN, WAITING_FOR_APPROVAL, BLOCKED}
              case IN_PROGRESS => from == READY
              case WAITING_FOR_DEPENDENCY => from == CREATED
              case WAITING_FOR_HUMAN => from in {READY, IN_PROGRESS}
              case WAITING_FOR_APPROVAL => from in {READY, IN_PROGRESS}
              case BLOCKED => from in {READY, IN_PROGRESS, WAITING_FOR_HUMAN, WAITING_FOR_APPROVAL}
              case COMPLETED => from == IN_PROGRESS
              case FAILED => from in {READY, IN_PROGRESS, BLOCKED}
              case CANCELLED => from !in {COMPLETED, FAILED, CANCELLED}
  {
  }

  lemma AttemptEntries(from: AttemptState, to: AttemptState)
    ensures to in AllowedAttempt(from) <==>
              match to
              case QUEUED => false
              case DISPATCHING => from == QUEUED
              case RUNNING => from in {DISPATCHING, PAUSED, NEEDS_INPUT}
              case PAUSED => from in {RUNNING, NEEDS_INPUT}
              case NEEDS_INPUT => from == RUNNING
              case SUCCEEDED => from == RUNNING
              case ERRORED => from in {DISPATCHING, RUNNING}
              case ABORTED => from in {QUEUED, RUNNING, PAUSED, NEEDS_INPUT}
              case ORPHANED => from in {DISPATCHING, RUNNING, PAUSED}
  {
  }

  // ---------------------------------------------------------------- attempts

  /** The tasks, requests and edges are as they were. */
  ghost predicate OnlyAttemptsDiffer(s: RunState, u: RunState) {
    && u.tasksById == s.tasksById && u.tasksByKey == s.tasksByKey && u.graph.tasks == s.graph.tasks && u.graph.edges == s.graph.edges
    && u.humanRequests == s.humanRequests && u.approvalRequests == s.approvalRequests && u.graphRevision == s.graphRevision
  }

  ghost predicate HasActive(s: RunState, id: Name) {
    exists a :: AttemptOf(s, a, id) && s.attemptsById[a].state in {QUEUED, DISPATCHING, RUNNING, PAUSED, NEEDS_INPUT}
  }

  /** A new attempt is the next in the task's list, under the next number, and queued; none is opened
      while another is active. */
  lemma OpenAttemptEffect(s: RunState, id: Name, freshId: Name, leaseKey: Option<Name>, payload: string)
    requires Inv(s) && id in s.tasksById && freshId !in s.attemptsById
    ensures var o := OpenAttempt(s, id, freshId, leaseKey, payload);
            if HasActive(s, id) then Refused(s, o)
            else
              var a := Attempt(freshId, id, |AttemptList(s, id)| + 1, QUEUED, leaseKey, payload);
              && o.reply == Ok(a) && OnlyAttemptsDiffer(s, o.state) && o.state.graph.run == s.graph.run
              && o.state.attemptsById == s.attemptsById[freshId := a]
              && o.state.attemptsByTask == s.attemptsByTask[id := AttemptList(s, id) + [freshId]]
  {
    hide GraphOk, Indexed, Safe, HumanOk, ApprovalsOk, RequestsOwned, StatusOk, LastActive;
    LookupId(s, id);
    ActiveIsLatest(s, id);
    forall i: nat | i < |AttemptList(s, id)| ensures AttemptList(s, id)[i] != freshId {
      assert Slot(s.attemptsById, id, i, AttemptList(s, id)[i]);
    }
  }

  lemma ActiveIsLatest(s: RunState, id: Name)
    requires Inv(s)
    ensures HasActive(s, id) <==> LatestActive(s, id).Some?
  {
    hide Inv, LatestActive;
    if LatestActive(s, id).Some? {
      LatestActiveIff(s, id, LatestActive(s, id).value);
    }
    if a :| AttemptOf(s, a, id) && s.attemptsById[a].state in {QUEUED, DISPATCHING, RUNNING, PAUSED, NEEDS_INPUT} {
      LatestActiveIff(s, id, a);
    }
  }

  /** Only the attempt's state changes, and only as the table allows. */
  lemma MoveAttemptEffect(s: RunState, a: Name, to: AttemptState)
    ensures var o := MoveAttempt(s, a, to);
            if a !in s.attemptsById then o == Outcome(s, Err(UnknownKey))
            else if to !in AllowedAttempt(s.attemptsById[a].state) then Refused(s, o)
            else
              var after := s.attemptsById[a].(state := to);
              o == Outcome(s.(attemptsById := s.attemptsById[a := after]), Ok(after))
  {
  }

  /** The ways an attempt ends or pauses, by the states they start from. */
  lemma AttemptEnds(s: RunState, a: Name)
    requires a in s.attemptsById
    ensures MoveAttempt(s, a, SUCCEEDED).reply.Ok? <==> s.attemptsById[a].state == RUNNING
    ensures MoveAttempt(s, a, NEEDS_INPUT).reply.Ok? <==> s.attemptsById[a].state == RUNNING
    ensures MoveAttempt(s, a, PAUSED).reply.Ok? <==> s.attemptsById[a].state in {RUNNING, NEEDS_INPUT}
    ensures MoveAttempt(s, a, ABORTED).reply.Ok? <==> s.attemptsById[a].state in {QUEUED, RUNNING, PAUSED, NEEDS_INPUT}
    ensures FailAttempt(s, a, true).reply.Ok? <==> s.attemptsById[a].state in {DISPATCHING, RUNNING, PAUSED}
    ensures FailAttempt(s, a, true).reply.Ok? ==> AttemptIn(FailAttempt(s, a, true).state, a, {ORPHANED})
    ensures FailAttempt(s, a, false).reply.Ok? <==> s.attemptsById[a].state in {DISPATCHING, RUNNING}
    ensures FailAttempt(s, a, false).reply.Ok? ==> AttemptIn(FailAttempt(s, a, false).state, a, {ERRORED})
  {
  }

  /** Launching an attempt makes the run live. */
  ghost predicate Launched(s: RunState, o: Outcome<Attempt>, a: Name, state: AttemptState)
    requires a in s.attemptsById
  {
    var after := s.attemptsById[a].(state := state);
    && o.reply == Ok(after) && o.state.attemptsById == s.attemptsById[a := after] && o.state.attemptsByTask == s.attemptsByTask
    && OnlyAttemptsDiffer(s, o.state) && RunLive(s.graph.run, o.state.graph.run)
  }

  lemma DispatchAttemptEffect(s: RunState, a: Name)
    requires a in s.attemptsById
    ensures var o := DispatchAttempt(s, a);
            if s.attemptsById[a].state == QUEUED then Launched(s, o, a, DISPATCHING) else Refused(s, o)
  {
    hide MarkRunning;
    MarkRunningParts(MoveAttempt(s, a, DISPATCHING).state);
  }

  /** `start_attempt` and `resume_attempt` */
  lemma StartAttemptEffect(s: RunState, a: Name)
    requires a in s.attemptsById
    ensures var o := StartAttempt(s, a);
            if s.attemptsById[a].state in {QUEUED, DISPATCHING, PAUSED, NEEDS_INPUT} then Launched(s, o, a, RUNNING) else Refused(s, o)
  {
    hide MarkRunning;
    MarkRunningParts(s.(attemptsById := s.attemptsById[a := s.attemptsById[a].(state := RUNNING)]));
  }

  // ---------------------------------------------------------------- requests

  /** The tasks and attempts are as they were, the run too. */
  ghost predicate OnlyRequestsDiffer(s: RunState, u: RunState) {
    u == s.(humanRequests := u.humanRequests, approvalRequests := u.approvalRequests)
  }

  /** Apart from the requests, the task `id` got this state and reason and nothing else changed. */
  ghost predicate TaskParked(s: RunState, u: RunState, id: Name, state: TaskState, reason: Option<string>)
    requires id in s.tasksById
  {
    && TaskTurned(s, u, id, state, reason) && SameAround(s.(humanRequests := u.humanRequests, approvalRequests := u.approvalRequests), u)
    && u.graph.run == s.graph.run
  }

  lemma ParkEffect<T>(s: RunState, id: Name, to: TaskState, answer: T)
    requires Inv(s) && id in s.tasksById && to in {WAITING_FOR_HUMAN, WAITING_FOR_APPROVAL}
    ensures var o, state := Park(s, id, to, answer), s.tasksById[id].state;
            if state == to then o == Outcome(s, Ok(answer))
            else if state == READY || state == IN_PROGRESS then o.reply == Ok(answer) && TaskParked(s, o.state, id, to, None)
            else Refused(s, o)
  {
    hide Inv, MoveTask, SameAround;
    MoveTaskEffect(s, id, to, None);
    var u := MoveTask(s, id, to, None).state;
    SameRequestFields(s, u);
  }

  lemma SameRequestFields(s: RunState, u: RunState)
    ensures SameAround(s, u) ==> s.(humanRequests := u.humanRequests, approvalRequests := u.approvalRequests) == s
  {
  }

  /** What a clarification leaves: the open one of this task with the new wording, or a new one; and
      the task parked, if it was READY or IN_PROGRESS.  From other states it raises, the request stored
      all the same. */
  ghost predicate Asked(s: RunState, o: Outcome<HumanRequest>, id: Name, q: HumanRequest)
    requires id in s.tasksById
  {
    var stored := s.(humanRequests := s.humanRequests[q.id := q]);
    if s.tasksById[id].state == WAITING_FOR_HUMAN then o == Outcome(stored, Ok(q))
    else if s.tasksById[id].state in {READY, IN_PROGRESS} then o.reply == Ok(q) && TaskParked(stored, o.state, id, WAITING_FOR_HUMAN, None)
    else Refused(stored, o)
  }

  ghost predicate OpenQuestion(s: RunState, r: Name, id: Name) {
    r in s.humanRequests && s.humanRequests[r].taskId == id && s.humanRequests[r].kind == Clarification && s.humanRequests[r].status == Open
  }

  lemma ClarificationEffect(s: RunState, id: Name, attemptId: Name, question: string, context: string, freshId: Name)
    requires Inv(s) && id in s.tasksById && freshId !in s.humanRequests
    ensures var o := RequestClarification(s, id, attemptId, question, context, freshId);
            && (forall r | OpenQuestion(s, r, id) :: Asked(s, o, id, s.humanRequests[r].(question := question, context := context)))
            && ((forall r :: !OpenQuestion(s, r, id)) ==>
                  Asked(s, o, id, HumanRequest(freshId, s.graph.run.id, id, attemptId, Clarification, question, context, Open, None, None)))
  {
    hide Inv, Park, TaskParked;
    LookupId(s, id);
    ClarificationStored(s, id, attemptId, question, context, freshId);
    var q := ClarificationToStore(s, id, attemptId, question, context, freshId);
    ParkEffect(StoreHuman(s, q), id, WAITING_FOR_HUMAN, q);
    forall r | OpenQuestion(s, r, id) ensures q == s.humanRequests[r].(question := question, context := context) {
      OnlyQuestion(s, id, r);
    }
    assert (forall r :: !OpenQuestion(s, r, id)) ==> forall r :: !OpenClarification(s, r, id);
  }

  lemma OnlyQuestion(s: RunState, id: Name, r: Name)
    requires Inv(s) && OpenQuestion(s, r, id)
    ensures forall q | OpenClarification(s, q, id) :: q == r
    ensures OpenClarification(s, r, id)
  {
    hide GraphOk, Indexed, Safe, Numbered, OneActive, ApprovalsOk, RequestsOwned, StatusOk;
  }

  ghost predicate ApprovalRequested(s: RunState, o: Outcome<ApprovalRequest>, id: Name, q: ApprovalRequest)
    requires id in s.tasksById
  {
    var stored := s.(approvalRequests := s.approvalRequests[q.id := q]);
    if s.tasksById[id].state == WAITING_FOR_APPROVAL then o == Outcome(stored, Ok(q))
    else if s.tasksById[id].state in {READY, IN_PROGRESS} then o.reply == Ok(q) && TaskParked(stored, o.state, id, WAITING_FOR_APPROVAL, None)
    else Refused(stored, o)
  }

  ghost predicate PendingApproval(s: RunState, r: Name, id: Name, kind: string) {
    && r in s.approvalRequests && s.approvalRequests[r].taskId == id
    && s.approvalRequests[r].approvalType == kind && s.approvalRequests[r].status == Requested
  }

  /** The same for an approval request, one of a type being open at a time. */
  lemma ApprovalEffect(s: RunState, id: Name, attemptId: Name, kind: string, reason: string, freshId: Name)
    requires Inv(s) && id in s.tasksById && freshId !in s.approvalRequests
    ensures var o := RequestApproval(s, id, attemptId, kind, reason, freshId);
            && (forall r | PendingApproval(s, r, id, kind) :: ApprovalRequested(s, o, id, s.approvalRequests[r].(reason := reason)))
            && ((forall r :: !PendingApproval(s, r, id, kind)) ==>
                  ApprovalRequested(s, o, id, ApprovalRequest(freshId, s.graph.run.id, id, attemptId, kind, reason, Requested, None)))
  {
    hide Inv, Park, TaskParked;
    LookupId(s, id);
    ApprovalStored(s, id, attemptId, kind, reason, freshId);
    var q := ApprovalToStore(s, id, attemptId, kind, reason, freshId);
    ParkEffect(StoreApproval(s, q), id, WAITING_FOR_APPROVAL, q);
    forall r | PendingApproval(s, r, id, kind) ensures q == s.approvalRequests[r].(reason := reason) {
      OnlyApproval(s, id, kind, r);
    }
    assert (forall r :: !PendingApproval(s, r, id, kind)) ==> forall r :: !OpenApproval(s, r, id, kind);
  }

  lemma OnlyApproval(s: RunState, id: Name, kind: string, r: Name)
    requires Inv(s) && PendingApproval(s, r, id, kind)
    ensures forall q | OpenApproval(s, q, id, kind) :: q == r
    ensures OpenApproval(s, r, id, kind)
  {
    hide GraphOk, Indexed, Safe, Numbered, OneActive, HumanOk, RequestsOwned, StatusOk;
  }

  /** An attempt other than the request's own is at work on the task. */
  ghost predicate AnotherActive(s: RunState, id: Name, attemptId: Name) {
    exists a :: AttemptOf(s, a, id) && a != attemptId && s.attemptsById[a].state in {QUEUED, DISPATCHING, RUNNING, PAUSED, NEEDS_INPUT}
  }

  lemma ReleaseEffect(s: RunState, id: Name, parked: TaskState, attemptId: Name, to: TaskState, reason: Option<string>)
    requires Inv(s) && id in s.tasksById && parked in {WAITING_FOR_HUMAN, WAITING_FOR_APPROVAL} && to in {READY, BLOCKED}
    ensures var u := Release(s, id, parked, attemptId, to, reason);
            if s.tasksById[id].state == parked && !AnotherActive(s, id, attemptId)
            then TaskTurned(s, u, id, to, if to == BLOCKED then reason else None) && SameAround(s, u) && u.graph.run == s.graph.run
            else u == s
  {
    hide Inv, MoveTask, LatestActive, SameAround;
    MoveTaskEffect(s, id, to, reason);
    if LatestActive(s, id).Some? {
      LatestActiveIff(s, id, LatestActive(s, id).value);
    }
    if a :| AttemptOf(s, a, id) && a != attemptId && s.attemptsById[a].state in {QUEUED, DISPATCHING, RUNNING, PAUSED, NEEDS_INPUT} {
      LatestActiveIff(s, id, a);
    }
  }

  /** The task after a decision: released into `to` if it was parked and no other attempt is at work,
      else unchanged. */
  ghost predicate ReleasedInto(s: RunState, u: RunState, id: Name, parked: TaskState, attemptId: Name, to: TaskState, reason: Option<string>)
    requires id in s.tasksById
  {
    if s.tasksById[id].state == parked && !AnotherActive(s, id, attemptId) then TaskParked(s, u, id, to, reason)
    else OnlyRequestsDiffer(s, u)
  }

  /** An answer is recorded in its own fields and readies the task. */
  lemma AnswerEffect(s: RunState, requestId: Name, answer: string, who: string)
    requires Inv(s)
    ensures var o := AnswerHumanRequest(s, requestId, answer, who);
            if requestId !in s.humanRequests then o == Outcome(s, Err(UnknownKey))
            else
              var r := s.humanRequests[requestId];
              var after := r.(status := Answered, answer := Some(answer), answeredBy := Some(who));
              && o.reply == Ok(after) && o.state.humanRequests == s.humanRequests[requestId := after]
              && o.state.approvalRequests == s.approvalRequests
              && r.taskId in s.tasksById && ReleasedInto(s, o.state, r.taskId, WAITING_FOR_HUMAN, r.attemptId, READY, None)
  {
    hide Inv, Release, SameAround, AnotherActive;
    if requestId in s.humanRequests {
      var r := s.humanRequests[requestId];
      KnownRequest(s, requestId);
      LookupId(s, r.taskId);
      var after := r.(status := Answered, answer := Some(answer), answeredBy := Some(who));
      StoreHumanInv(s, after);
      var mid := StoreHuman(s, after);
      ReleaseEffect(mid, r.taskId, WAITING_FOR_HUMAN, r.attemptId, READY, None);
      SameActivity(s, mid, r.taskId, r.attemptId);
    }
  }

  lemma KnownRequest(s: RunState, r: Name)
    requires Inv(s)
    ensures r in s.humanRequests ==>
              s.humanRequests[r].id == r && s.humanRequests[r].taskId in s.tasksById && s.humanRequests[r].runId == s.graph.run.id
    ensures r in s.approvalRequests ==>
              s.approvalRequests[r].id == r && s.approvalRequests[r].taskId in s.tasksById && s.approvalRequests[r].runId == s.graph.run.id
  {
    hide GraphOk, Indexed, Safe, Numbered, OneActive, StatusOk;
  }

  /** An approval readies the task, a rejection blocks it. */
  lemma ResolveEffect(s: RunState, requestId: Name, approved: bool, who: string)
    requires Inv(s)
    ensures var o := ResolveApproval(s, requestId, approved, who);
            if requestId !in s.approvalRequests then o == Outcome(s, Err(UnknownKey))
            else
              var r := s.approvalRequests[requestId];
              var after := if approved then r.(status := Approved, resolvedBy := Some(who)) else r.(status := Rejected, resolvedBy := Some(who));
              && o.reply == Ok(after) && o.state.approvalRequests == s.approvalRequests[requestId := after]
              && o.state.humanRequests == s.humanRequests && r.taskId in s.tasksById
              && (approved ==> ReleasedInto(s, o.state, r.taskId, WAITING_FOR_APPROVAL, r.attemptId, READY, None))
              && (!approved ==> ReleasedInto(s, o.state, r.taskId, WAITING_FOR_APPROVAL, r.attemptId, BLOCKED, Some("approval_rejected")))
  {
    hide Inv, Release, SameAround, AnotherActive;
    if requestId in s.approvalRequests {
      var r := s.approvalRequests[requestId];
      KnownRequest(s, requestId);
      LookupId(s, r.taskId);
      var after := if approved then r.(status := Approved, resolvedBy := Some(who)) else r.(status := Rejected, resolvedBy := Some(who));
      StoreApprovalInv(s, after);
      var mid := StoreApproval(s, after);
      ReleaseEffect(mid, r.taskId, WAITING_FOR_APPROVAL, r.attemptId, READY, None);
      ReleaseEffect(mid, r.taskId, WAITING_FOR_APPROVAL, r.attemptId, BLOCKED, Some("approval_rejected"));
      SameActivity(s, mid, r.taskId, r.attemptId);
    }
  }

  lemma SameActivity(s: RunState, u: RunState, id: Name, attemptId: Name)
    requires OnlyRequestsDiffer(s, u)
    ensures AnotherActive(s, id, attemptId) <==> AnotherActive(u, id, attemptId)
    ensures forall v :: SameAround(u, v) ==> v.humanRequests == u.humanRequests && v.approvalRequests == u.approvalRequests
  {
    hide AttemptList;
    forall a ensures AttemptOf(s, a, id) <==> AttemptOf(u, a, id) {
    }
  }

  // ---------------------------------------------------------------- an attempt's end and its task's

  /** A recorded failure leaves (ORPHANED, BLOCKED with the reason) if it is recoverable, else
      (ERRORED, FAILED), and the run failed with the task. */
  lemma FailureEffect(s: RunState, id: Name, a: Name, reason: string, recoverable: bool)
    requires Inv(s) && id in s.tasksById && a in s.attemptsById && FinalizeFailure(s, id, a, reason, recoverable).reply.Ok?
    ensures var u := FinalizeFailure(s, id, a, reason, recoverable).state;
            && u.attemptsById == s.attemptsById[a := s.attemptsById[a].(state := if recoverable then ORPHANED else ERRORED)]
            && (recoverable ==> TaskTurned(s, u, id, BLOCKED, Some(reason)) && u.graph.run == s.graph.run)
            && (!recoverable ==> TaskTurned(s, u, id, FAILED, None) && RunEnded(s.graph.run, u.graph.run, RunFailed))
  {
    hide Inv, MoveAttempt, BlockTask, FailTask, RunEnded;
    var to := if recoverable then ORPHANED else ERRORED;
    MoveAttemptEffect(s, a, to);
    MoveAttemptInv(s, a, to);
    BlockTaskEffect(MoveAttempt(s, a, to).state, id, reason);
    FailTaskEffect(MoveAttempt(s, a, to).state, id, reason);
  }

  /** A recorded success leaves (SUCCEEDED, COMPLETED), and the run completed if it was the last. */
  lemma SuccessEffect(s: RunState, id: Name, a: Name)
    requires Inv(s) && id in s.tasksById && a in s.attemptsById && FinalizeSuccess(s, id, a).reply.Ok?
    ensures var u := FinalizeSuccess(s, id, a).state;
            && u.attemptsById == s.attemptsById[a := s.attemptsById[a].(state := SUCCEEDED)]
            && TaskTurned(s, u, id, COMPLETED, None)
            && (EveryTaskCompleted(u) ==> RunEnded(s.graph.run, u.graph.run, RunCompleted))
            && (!EveryTaskCompleted(u) ==> u.graph.run == s.graph.run)
  {
    hide Inv, MoveAttempt, CompleteTask, RunEnded, EveryTaskCompleted;
    MoveAttemptEffect(s, a, SUCCEEDED);
    MoveAttemptInv(s, a, SUCCEEDED);
    CompleteTaskEffect(MoveAttempt(s, a, SUCCEEDED).state, id);
  }

  // ---------------------------------------------------------------- appending

  /** An accepted batch comes after the old tasks and edges, and the run is live again. */
  lemma AppendEffect(s: RunState, tasks: seq<Task>, edges: seq<Edge>)
    requires Inv(s) && tasks != [] && CleanBatch(s, tasks, edges)
    ensures var o := AddDynamicTasks(s, tasks, edges);
            if (exists i :: 0 <= i < |tasks| && (tasks[i].id in s.tasksById || tasks[i].key in s.tasksByKey))
               || (exists i :: 0 <= i < |edges| && edges[i].from !in s.tasksById && edges[i].from !in TaskIds(tasks))
            then Refused(s, o)
            else
              && o.reply == Ok(tasks) && o.state.graph.tasks == s.graph.tasks + tasks && o.state.graph.edges == s.graph.edges + edges
              && o.state.graph.run == s.graph.run.(revision := s.graph.run.revision + 1, status := RunRunning, ended := false)
              && o.state.graphRevision == s.graphRevision + 1
              && o.state.attemptsById == s.attemptsById && o.state.attemptsByTask == s.attemptsByTask
              && o.state.humanRequests == s.humanRequests && o.state.approvalRequests == s.approvalRequests
  {
    hide GraphOk, Safe, Numbered, OneActive, HumanOk, ApprovalsOk, RequestsOwned, StatusOk, AddById, AddByKey, Distinct, Unrepeated, NoAlias, Owned;
    assert forall x :: x in Elements(TaskIds(s.graph.tasks)) <==> x in s.tasksById;
    assert forall i | 0 <= i < |edges| :: edges[i].to in Elements(TaskIds(tasks));
    assert forall x :: x in Elements(TaskIds(tasks)) <==> x in TaskIds(tasks);
  }
}
