/** A run's state as a value (orchestration/state.py). */
module RunModel {
  import opened Names
  import opened Wrappers
  import opened Sequences
  import opened Digraph
  import opened Records
  import opened DependencyGraph

  // What every method of the run does to the state, raising paths included.  The class
  // `WorkflowRunState` is proved against these functions; the invariants and whole-run theorems
  // are proved about them in `RunInvariant` and `RunHistory`.

  datatype RunState = RunState(
    graph: Graph,
    tasksById: map<Name, Task>,
    tasksByKey: map<Name, Name>,
    attemptsById: map<Name, Attempt>,
    attemptsByTask: map<Name, seq<Name>>,
    humanRequests: map<Name, HumanRequest>,
    approvalRequests: map<Name, ApprovalRequest>,
    graphRevision: int)

  /** A method returns or raises, and either way leaves a state behind. */
  datatype Outcome<T> = Outcome(state: RunState, reply: Result<T>)

  // ---------------------------------------------------------------- construction and lookup

  /** Write every task under its id, in order: a later entry replaces an earlier one. */
  function AddById(m: map<Name, Task>, tasks: seq<Task>): map<Name, Task> {
    if tasks == [] then m else AddById(m, tasks[..|tasks| - 1])[tasks[|tasks| - 1].id := tasks[|tasks| - 1]]
  }

  function AddByKey(m: map<Name, Name>, tasks: seq<Task>): map<Name, Name> {
    if tasks == [] then m else AddByKey(m, tasks[..|tasks| - 1])[tasks[|tasks| - 1].key := tasks[|tasks| - 1].id]
  }

  function FromGraph(g: Graph): RunState {
    RunState(g, AddById(map[], g.tasks), AddByKey(map[], g.tasks), map[], map[], map[], map[], g.run.revision)
  }

  /** `task()`: a string is tried as a key first, then as an id. */
  function Lookup(s: RunState, ref: Name): Result<Name> {
    var id := if ref in s.tasksByKey then s.tasksByKey[ref] else ref;
    if id in s.tasksById then Ok(id) else Err(UnknownKey)
  }

  // ---------------------------------------------------------------- hard dependencies

  /** All hard predecessors of `id` are COMPLETED. */
  ghost predicate DepsDone(edges: seq<Edge>, tasksById: map<Name, Task>, id: Name) {
    forall i | 0 <= i < |edges| && edges[i].hard && edges[i].to == id ::
      edges[i].from in tasksById && tasksById[edges[i].from].state == COMPLETED
  }

  ghost predicate Done(s: RunState, id: Name) {
    DepsDone(s.graph.edges, s.tasksById, id)
  }

  /** The state in which a task could be started now or promoted first. */
  ghost predicate Runnable(s: RunState, id: Name) {
    && id in s.tasksById
    && (Unstarted(s.tasksById[id].state) || s.tasksById[id].state == READY)
    && Done(s, id)
  }

  // ---------------------------------------------------------------- small updates

  function Refresh(tasks: seq<Task>, tasksById: map<Name, Task>): (r: seq<Task>)
    ensures |r| == |tasks|
  {
    seq(|tasks|, i requires 0 <= i < |tasks| => if tasks[i].id in tasksById then tasksById[tasks[i].id] else tasks[i])
  }

  /** `update_task` */
  function SetTask(s: RunState, t: Task): RunState {
    var tasksById := s.tasksById[t.id := t];
    s.(tasksById := tasksById, tasksByKey := s.tasksByKey[t.key := t.id],
       graph := s.graph.(tasks := Refresh(s.graph.tasks, tasksById)))
  }

  function SetRun(s: RunState, run: Run): RunState {
    s.(graph := s.graph.(run := run))
  }

  function MarkRunning(s: RunState): RunState {
    if s.graph.run.status == RunRunning then s
    else SetRun(s, s.graph.run.(status := RunRunning, started := true))
  }

  function MarkCompleted(s: RunState): RunState {
    SetRun(s, s.graph.run.(status := RunCompleted, ended := true))
  }

  function MarkFailed(s: RunState): RunState {
    SetRun(s, s.graph.run.(status := RunFailed, ended := true))
  }

  function MoveTask(s: RunState, id: Name, to: TaskState, reason: Option<string>): Outcome<Task>
    requires id in s.tasksById
  {
    match s.tasksById[id].Transition(to, reason)
    case Ok(t) => Outcome(SetTask(s, t), Ok(t))
    case Err(e) => Outcome(s, Err(e))
  }

  // ---------------------------------------------------------------- dynamic tasks

  ghost predicate NewToRun(s: RunState, tasks: seq<Task>) {
    forall i | 0 <= i < |tasks| :: tasks[i].id !in s.tasksById && tasks[i].key !in s.tasksByKey
  }

  ghost predicate EndpointsIn(ids: set<Name>, edges: seq<Edge>) {
    forall i | 0 <= i < |edges| :: edges[i].from in ids && edges[i].to in ids
  }

  ghost predicate Appendable(s: RunState, tasks: seq<Task>, edges: seq<Edge>) {
    NewToRun(s, tasks) && EndpointsIn(Elements(TaskIds(s.graph.tasks)) + Elements(TaskIds(tasks)), edges)
  }

  function Appended(s: RunState, tasks: seq<Task>, edges: seq<Edge>): RunState {
    var revision := (if s.graphRevision >= s.graph.run.revision then s.graphRevision else s.graph.run.revision) + 1;
    s.(tasksById := AddById(s.tasksById, tasks),
       tasksByKey := AddByKey(s.tasksByKey, tasks),
       graphRevision := revision,
       graph := Graph(s.graph.run.(revision := revision, status := RunRunning, ended := false),
                      s.graph.tasks + tasks, s.graph.edges + edges))
  }

  ghost function AddDynamicTasks(s: RunState, tasks: seq<Task>, edges: seq<Edge>): Outcome<seq<Task>> {
    if tasks == [] then Outcome(s, Ok([]))
    else if !Appendable(s, tasks, edges) then Outcome(s, Err(StateTransition))
    else Outcome(Appended(s, tasks, edges), Ok(tasks))
  }

  // ---------------------------------------------------------------- attempts

  function AttemptList(s: RunState, taskId: Name): seq<Name> {
    if taskId in s.attemptsByTask then s.attemptsByTask[taskId] else []
  }

  function LastActive(ids: seq<Name>, attempts: map<Name, Attempt>): Option<Name> {
    if ids == [] then None
    else
      var last := ids[|ids| - 1];
      if last in attempts && ActiveState(attempts[last].state) then Some(last)
      else LastActive(ids[..|ids| - 1], attempts)
  }

  function LatestActive(s: RunState, taskId: Name): Option<Name> {
    LastActive(AttemptList(s, taskId), s.attemptsById)
  }

  function RecordAttempt(s: RunState, a: Attempt): RunState {
    var ids := AttemptList(s, a.taskId);
    s.(attemptsById := s.attemptsById[a.id := a],
       attemptsByTask := s.attemptsByTask[a.taskId := if a.id in ids then ids else ids + [a.id]])
  }

  function OpenAttempt(s: RunState, ref: Name, freshId: Name, leaseKey: Option<Name>, payload: string): Outcome<Attempt> {
    match Lookup(s, ref)
    case Err(e) => Outcome(s, Err(e))
    case Ok(id) =>
      if LatestActive(s, id).Some? then Outcome(s, Err(StateTransition))
      else
        var a := Attempt(freshId, id, |AttemptList(s, id)| + 1, QUEUED, leaseKey, payload);
        Outcome(RecordAttempt(s, a), Ok(a))
  }

  function MoveAttempt(s: RunState, id: Name, to: AttemptState): Outcome<Attempt> {
    if id !in s.attemptsById then Outcome(s, Err(UnknownKey))
    else
      match s.attemptsById[id].Transition(to)
      case Ok(a) => Outcome(s.(attemptsById := s.attemptsById[id := a]), Ok(a))
      case Err(e) => Outcome(s, Err(e))
  }

  function DispatchAttempt(s: RunState, id: Name): Outcome<Attempt> {
    var o := MoveAttempt(s, id, DISPATCHING);
    if o.reply.Ok? then o.(state := MarkRunning(o.state)) else o
  }

  /** `start_attempt` and `resume_attempt`: a queued attempt passes through DISPATCHING. */
  function StartAttempt(s: RunState, id: Name): Outcome<Attempt> {
    if id !in s.attemptsById then Outcome(s, Err(UnknownKey))
    else
      var a := s.attemptsById[id];
      var ready := if a.state == QUEUED then a.(state := DISPATCHING) else a;
      match ready.Transition(RUNNING)
      case Ok(b) => Outcome(MarkRunning(s.(attemptsById := s.attemptsById[id := b])), Ok(b))
      case Err(e) => Outcome(s, Err(e))
  }

  function FailAttempt(s: RunState, id: Name, recoverable: bool): Outcome<Attempt> {
    MoveAttempt(s, id, if recoverable then ORPHANED else ERRORED)
  }

  // ---------------------------------------------------------------- tasks

  /** Where promotion leaves one task, judged in the state before the call. */
  ghost function PromotedTask(s: RunState, t: Task): (r: Task)
    ensures r.id == t.id && r.key == t.key && r.runId == t.runId
  {
    if !Unstarted(t.state) then t
    else if Done(s, t.id) then t.(state := READY, blockReason := None)
    else if t.state == CREATED then t.(state := WAITING_FOR_DEPENDENCY, blockReason := None)
    else t
  }

  /** Promote exactly the tasks in `chosen`, each judged in the state before. */
  ghost function PromoteSome(s: RunState, chosen: set<Name>): RunState {
    s.(tasksById := map x | x in s.tasksById :: if x in chosen then PromotedTask(s, s.tasksById[x]) else s.tasksById[x],
       graph := s.graph.(tasks := seq(|s.graph.tasks|, i requires 0 <= i < |s.graph.tasks| =>
         if s.graph.tasks[i].id in chosen then PromotedTask(s, s.graph.tasks[i]) else s.graph.tasks[i])))
  }

  /** `promote_ready_tasks`: every task moves at once. */
  ghost function Promote(s: RunState): RunState {
    PromoteSome(s, s.tasksById.Keys)
  }

  ghost function Select(order: seq<Name>, chosen: iset<Name>): seq<Name> {
    if order == [] then []
    else
      var last := order[|order| - 1];
      Select(order[..|order| - 1], chosen) + if last in chosen then [last] else []
  }

  ghost function RunnableSet(s: RunState): iset<Name> {
    iset x | Runnable(s, x)
  }

  /** The topological order of the run's graph; empty if the sort raises. */
  ghost function TaskOrder(s: RunState): seq<Name> {
    var o := Order(TaskIds(s.graph.tasks), s.graph.edges);
    if o.Ok? then o.value else []
  }

  /** Ids of the tasks `promote_ready_tasks` returns, in order. */
  ghost function PromotedIds(s: RunState): seq<Name> {
    Select(TaskOrder(s), RunnableSet(s))
  }

  ghost function StartTask(s: RunState, ref: Name): Outcome<Task> {
    match Lookup(s, ref)
    case Err(e) => Outcome(s, Err(e))
    case Ok(id) =>
      if s.tasksById[id].state != READY || !Done(s, id) then Outcome(s, Err(StateTransition))
      else
        var t := s.tasksById[id].(state := IN_PROGRESS, blockReason := None);
        Outcome(SetTask(MarkRunning(s), t), Ok(t))
  }

  function FailTask(s: RunState, ref: Name, reason: string): Outcome<Task> {
    match Lookup(s, ref)
    case Err(e) => Outcome(s, Err(e))
    case Ok(id) =>
      if s.tasksById[id].state !in {READY, IN_PROGRESS, WAITING_FOR_DEPENDENCY, WAITING_FOR_HUMAN, WAITING_FOR_APPROVAL, BLOCKED}
      then Outcome(s, Err(StateTransition))
      else
        var o := MoveTask(s, id, FAILED, Some(reason));
        if o.reply.Ok? then o.(state := MarkFailed(o.state)) else o
  }

  function UnblockTask(s: RunState, ref: Name): Outcome<Task> {
    match Lookup(s, ref)
    case Err(e) => Outcome(s, Err(e))
    case Ok(id) =>
      if s.tasksById[id].state != BLOCKED then Outcome(s, Err(StateTransition)) else MoveTask(s, id, READY, None)
  }

  function BlockTask(s: RunState, ref: Name, reason: string): Outcome<Task> {
    match Lookup(s, ref)
    case Err(e) => Outcome(s, Err(e))
    case Ok(id) =>
      if s.tasksById[id].state !in {READY, IN_PROGRESS, WAITING_FOR_DEPENDENCY, WAITING_FOR_HUMAN, WAITING_FOR_APPROVAL}
      then Outcome(s, Err(StateTransition))
      else MoveTask(s, id, BLOCKED, Some(reason))
  }

  ghost predicate AllCompleted(s: RunState) {
    forall x | x in s.tasksById :: s.tasksById[x].state == COMPLETED
  }

  /** A READY task passes through IN_PROGRESS; the last completion completes the run. */
  ghost function CompleteTask(s: RunState, ref: Name): Outcome<Task> {
    match Lookup(s, ref)
    case Err(e) => Outcome(s, Err(e))
    case Ok(id) =>
      if !Done(s, id) || s.tasksById[id].state !in {READY, IN_PROGRESS} then Outcome(s, Err(StateTransition))
      else
        var t := s.tasksById[id].(state := COMPLETED, blockReason := None);
        var s' := SetTask(s, t);
        Outcome(if AllCompleted(s') then MarkCompleted(s') else s', Ok(t))
  }

  // ---------------------------------------------------------------- human and approval requests

  ghost predicate OpenClarification(s: RunState, r: Name, taskId: Name) {
    && r in s.humanRequests && s.humanRequests[r].taskId == taskId
    && s.humanRequests[r].kind == Clarification && s.humanRequests[r].status == Open
  }

  ghost predicate OpenApproval(s: RunState, r: Name, taskId: Name, approvalType: string) {
    && r in s.approvalRequests && s.approvalRequests[r].taskId == taskId
    && s.approvalRequests[r].approvalType == approvalType && s.approvalRequests[r].status == Requested
  }

  /** The request a clarification call stores: the open one reworded, or a new one. */
  ghost function ClarificationToStore(s: RunState, taskId: Name, attemptId: Name, question: string, context: string, freshId: Name): HumanRequest {
    if exists r :: OpenClarification(s, r, taskId) then
      var r :| OpenClarification(s, r, taskId);
      s.humanRequests[r].(question := question, context := context)
    else HumanRequest(freshId, s.graph.run.id, taskId, attemptId, Clarification, question, context, Open, None, None)
  }

  ghost function ApprovalToStore(s: RunState, taskId: Name, attemptId: Name, approvalType: string, reason: string, freshId: Name): ApprovalRequest {
    if exists r :: OpenApproval(s, r, taskId, approvalType) then
      var r :| OpenApproval(s, r, taskId, approvalType);
      s.approvalRequests[r].(reason := reason)
    else ApprovalRequest(freshId, s.graph.run.id, taskId, attemptId, approvalType, reason, Requested, None)
  }

  /** Park a task unless it is parked already; used after the request has been stored. */
  function Park<T>(s: RunState, id: Name, to: TaskState, answer: T): Outcome<T>
    requires id in s.tasksById
  {
    if s.tasksById[id].state == to then Outcome(s, Ok(answer))
    else
      var o := MoveTask(s, id, to, None);
      Outcome(o.state, if o.reply.Ok? then Ok(answer) else Err(o.reply.error))
  }

  /** The request is stored before the task transition that may raise. */
  ghost function RequestClarification(s: RunState, ref: Name, attemptId: Name, question: string, context: string, freshId: Name): Outcome<HumanRequest> {
    match Lookup(s, ref)
    case Err(e) => Outcome(s, Err(e))
    case Ok(id) =>
      var r := ClarificationToStore(s, id, attemptId, question, context, freshId);
      Park(StoreHuman(s, r), id, WAITING_FOR_HUMAN, r)
  }

  ghost function RequestApproval(s: RunState, ref: Name, attemptId: Name, approvalType: string, reason: string, freshId: Name): Outcome<ApprovalRequest> {
    match Lookup(s, ref)
    case Err(e) => Outcome(s, Err(e))
    case Ok(id) =>
      var r := ApprovalToStore(s, id, attemptId, approvalType, reason, freshId);
      Park(StoreApproval(s, r), id, WAITING_FOR_APPROVAL, r)
  }

  /** After a request is settled, the parked task moves on unless another attempt is active. */
  function Release(s: RunState, id: Name, parked: TaskState, attemptId: Name, to: TaskState, reason: Option<string>): RunState
    requires id in s.tasksById
  {
    var active := LatestActive(s, id);
    if s.tasksById[id].state == parked && (active == None || active == Some(attemptId)) then MoveTask(s, id, to, reason).state
    else s
  }

  function StoreHuman(s: RunState, r: HumanRequest): RunState {
    s.(humanRequests := s.humanRequests[r.id := r])
  }

  function StoreApproval(s: RunState, r: ApprovalRequest): RunState {
    s.(approvalRequests := s.approvalRequests[r.id := r])
  }

  function AnswerHumanRequest(s: RunState, requestId: Name, answer: string, who: string): Outcome<HumanRequest> {
    if requestId !in s.humanRequests then Outcome(s, Err(UnknownKey))
    else
      match Lookup(s, s.humanRequests[requestId].taskId)
      case Err(e) => Outcome(s, Err(e))
      case Ok(id) =>
        var r := s.humanRequests[requestId].(status := Answered, answer := Some(answer), answeredBy := Some(who));
        Outcome(Release(StoreHuman(s, r), id, WAITING_FOR_HUMAN, r.attemptId, READY, None), Ok(r))
  }

  function ResolveApproval(s: RunState, requestId: Name, approved: bool, who: string): Outcome<ApprovalRequest> {
    if requestId !in s.approvalRequests then Outcome(s, Err(UnknownKey))
    else
      match Lookup(s, s.approvalRequests[requestId].taskId)
      case Err(e) => Outcome(s, Err(e))
      case Ok(id) =>
        var r := s.approvalRequests[requestId].(status := if approved then Approved else Rejected, resolvedBy := Some(who));
        var to, reason := if approved then READY else BLOCKED, if approved then None else Some("approval_rejected");
        Outcome(Release(StoreApproval(s, r), id, WAITING_FOR_APPROVAL, r.attemptId, to, reason), Ok(r))
  }
}
