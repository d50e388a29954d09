/** The domain records and the two state-transition tables.  Titles, descriptions, JSON payloads
    and timestamps are folded into an uninterpreted `payload`. */
module Records {
  import opened Names
  import opened Wrappers

  datatype TaskState =
    | CREATED | READY | IN_PROGRESS | WAITING_FOR_DEPENDENCY | WAITING_FOR_HUMAN
    | WAITING_FOR_APPROVAL | BLOCKED | COMPLETED | FAILED | CANCELLED

  datatype AttemptState =
    | QUEUED | DISPATCHING | RUNNING | PAUSED | NEEDS_INPUT | SUCCEEDED | ERRORED | ABORTED | ORPHANED

  datatype RunStatus = RunCreated | RunRunning | RunWaiting | RunCompleted | RunFailed | RunCancelled

  datatype RequestStatus = Open | Answered | RequestCancelled
  datatype RequestKind = Clarification | Approval | Blocker | StateTransitionRequest
  datatype ApprovalStatus = Requested | Approved | Rejected | ApprovalCancelled

  function AllowedTask(from: TaskState): set<TaskState> {
    match from
    case CREATED => {READY, CANCELLED, WAITING_FOR_DEPENDENCY}
    case READY => {IN_PROGRESS, WAITING_FOR_HUMAN, WAITING_FOR_APPROVAL, BLOCKED, FAILED, CANCELLED}
    case IN_PROGRESS => {WAITING_FOR_HUMAN, WAITING_FOR_APPROVAL, BLOCKED, COMPLETED, FAILED, CANCELLED}
    case WAITING_FOR_DEPENDENCY => {READY, CANCELLED}
    case WAITING_FOR_HUMAN => {READY, BLOCKED, CANCELLED}
    case WAITING_FOR_APPROVAL => {READY, BLOCKED, CANCELLED}
    case BLOCKED => {READY, FAILED, CANCELLED}
    case COMPLETED => {}
    case FAILED => {}
    case CANCELLED => {}
  }

  function AllowedAttempt(from: AttemptState): set<AttemptState> {
    match from
    case QUEUED => {DISPATCHING, ABORTED}
    case DISPATCHING => {RUNNING, ERRORED, ORPHANED}
    case RUNNING => {PAUSED, NEEDS_INPUT, SUCCEEDED, ERRORED, ORPHANED, ABORTED}
    case PAUSED => {RUNNING, ABORTED, ORPHANED}
    case NEEDS_INPUT => {PAUSED, RUNNING, ABORTED}
    case SUCCEEDED => {}
    case ERRORED => {}
    case ABORTED => {}
    case ORPHANED => {}
  }

  predicate ActiveState(s: AttemptState) {
    s in {QUEUED, DISPATCHING, RUNNING, PAUSED, NEEDS_INPUT}
  }

  /** States a task may be in before its hard dependencies are complete. */
  predicate Unstarted(s: TaskState) {
    s == CREATED || s == WAITING_FOR_DEPENDENCY
  }

  datatype Task = Task(id: Name, runId: Name, key: Name, state: TaskState, blockReason: Option<string>, payload: string) {
    function Transition(to: TaskState, reason: Option<string>): Result<Task> {
      if to !in AllowedTask(state) then Err(StateTransition)
      else Ok(this.(state := to, blockReason := if to == BLOCKED then reason else None))
    }
  }

  datatype Attempt = Attempt(id: Name, taskId: Name, number: int, state: AttemptState, leaseKey: Option<Name>, payload: string) {
    function Transition(to: AttemptState): Result<Attempt> {
      if to !in AllowedAttempt(state) then Err(StateTransition) else Ok(this.(state := to))
    }
  }

  datatype Edge = Edge(id: Name, runId: Name, from: Name, to: Name, hard: bool)

  datatype Run = Run(id: Name, revision: int, status: RunStatus, started: bool, ended: bool, payload: string)

  datatype Graph = Graph(run: Run, tasks: seq<Task>, edges: seq<Edge>)

  datatype HumanRequest = HumanRequest(
    id: Name, runId: Name, taskId: Name, attemptId: Name, kind: RequestKind, question: string,
    context: string, status: RequestStatus, answer: Option<string>, answeredBy: Option<string>)

  datatype ApprovalRequest = ApprovalRequest(
    id: Name, runId: Name, taskId: Name, attemptId: Name, approvalType: string, reason: string,
    status: ApprovalStatus, resolvedBy: Option<string>)

  datatype ArtifactStatus = Draft | Final | Superseded | Archived

  datatype Artifact = Artifact(
    id: Name, runId: Name, taskId: Name, role: string, kind: string, status: ArtifactStatus, version: int,
    createdAt: int, draftVisible: bool, payload: string)

  datatype Event = Event(id: Name, runId: Name, sequenceNo: int, payload: string)

  function TaskIds(tasks: seq<Task>): (r: seq<Name>)
    ensures |r| == |tasks|
  {
    seq(|tasks|, i requires 0 <= i < |tasks| => tasks[i].id)
  }

  function TaskKeys(tasks: seq<Task>): (r: seq<Name>)
    ensures |r| == |tasks|
  {
    seq(|tasks|, i requires 0 <= i < |tasks| => tasks[i].key)
  }

  function EdgeIds(edges: seq<Edge>): (r: seq<Name>)
    ensures |r| == |edges|
  {
    seq(|edges|, i requires 0 <= i < |edges| => edges[i].id)
  }

  /** `WorkflowGraph.validate_edges`: every edge joins two known tasks. */
  predicate ValidEdges(tasks: seq<Task>, edges: seq<Edge>) {
    forall i | 0 <= i < |edges| :: edges[i].from in TaskIds(tasks) && edges[i].to in TaskIds(tasks)
  }
}
