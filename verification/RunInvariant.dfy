/** The whole-run invariant: what holds in every state a workflow run can reach, whatever order
    its methods are called in and whether they return or raise. */
module RunInvariant {
  import opened Names
  import opened Wrappers
  import opened Sequences
  import opened Digraph
  import opened Records
  import opened DependencyGraph
  import opened RunModel

  // ---------------------------------------------------------------- the invariant

  /** A key that is also a task id names that very task. */
  ghost predicate NoAlias(tasks: seq<Task>) {
    forall i, j | 0 <= i < |tasks| && 0 <= j < |tasks| && tasks[i].key == tasks[j].id :: i == j
  }

  ghost predicate Owned(runId: Name, tasks: seq<Task>, edges: seq<Edge>) {
    && (forall i | 0 <= i < |tasks| :: tasks[i].runId == runId)
    && (forall i | 0 <= i < |edges| :: edges[i].runId == runId)
  }

  /** Unique ids and keys, known endpoints, no repeated hard edge, no cycle. */
  ghost predicate GraphOk(runId: Name, tasks: seq<Task>, edges: seq<Edge>) {
    && Distinct(TaskIds(tasks)) && Distinct(TaskKeys(tasks)) && Distinct(EdgeIds(edges))
    && NoAlias(tasks) && Owned(runId, tasks, edges)
    && EndpointsIn(Elements(TaskIds(tasks)), edges)
    && Unrepeated(edges) && Acyclic(HardArcs(edges))
  }

  /** The task dictionaries are exact indexes of the graph's task list. */
  ghost predicate Indexed(tasks: seq<Task>, byId: map<Name, Task>, byKey: map<Name, Name>) {
    && byId.Keys == Elements(TaskIds(tasks))
    && byKey.Keys == Elements(TaskKeys(tasks))
    && forall i | 0 <= i < |tasks| ::
         && tasks[i].id in byId && byId[tasks[i].id] == tasks[i]
         && tasks[i].key in byKey && byKey[tasks[i].key] == tasks[i].id
  }

  /** Dependency safety: a task has left CREATED and WAITING_FOR_DEPENDENCY only if all its hard
      predecessors are COMPLETED. */
  ghost predicate Safe(edges: seq<Edge>, byId: map<Name, Task>) {
    forall id | id in byId && !Unstarted(byId[id].state) :: DepsDone(edges, byId, id)
  }

  /** An attempt stands in its task's list at the position its number says. */
  ghost predicate Entry(taskIds: set<Name>, attempts: map<Name, Attempt>, byTask: map<Name, seq<Name>>, a: Name)
    requires a in attempts
  {
    var r := attempts[a];
    && r.id == a && r.taskId in taskIds && r.taskId in byTask
    && 1 <= r.number <= |byTask[r.taskId]| && byTask[r.taskId][r.number - 1] == a
  }

  ghost predicate Slot(attempts: map<Name, Attempt>, t: Name, i: nat, a: Name) {
    a in attempts && attempts[a].taskId == t && attempts[a].number == i + 1
  }

  /** The per-task list is exact and an attempt's number is its position in it. */
  ghost predicate Numbered(taskIds: set<Name>, attempts: map<Name, Attempt>, byTask: map<Name, seq<Name>>) {
    && (forall t | t in byTask :: t in taskIds)
    && (forall a | a in attempts :: Entry(taskIds, attempts, byTask, a))
    && (forall t, i: nat | t in byTask && i < |byTask[t]| :: Slot(attempts, t, i, byTask[t][i]))
  }

  ghost predicate OneActive(attempts: map<Name, Attempt>) {
    forall a, b | a in attempts && b in attempts && attempts[a].taskId == attempts[b].taskId
      && ActiveState(attempts[a].state) && ActiveState(attempts[b].state) :: a == b
  }

  /** Requests name known tasks, and at most one of a kind is open per task. */
  ghost predicate HumanOk(taskIds: set<Name>, m: map<Name, HumanRequest>) {
    && (forall r | r in m :: m[r].id == r && m[r].taskId in taskIds)
    && (forall r, q | r in m && q in m && m[r].taskId == m[q].taskId && m[r].kind == m[q].kind
          && m[r].status == Open && m[q].status == Open :: r == q)
  }

  ghost predicate ApprovalsOk(taskIds: set<Name>, m: map<Name, ApprovalRequest>) {
    && (forall r | r in m :: m[r].id == r && m[r].taskId in taskIds)
    && (forall r, q | r in m && q in m && m[r].taskId == m[q].taskId && m[r].approvalType == m[q].approvalType
          && m[r].status == Requested && m[q].status == Requested :: r == q)
  }

  /** Requests carry the id of the run they were made in. */
  ghost predicate RequestsOwned(runId: Name, humans: map<Name, HumanRequest>, approvals: map<Name, ApprovalRequest>) {
    && (forall r | r in humans :: humans[r].runId == runId)
    && (forall r | r in approvals :: approvals[r].runId == runId)
  }

  /** COMPLETED only if every task is; FAILED only if some task is. */
  ghost predicate StatusOk(status: RunStatus, byId: map<Name, Task>) {
    && (status == RunCompleted ==> forall x | x in byId :: byId[x].state == COMPLETED)
    && (status == RunFailed ==> exists x :: x in byId && byId[x].state == FAILED)
  }

  /** The whole-run invariant, named as one fact so that it is carried as one fact. */
  ghost predicate Inv(s: RunState) {
    var sound :=
      && GraphOk(s.graph.run.id, s.graph.tasks, s.graph.edges)
      && Indexed(s.graph.tasks, s.tasksById, s.tasksByKey)
      && s.graphRevision == s.graph.run.revision
      && Safe(s.graph.edges, s.tasksById)
      && Numbered(s.tasksById.Keys, s.attemptsById, s.attemptsByTask)
      && OneActive(s.attemptsById)
      && HumanOk(s.tasksById.Keys, s.humanRequests)
      && ApprovalsOk(s.tasksById.Keys, s.approvalRequests)
      && RequestsOwned(s.graph.run.id, s.humanRequests, s.approvalRequests)
      && StatusOk(s.graph.run.status, s.tasksById);
    sound
  }

  // ---------------------------------------------------------------- starting states

  lemma {:induction false} AddByIdFacts(m: map<Name, Task>, tasks: seq<Task>)
    ensures AddById(m, tasks).Keys == m.Keys + Elements(TaskIds(tasks))
    ensures forall x | x in m && x !in TaskIds(tasks) :: AddById(m, tasks)[x] == m[x]
  {
    if tasks != [] {
      var front, last := tasks[..|tasks| - 1], tasks[|tasks| - 1];
      AddByIdFacts(m, front);
      assert TaskIds(tasks) == TaskIds(front) + [last.id];
    }
  }

  lemma {:induction false} AddByIdAt(m: map<Name, Task>, tasks: seq<Task>, i: nat)
    requires Distinct(TaskIds(tasks)) && i < |tasks|
    ensures tasks[i].id in AddById(m, tasks) && AddById(m, tasks)[tasks[i].id] == tasks[i]
  {
    var n := |tasks| - 1;
    assert TaskIds(tasks[..n]) == TaskIds(tasks)[..n];
    if i < n {
      AddByIdAt(m, tasks[..n], i);
      assert TaskIds(tasks)[i] != TaskIds(tasks)[n];
    }
  }

  lemma {:induction false} AddByKeyFacts(m: map<Name, Name>, tasks: seq<Task>)
    ensures AddByKey(m, tasks).Keys == m.Keys + Elements(TaskKeys(tasks))
    ensures forall x | x in m && x !in TaskKeys(tasks) :: AddByKey(m, tasks)[x] == m[x]
  {
    if tasks != [] {
      var front, last := tasks[..|tasks| - 1], tasks[|tasks| - 1];
      AddByKeyFacts(m, front);
      assert TaskKeys(tasks) == TaskKeys(front) + [last.key];
    }
  }

  lemma {:induction false} AddByKeyAt(m: map<Name, Name>, tasks: seq<Task>, i: nat)
    requires Distinct(TaskKeys(tasks)) && i < |tasks|
    ensures tasks[i].key in AddByKey(m, tasks) && AddByKey(m, tasks)[tasks[i].key] == tasks[i].id
  {
    var n := |tasks| - 1;
    assert TaskKeys(tasks[..n]) == TaskKeys(tasks)[..n];
    if i < n {
      AddByKeyAt(m, tasks[..n], i);
      assert TaskKeys(tasks)[i] != TaskKeys(tasks)[n];
    }
  }

  lemma IndexesOf(tasks: seq<Task>)
    requires Distinct(TaskIds(tasks)) && Distinct(TaskKeys(tasks))
    ensures Indexed(tasks, AddById(map[], tasks), AddByKey(map[], tasks))
  {
    AddByIdFacts(map[], tasks);
    AddByKeyFacts(map[], tasks);
    forall i | 0 <= i < |tasks|
      ensures && tasks[i].id in AddById(map[], tasks) && AddById(map[], tasks)[tasks[i].id] == tasks[i]
              && tasks[i].key in AddByKey(map[], tasks) && AddByKey(map[], tasks)[tasks[i].key] == tasks[i].id
    {
      AddByIdAt(map[], tasks, i);
      AddByKeyAt(map[], tasks, i);
    }
  }

  /** What a stored or compiled graph must look like for a run over it to start well. */
  ghost predicate Startable(g: Graph) {
    && GraphOk(g.run.id, g.tasks, g.edges)
    && Safe(g.edges, AddById(map[], g.tasks))
    && StatusOk(g.run.status, AddById(map[], g.tasks))
  }

  lemma FromGraphInv(g: Graph)
    requires Startable(g)
    ensures Inv(FromGraph(g))
  {
    IndexesOf(g.tasks);
  }

  lemma AllCreatedStartable(g: Graph)
    requires GraphOk(g.run.id, g.tasks, g.edges) && g.run.status == RunCreated
    requires forall i | 0 <= i < |g.tasks| :: g.tasks[i].state == CREATED
    ensures Startable(g)
  {
    IndexesOf(g.tasks);
    forall x | x in AddById(map[], g.tasks) ensures AddById(map[], g.tasks)[x].state == CREATED {
      var i :| 0 <= i < |g.tasks| && TaskIds(g.tasks)[i] == x;
    }
  }

  // ---------------------------------------------------------------- one task changes

  lemma TaskAt(s: RunState, id: Name) returns (i: nat)
    requires Indexed(s.graph.tasks, s.tasksById, s.tasksByKey) && id in s.tasksById
    ensures i < |s.graph.tasks| && s.graph.tasks[i].id == id && s.graph.tasks[i] == s.tasksById[id]
  {
    assert id in Elements(TaskIds(s.graph.tasks));
    i :| 0 <= i < |s.graph.tasks| && TaskIds(s.graph.tasks)[i] == id;
  }

  lemma GraphOkSameShape(runId: Name, a: seq<Task>, b: seq<Task>, edges: seq<Edge>)
    requires GraphOk(runId, a, edges) && |a| == |b|
    requires forall i | 0 <= i < |a| :: a[i].id == b[i].id && a[i].key == b[i].key && a[i].runId == b[i].runId
    ensures GraphOk(runId, b, edges)
    ensures TaskIds(a) == TaskIds(b) && TaskKeys(a) == TaskKeys(b)
  {
    assert TaskIds(a) == TaskIds(b) && TaskKeys(a) == TaskKeys(b);
    forall i, j | 0 <= i < |b| && 0 <= j < |b| && b[i].key == b[j].id ensures i == j {
      assert a[i].key == a[j].id;
    }
  }

  lemma SetTaskTasks(s: RunState, t: Task)
    requires Indexed(s.graph.tasks, s.tasksById, s.tasksByKey)
    requires t.id in s.tasksById
    ensures var after := SetTask(s, t).graph.tasks;
            && |after| == |s.graph.tasks|
            && forall i | 0 <= i < |after| :: after[i] == if s.graph.tasks[i].id == t.id then t else s.graph.tasks[i]
  {
  }

  lemma SetTaskShape(s: RunState, t: Task)
    requires GraphOk(s.graph.run.id, s.graph.tasks, s.graph.edges)
    requires Indexed(s.graph.tasks, s.tasksById, s.tasksByKey)
    requires t.id in s.tasksById && t.key == s.tasksById[t.id].key && t.runId == s.tasksById[t.id].runId
    ensures var after := SetTask(s, t).graph.tasks;
            GraphOk(s.graph.run.id, after, s.graph.edges) && TaskIds(after) == TaskIds(s.graph.tasks) && TaskKeys(after) == TaskKeys(s.graph.tasks)
  {
    SetTaskTasks(s, t);
    GraphOkSameShape(s.graph.run.id, s.graph.tasks, SetTask(s, t).graph.tasks, s.graph.edges);
  }

  lemma SameKeyIndex(s: RunState, t: Task)
    requires Indexed(s.graph.tasks, s.tasksById, s.tasksByKey)
    requires t.id in s.tasksById && t.key == s.tasksById[t.id].key
    ensures s.tasksByKey[t.key := t.id] == s.tasksByKey
  {
    var at := TaskAt(s, t.id);
  }

  lemma SetTaskIndexed(s: RunState, t: Task)
    requires GraphOk(s.graph.run.id, s.graph.tasks, s.graph.edges)
    requires Indexed(s.graph.tasks, s.tasksById, s.tasksByKey)
    requires t.id in s.tasksById && t.key == s.tasksById[t.id].key && t.runId == s.tasksById[t.id].runId
    ensures var u := SetTask(s, t);
            && Indexed(u.graph.tasks, u.tasksById, u.tasksByKey)
            && u.tasksByKey == s.tasksByKey && u.tasksById.Keys == s.tasksById.Keys
  {
    hide GraphOk, Refresh;
    SameKeyIndex(s, t);
    SetTaskTasks(s, t);
    SetTaskShape(s, t);
  }

  /** A change of one task keeps dependencies satisfied as long as it does not undo a completion. */
  lemma DepsDoneKept(edges: seq<Edge>, before: map<Name, Task>, after: map<Name, Task>, id: Name)
    requires DepsDone(edges, before, id)
    requires forall x | x in before && before[x].state == COMPLETED :: x in after && after[x].state == COMPLETED
    ensures DepsDone(edges, after, id)
  {
  }

  /** How a single task may change: it leaves the waiting states only with its dependencies
      done, and final states are final. */
  ghost predicate Permitted(s: RunState, t: Task) {
    && t.id in s.tasksById
    && var old_ := s.tasksById[t.id];
       && t.key == old_.key && t.runId == old_.runId
       && (Unstarted(old_.state) && !Unstarted(t.state) ==> Done(s, t.id))
       && (old_.state == COMPLETED ==> t.state == COMPLETED)
       && (old_.state == FAILED ==> t.state == FAILED)
  }

  lemma SetTaskSafe(s: RunState, t: Task)
    requires Safe(s.graph.edges, s.tasksById) && Permitted(s, t)
    ensures Safe(s.graph.edges, s.tasksById[t.id := t])
  {
    var after := s.tasksById[t.id := t];
    forall id | id in after && !Unstarted(after[id].state) ensures DepsDone(s.graph.edges, after, id) {
      assert DepsDone(s.graph.edges, s.tasksById, id);
      DepsDoneKept(s.graph.edges, s.tasksById, after, id);
    }
  }

  lemma SetTaskStatus(s: RunState, t: Task)
    requires StatusOk(s.graph.run.status, s.tasksById) && Permitted(s, t)
    ensures StatusOk(s.graph.run.status, s.tasksById[t.id := t])
  {
    if s.graph.run.status == RunFailed {
      var x :| x in s.tasksById && s.tasksById[x].state == FAILED;
      assert s.tasksById[t.id := t][x].state == FAILED;
    }
  }

  lemma SetTaskInv(s: RunState, t: Task)
    requires Inv(s) && Permitted(s, t)
    ensures Inv(SetTask(s, t))
    ensures SetTask(s, t).tasksByKey == s.tasksByKey && SetTask(s, t).tasksById.Keys == s.tasksById.Keys
  {
    SetTaskIndexed(s, t);
    SetTaskShape(s, t);
    SetTaskSafe(s, t);
    SetTaskStatus(s, t);
  }

  /** The transition table itself permits every move except those that start a task. */
  lemma MoveTaskInv(s: RunState, id: Name, to: TaskState, reason: Option<string>)
    requires Inv(s) && id in s.tasksById
    requires Unstarted(s.tasksById[id].state) && !Unstarted(to) ==> Done(s, id)
    ensures Inv(MoveTask(s, id, to, reason).state)
  {
    var i := TaskAt(s, id);
    var o := MoveTask(s, id, to, reason);
    if o.reply.Ok? {
      SetTaskInv(s, o.reply.value);
    }
  }

  lemma SetRunInv(s: RunState, run: Run)
    requires Inv(s) && run.id == s.graph.run.id && run.revision == s.graph.run.revision
    requires StatusOk(run.status, s.tasksById)
    ensures Inv(SetRun(s, run))
  {
  }

  lemma LookupId(s: RunState, id: Name)
    requires Inv(s) && id in s.tasksById
    ensures Lookup(s, id) == Ok(id)
  {
    var j := TaskAt(s, id);
    if id in s.tasksByKey {
      assert id in Elements(TaskKeys(s.graph.tasks));
      var i :| 0 <= i < |s.graph.tasks| && TaskKeys(s.graph.tasks)[i] == id;
      assert s.graph.tasks[i].key == s.graph.tasks[j].id;
    }
  }

  // ---------------------------------------------------------------- attempts

  lemma ReplaceAttemptNumbered(taskIds: set<Name>, attempts: map<Name, Attempt>, byTask: map<Name, seq<Name>>, a: Attempt)
    requires Numbered(taskIds, attempts, byTask) && a.id in attempts
    requires a.taskId == attempts[a.id].taskId && a.number == attempts[a.id].number
    ensures Numbered(taskIds, attempts[a.id := a], byTask)
  {
    var after := attempts[a.id := a];
    forall b | b in after ensures Entry(taskIds, after, byTask, b) {
      assert Entry(taskIds, attempts, byTask, b);
    }
    forall t, i: nat | t in byTask && i < |byTask[t]| ensures Slot(after, t, i, byTask[t][i]) {
      assert Slot(attempts, t, i, byTask[t][i]);
    }
  }

  lemma ReplaceAttemptOneActive(attempts: map<Name, Attempt>, a: Attempt)
    requires OneActive(attempts) && a.id in attempts && a.taskId == attempts[a.id].taskId
    requires ActiveState(a.state) ==> ActiveState(attempts[a.id].state)
    ensures OneActive(attempts[a.id := a])
  {
  }

  lemma ReplaceAttemptInv(s: RunState, a: Attempt)
    requires Inv(s) && a.id in s.attemptsById
    requires a.taskId == s.attemptsById[a.id].taskId && a.number == s.attemptsById[a.id].number
    requires ActiveState(a.state) ==> ActiveState(s.attemptsById[a.id].state)
    ensures Inv(s.(attemptsById := s.attemptsById[a.id := a]))
  {
    hide GraphOk, Indexed, Safe, Numbered, OneActive, HumanOk, ApprovalsOk, RequestsOwned, StatusOk;
    ReplaceAttemptNumbered(s.tasksById.Keys, s.attemptsById, s.attemptsByTask, a);
    ReplaceAttemptOneActive(s.attemptsById, a);
  }

  /** The last active entry of the list is the task's only active attempt. */
  lemma {:induction false} LastActiveNone(ids: seq<Name>, attempts: map<Name, Attempt>, i: nat)
    requires LastActive(ids, attempts) == None && i < |ids| && ids[i] in attempts
    ensures !ActiveState(attempts[ids[i]].state)
  {
    if i < |ids| - 1 {
      LastActiveNone(ids[..|ids| - 1], attempts, i);
    }
  }

  lemma {:induction false} LastActiveSome(ids: seq<Name>, attempts: map<Name, Attempt>)
    requires LastActive(ids, attempts).Some?
    ensures var a := LastActive(ids, attempts).value; a in ids && a in attempts && ActiveState(attempts[a].state)
  {
    if ids[|ids| - 1] !in attempts || !ActiveState(attempts[ids[|ids| - 1]].state) {
      LastActiveSome(ids[..|ids| - 1], attempts);
    }
  }

  lemma LatestActiveIs(s: RunState, taskId: Name)
    requires Numbered(s.tasksById.Keys, s.attemptsById, s.attemptsByTask) && LatestActive(s, taskId).Some?
    ensures var a := LatestActive(s, taskId).value;
            a in s.attemptsById && s.attemptsById[a].taskId == taskId && ActiveState(s.attemptsById[a].state)
  {
    var ids := AttemptList(s, taskId);
    LastActiveSome(ids, s.attemptsById);
    var i :| 0 <= i < |ids| && ids[i] == LatestActive(s, taskId).value;
    assert Slot(s.attemptsById, taskId, i, ids[i]);
  }

  lemma LatestActiveFinds(s: RunState, taskId: Name, a: Name)
    requires Numbered(s.tasksById.Keys, s.attemptsById, s.attemptsByTask)
    requires a in s.attemptsById && s.attemptsById[a].taskId == taskId && ActiveState(s.attemptsById[a].state)
    ensures LatestActive(s, taskId).Some?
  {
    assert Entry(s.tasksById.Keys, s.attemptsById, s.attemptsByTask, a);
    if LatestActive(s, taskId) == None {
      LastActiveNone(AttemptList(s, taskId), s.attemptsById, s.attemptsById[a].number - 1);
    }
  }

  /** `_latest_active_attempt_id` finds exactly the task's one active attempt. */
  lemma LatestActiveIff(s: RunState, taskId: Name, a: Name)
    requires Inv(s)
    ensures LatestActive(s, taskId) == Some(a) <==>
              a in s.attemptsById && s.attemptsById[a].taskId == taskId && ActiveState(s.attemptsById[a].state)
  {
    if LatestActive(s, taskId).Some? {
      LatestActiveIs(s, taskId);
    }
    if a in s.attemptsById && s.attemptsById[a].taskId == taskId && ActiveState(s.attemptsById[a].state) {
      LatestActiveFinds(s, taskId, a);
    }
  }

  lemma AppendNumbered(taskIds: set<Name>, attempts: map<Name, Attempt>, byTask: map<Name, seq<Name>>, a: Attempt)
    requires Numbered(taskIds, attempts, byTask) && a.id !in attempts && a.taskId in taskIds
    requires var ids := if a.taskId in byTask then byTask[a.taskId] else []; a.number == |ids| + 1
    ensures var ids := if a.taskId in byTask then byTask[a.taskId] else [];
            Numbered(taskIds, attempts[a.id := a], byTask[a.taskId := ids + [a.id]]) && a.id !in ids
  {
    var ids := if a.taskId in byTask then byTask[a.taskId] else [];
    var attempts', byTask' := attempts[a.id := a], byTask[a.taskId := ids + [a.id]];
    forall b | b in attempts' ensures Entry(taskIds, attempts', byTask', b) {
      if b != a.id {
        assert Entry(taskIds, attempts, byTask, b);
      }
    }
    forall t, i: nat | t in byTask' && i < |byTask'[t]| ensures Slot(attempts', t, i, byTask'[t][i]) {
      if t in byTask && i < |byTask[t]| {
        assert Slot(attempts, t, i, byTask[t][i]);
      }
    }
  }

  lemma AppendOneActive(attempts: map<Name, Attempt>, a: Attempt)
    requires OneActive(attempts)
    requires forall b | b in attempts && attempts[b].taskId == a.taskId :: !ActiveState(attempts[b].state)
    ensures OneActive(attempts[a.id := a])
  {
  }

  lemma OpenAttemptInv(s: RunState, ref: Name, freshId: Name, leaseKey: Option<Name>, payload: string)
    requires Inv(s) && freshId !in s.attemptsById
    ensures Inv(OpenAttempt(s, ref, freshId, leaseKey, payload).state)
  {
    hide GraphOk, Indexed, Safe, Numbered, OneActive, HumanOk, ApprovalsOk, RequestsOwned, StatusOk, ActiveState, LatestActive;
    var o := OpenAttempt(s, ref, freshId, leaseKey, payload);
    if o.reply.Ok? {
      var a := o.reply.value;
      AppendNumbered(s.tasksById.Keys, s.attemptsById, s.attemptsByTask, a);
      forall b | b in s.attemptsById && s.attemptsById[b].taskId == a.taskId ensures !ActiveState(s.attemptsById[b].state) {
        LatestActiveIff(s, a.taskId, b);
      }
      AppendOneActive(s.attemptsById, a);
    }
  }

  // ---------------------------------------------------------------- requests

  lemma StoreHumanOk(taskIds: set<Name>, m: map<Name, HumanRequest>, r: HumanRequest)
    requires HumanOk(taskIds, m) && r.taskId in taskIds
    requires r.status == Open ==> forall q | q in m && m[q].taskId == r.taskId && m[q].kind == r.kind && m[q].status == Open :: q == r.id
    ensures HumanOk(taskIds, m[r.id := r])
  {
  }

  lemma StoreApprovalsOk(taskIds: set<Name>, m: map<Name, ApprovalRequest>, r: ApprovalRequest)
    requires ApprovalsOk(taskIds, m) && r.taskId in taskIds
    requires r.status == Requested ==>
      forall q | q in m && m[q].taskId == r.taskId && m[q].approvalType == r.approvalType && m[q].status == Requested :: q == r.id
    ensures ApprovalsOk(taskIds, m[r.id := r])
  {
  }

  lemma StoreHumanInv(s: RunState, r: HumanRequest)
    requires Inv(s) && r.taskId in s.tasksById && r.runId == s.graph.run.id
    requires r.status == Open ==>
      forall q | q in s.humanRequests && s.humanRequests[q].taskId == r.taskId && s.humanRequests[q].kind == r.kind
        && s.humanRequests[q].status == Open :: q == r.id
    ensures Inv(StoreHuman(s, r))
  {
    StoreHumanOk(s.tasksById.Keys, s.humanRequests, r);
  }

  lemma StoreApprovalInv(s: RunState, r: ApprovalRequest)
    requires Inv(s) && r.taskId in s.tasksById && r.runId == s.graph.run.id
    requires r.status == Requested ==>
      forall q | q in s.approvalRequests && s.approvalRequests[q].taskId == r.taskId
        && s.approvalRequests[q].approvalType == r.approvalType && s.approvalRequests[q].status == Requested :: q == r.id
    ensures Inv(StoreApproval(s, r))
  {
    StoreApprovalsOk(s.tasksById.Keys, s.approvalRequests, r);
  }

  lemma ParkShape<T>(s: RunState, id: Name, to: TaskState, answer: T)
    requires id in s.tasksById
    ensures Park(s, id, to, answer).state == s || Park(s, id, to, answer).state == MoveTask(s, id, to, None).state
    ensures Unstarted(s.tasksById[id].state) && to in {WAITING_FOR_HUMAN, WAITING_FOR_APPROVAL} ==> Park(s, id, to, answer).state == s
  {
  }

  lemma ParkInv<T>(s: RunState, id: Name, to: TaskState, answer: T)
    requires Inv(s) && id in s.tasksById && to in {WAITING_FOR_HUMAN, WAITING_FOR_APPROVAL}
    ensures Inv(Park(s, id, to, answer).state)
  {
    ParkShape(s, id, to, answer);
    if !Unstarted(s.tasksById[id].state) {
      MoveTaskInv(s, id, to, None);
    }
  }

  lemma ReleaseInv(s: RunState, id: Name, parked: TaskState, attemptId: Name, to: TaskState, reason: Option<string>)
    requires Inv(s) && id in s.tasksById && !Unstarted(parked)
    ensures Inv(Release(s, id, parked, attemptId, to, reason))
  {
    if s.tasksById[id].state == parked {
      MoveTaskInv(s, id, to, reason);
    }
  }

  lemma ClarificationStored(s: RunState, id: Name, attemptId: Name, question: string, context: string, freshId: Name)
    requires Inv(s) && id in s.tasksById && freshId !in s.humanRequests
    ensures Inv(StoreHuman(s, ClarificationToStore(s, id, attemptId, question, context, freshId)))
  {
    var r := ClarificationToStore(s, id, attemptId, question, context, freshId);
    forall q | q in s.humanRequests && OpenClarification(s, q, id) ensures q == r.id {
    }
    StoreHumanInv(s, r);
  }

  lemma ApprovalStored(s: RunState, id: Name, attemptId: Name, approvalType: string, reason: string, freshId: Name)
    requires Inv(s) && id in s.tasksById && freshId !in s.approvalRequests
    ensures Inv(StoreApproval(s, ApprovalToStore(s, id, attemptId, approvalType, reason, freshId)))
  {
    var r := ApprovalToStore(s, id, attemptId, approvalType, reason, freshId);
    forall q | q in s.approvalRequests && OpenApproval(s, q, id, approvalType) ensures q == r.id {
    }
    StoreApprovalInv(s, r);
  }

  lemma ClarificationInv(s: RunState, ref: Name, attemptId: Name, question: string, context: string, freshId: Name)
    requires Inv(s) && freshId !in s.humanRequests
    ensures Inv(RequestClarification(s, ref, attemptId, question, context, freshId).state)
  {
    if Lookup(s, ref).Ok? {
      var id := Lookup(s, ref).value;
      var r := ClarificationToStore(s, id, attemptId, question, context, freshId);
      ClarificationStored(s, id, attemptId, question, context, freshId);
      ParkInv(StoreHuman(s, r), id, WAITING_FOR_HUMAN, r);
    }
  }

  lemma ApprovalInv(s: RunState, ref: Name, attemptId: Name, approvalType: string, reason: string, freshId: Name)
    requires Inv(s) && freshId !in s.approvalRequests
    ensures Inv(RequestApproval(s, ref, attemptId, approvalType, reason, freshId).state)
  {
    if Lookup(s, ref).Ok? {
      var id := Lookup(s, ref).value;
      var r := ApprovalToStore(s, id, attemptId, approvalType, reason, freshId);
      ApprovalStored(s, id, attemptId, approvalType, reason, freshId);
      ParkInv(StoreApproval(s, r), id, WAITING_FOR_APPROVAL, r);
    }
  }

  lemma AnswerInv(s: RunState, requestId: Name, answer: string, who: string)
    requires Inv(s)
    ensures Inv(AnswerHumanRequest(s, requestId, answer, who).state)
  {
    hide GraphOk, Indexed, Safe, Numbered, OneActive, ApprovalsOk, StatusOk, Release, MoveTask;
    if requestId in s.humanRequests && Lookup(s, s.humanRequests[requestId].taskId).Ok? {
      var r := s.humanRequests[requestId].(status := Answered, answer := Some(answer), answeredBy := Some(who));
      StoreHumanInv(s, r);
      ReleaseInv(StoreHuman(s, r), Lookup(s, r.taskId).value, WAITING_FOR_HUMAN, r.attemptId, READY, None);
    }
  }

  lemma ResolveInv(s: RunState, requestId: Name, approved: bool, who: string)
    requires Inv(s)
    ensures Inv(ResolveApproval(s, requestId, approved, who).state)
  {
    hide GraphOk, Indexed, Safe, Numbered, OneActive, HumanOk, StatusOk, Release, MoveTask;
    if requestId in s.approvalRequests && Lookup(s, s.approvalRequests[requestId].taskId).Ok? {
      var r := s.approvalRequests[requestId].(status := if approved then Approved else Rejected, resolvedBy := Some(who));
      var to, reason := if approved then READY else BLOCKED, if approved then None else Some("approval_rejected");
      StoreApprovalInv(s, r);
      ReleaseInv(StoreApproval(s, r), Lookup(s, r.taskId).value, WAITING_FOR_APPROVAL, r.attemptId, to, reason);
    }
  }

  // ---------------------------------------------------------------- task methods

  lemma MarkRunningInv(s: RunState)
    requires Inv(s)
    ensures Inv(MarkRunning(s))
  {
    if s.graph.run.status != RunRunning {
      SetRunInv(s, s.graph.run.(status := RunRunning, started := true));
    }
  }

  lemma StartTaskInv(s: RunState, ref: Name)
    requires Inv(s)
    ensures Inv(StartTask(s, ref).state)
  {
    hide GraphOk, Safe, Numbered, OneActive, HumanOk, ApprovalsOk, RequestsOwned, StatusOk;
    var o := StartTask(s, ref);
    if o.reply.Ok? {
      MarkRunningInv(s);
      SetTaskInv(MarkRunning(s), o.reply.value);
    } else {
      assert o.state == s;
    }
  }

  lemma FailTaskInv(s: RunState, ref: Name, reason: string)
    requires Inv(s)
    ensures Inv(FailTask(s, ref, reason).state)
  {
    hide GraphOk, Indexed, Safe, Numbered, OneActive, HumanOk, ApprovalsOk, StatusOk;
    if FailTask(s, ref, reason).reply.Ok? {
      var id := Lookup(s, ref).value;
      var o := MoveTask(s, id, FAILED, Some(reason));
      var i := TaskAt(s, id);
      MoveTaskInv(s, id, FAILED, Some(reason));
      assert o.state.tasksById[id].state == FAILED;
      SetRunInv(o.state, MarkFailed(o.state).graph.run);
    }
  }

  lemma BlockTaskInv(s: RunState, ref: Name, reason: string)
    requires Inv(s)
    ensures Inv(BlockTask(s, ref, reason).state)
  {
    hide GraphOk, Indexed, Safe, Numbered, OneActive, HumanOk, ApprovalsOk, RequestsOwned, StatusOk, Done;
    if BlockTask(s, ref, reason).reply.Ok? {
      MoveTaskInv(s, Lookup(s, ref).value, BLOCKED, Some(reason));
    }
  }

  lemma UnblockTaskInv(s: RunState, ref: Name)
    requires Inv(s)
    ensures Inv(UnblockTask(s, ref).state)
  {
    hide GraphOk, Indexed, Safe, Numbered, OneActive, HumanOk, ApprovalsOk, RequestsOwned, StatusOk, Done;
    if UnblockTask(s, ref).reply.Ok? {
      MoveTaskInv(s, Lookup(s, ref).value, READY, None);
    }
  }

  lemma CompleteTaskInv(s: RunState, ref: Name)
    requires Inv(s)
    ensures Inv(CompleteTask(s, ref).state)
  {
    hide GraphOk, Safe, Numbered, OneActive, HumanOk, ApprovalsOk, RequestsOwned;
    var o := CompleteTask(s, ref);
    if o.reply.Ok? {
      SetTaskInv(s, o.reply.value);
      var s' := SetTask(s, o.reply.value);
      if AllCompleted(s') {
        SetRunInv(s', MarkCompleted(s').graph.run);
      }
    }
  }

  lemma StartAttemptInv(s: RunState, id: Name)
    requires Inv(s)
    ensures Inv(StartAttempt(s, id).state)
  {
    hide GraphOk, Indexed, Safe, OneActive, HumanOk, ApprovalsOk, RequestsOwned, StatusOk;
    var o := StartAttempt(s, id);
    if o.reply.Ok? {
      assert Entry(s.tasksById.Keys, s.attemptsById, s.attemptsByTask, id);
      ReplaceAttemptInv(s, o.reply.value);
      MarkRunningInv(s.(attemptsById := s.attemptsById[id := o.reply.value]));
    } else {
      assert o.state == s;
    }
  }

  lemma MoveAttemptInv(s: RunState, id: Name, to: AttemptState)
    requires Inv(s)
    ensures Inv(MoveAttempt(s, id, to).state)
  {
    hide GraphOk, Indexed, Safe, OneActive, HumanOk, ApprovalsOk, RequestsOwned, StatusOk;
    var o := MoveAttempt(s, id, to);
    if o.reply.Ok? {
      assert Entry(s.tasksById.Keys, s.attemptsById, s.attemptsByTask, id);
      ReplaceAttemptInv(s, o.reply.value);
    } else {
      assert o.state == s;
    }
  }

  lemma DispatchAttemptInv(s: RunState, id: Name)
    requires Inv(s)
    ensures Inv(DispatchAttempt(s, id).state)
  {
    hide Inv;
    MoveAttemptInv(s, id, DISPATCHING);
    MarkRunningInv(MoveAttempt(s, id, DISPATCHING).state);
  }

  // ---------------------------------------------------------------- promotion

  lemma PromoteGraph(s: RunState, chosen: set<Name>)
    requires Inv(s)
    ensures GraphOk(s.graph.run.id, PromoteSome(s, chosen).graph.tasks, s.graph.edges)
    ensures TaskIds(PromoteSome(s, chosen).graph.tasks) == TaskIds(s.graph.tasks)
    ensures TaskKeys(PromoteSome(s, chosen).graph.tasks) == TaskKeys(s.graph.tasks)
  {
    GraphOkSameShape(s.graph.run.id, s.graph.tasks, PromoteSome(s, chosen).graph.tasks, s.graph.edges);
  }

  lemma PromotedIndexed(before: seq<Task>, byId: map<Name, Task>, byKey: map<Name, Name>, after: seq<Task>, byId': map<Name, Task>)
    requires Indexed(before, byId, byKey) && |after| == |before| && byId'.Keys == byId.Keys
    requires TaskIds(after) == TaskIds(before) && TaskKeys(after) == TaskKeys(before)
    requires forall i | 0 <= i < |before| :: after[i].id == before[i].id && after[i].key == before[i].key
    requires forall i | 0 <= i < |before| && before[i].id in byId :: byId'[before[i].id] == after[i]
    ensures Indexed(after, byId', byKey)
  {
  }

  lemma PromoteIndexed(s: RunState, chosen: set<Name>)
    requires Inv(s)
    ensures var u := PromoteSome(s, chosen);
            Indexed(u.graph.tasks, u.tasksById, s.tasksByKey) && u.tasksById.Keys == s.tasksById.Keys
  {
    hide GraphOk, Safe, Numbered, OneActive, HumanOk, ApprovalsOk, RequestsOwned, StatusOk, Done;
    PromoteGraph(s, chosen);
    var u := PromoteSome(s, chosen);
    assert u.tasksById.Keys == s.tasksById.Keys;
    PromotedIndexed(s.graph.tasks, s.tasksById, s.tasksByKey, u.graph.tasks, u.tasksById);
  }

  /** Promotion neither completes nor un-completes anything, so it leaves every dependency
      question with the same answer. */
  lemma PromoteKeepsDone(s: RunState, chosen: set<Name>, id: Name)
    ensures Done(PromoteSome(s, chosen), id) <==> Done(s, id)
  {
    var u := PromoteSome(s, chosen);
    forall x | x in s.tasksById ensures s.tasksById[x].state == COMPLETED <==> u.tasksById[x].state == COMPLETED {
    }
  }

  lemma PromoteSafe(s: RunState, chosen: set<Name>)
    requires Inv(s)
    ensures Safe(s.graph.edges, PromoteSome(s, chosen).tasksById)
  {
    var u := PromoteSome(s, chosen);
    forall id | id in u.tasksById && !Unstarted(u.tasksById[id].state) ensures DepsDone(s.graph.edges, u.tasksById, id) {
      var i := TaskAt(s, id);
      assert DepsDone(s.graph.edges, s.tasksById, id);
      PromoteKeepsDone(s, chosen, id);
    }
  }

  lemma PromoteStatus(s: RunState, chosen: set<Name>)
    requires StatusOk(s.graph.run.status, s.tasksById)
    ensures StatusOk(s.graph.run.status, PromoteSome(s, chosen).tasksById)
  {
    if s.graph.run.status == RunFailed {
      var x :| x in s.tasksById && s.tasksById[x].state == FAILED;
      assert PromoteSome(s, chosen).tasksById[x].state == FAILED;
    }
  }

  lemma PromoteInv(s: RunState, chosen: set<Name>)
    requires Inv(s)
    ensures Inv(PromoteSome(s, chosen))
  {
    PromoteGraph(s, chosen);
    PromoteIndexed(s, chosen);
    PromoteSafe(s, chosen);
    PromoteStatus(s, chosen);
  }

  // ---------------------------------------------------------------- dynamic tasks

  /** What the callers of `add_dynamic_tasks` guarantee and the method itself does not check:
      a clean batch of CREATED tasks whose edges all point into the batch and close no cycle. */
  ghost predicate CleanBatch(s: RunState, tasks: seq<Task>, edges: seq<Edge>) {
    && Distinct(TaskIds(tasks)) && Distinct(TaskKeys(tasks)) && Distinct(EdgeIds(s.graph.edges + edges))
    && NoAlias(s.graph.tasks + tasks) && Owned(s.graph.run.id, tasks, edges)
    && (forall i | 0 <= i < |tasks| :: tasks[i].state == CREATED)
    && (forall i | 0 <= i < |edges| :: edges[i].to in TaskIds(tasks))
    && Unrepeated(edges) && Acyclic(HardArcs(edges))
  }

  lemma HardArcsConcat(a: seq<Edge>, b: seq<Edge>)
    ensures HardArcs(a + b) == HardArcs(a) + HardArcs(b)
  {
    assert forall e :: e in a + b <==> e in a || e in b;
  }

  lemma IdsConcat(a: seq<Task>, b: seq<Task>)
    ensures TaskIds(a + b) == TaskIds(a) + TaskIds(b) && TaskKeys(a + b) == TaskKeys(a) + TaskKeys(b)
  {
  }

  lemma AppendedAcyclic(s: RunState, tasks: seq<Task>, edges: seq<Edge>)
    requires Inv(s) && Appendable(s, tasks, edges) && CleanBatch(s, tasks, edges)
    ensures Acyclic(HardArcs(s.graph.edges + edges))
    ensures Unrepeated(s.graph.edges + edges)
  {
    var fresh_ := Elements(TaskIds(tasks));
    HardArcsConcat(s.graph.edges, edges);
    HardArcsMembers(edges);
    HardArcsMembers(s.graph.edges);
    forall i | 0 <= i < |s.graph.edges| ensures s.graph.edges[i].from !in fresh_ && s.graph.edges[i].to !in fresh_ {
      assert s.graph.edges[i].from in s.tasksById && s.graph.edges[i].to in s.tasksById;
      BatchIsFresh(s, tasks, s.graph.edges[i].from);
      BatchIsFresh(s, tasks, s.graph.edges[i].to);
    }
    ExtendAcyclic(HardArcs(s.graph.edges), HardArcs(edges), fresh_);
    UnrepeatedConcat(s.graph.edges, edges, fresh_);
  }

  lemma UnrepeatedConcat(a: seq<Edge>, b: seq<Edge>, fresh_: set<Name>)
    requires Unrepeated(a) && Unrepeated(b)
    requires forall i | 0 <= i < |a| :: a[i].to !in fresh_
    requires forall i | 0 <= i < |b| :: b[i].to in fresh_
    ensures Unrepeated(a + b)
  {
  }

  lemma BatchIsFresh(s: RunState, tasks: seq<Task>, x: Name)
    requires NewToRun(s, tasks)
    ensures x in s.tasksById ==> x !in TaskIds(tasks)
    ensures x in s.tasksByKey ==> x !in TaskKeys(tasks)
  {
    assert forall i | 0 <= i < |tasks| :: TaskIds(tasks)[i] == tasks[i].id && TaskKeys(tasks)[i] == tasks[i].key;
  }

  lemma AppendedGraphOk(s: RunState, tasks: seq<Task>, edges: seq<Edge>)
    requires Inv(s) && Appendable(s, tasks, edges) && CleanBatch(s, tasks, edges)
    ensures GraphOk(s.graph.run.id, s.graph.tasks + tasks, s.graph.edges + edges)
  {
    IdsConcat(s.graph.tasks, tasks);
    AppendedAcyclic(s, tasks, edges);
    forall x | x in TaskIds(s.graph.tasks) ensures x !in TaskIds(tasks) {
      assert x in s.tasksById;
      BatchIsFresh(s, tasks, x);
    }
    forall x | x in TaskKeys(s.graph.tasks) ensures x !in TaskKeys(tasks) {
      assert x in s.tasksByKey;
      BatchIsFresh(s, tasks, x);
    }
    DistinctAppend(TaskIds(s.graph.tasks), TaskIds(tasks));
    DistinctAppend(TaskKeys(s.graph.tasks), TaskKeys(tasks));
  }

  lemma AppendedIndexed(s: RunState, tasks: seq<Task>, edges: seq<Edge>)
    requires Inv(s) && Appendable(s, tasks, edges) && CleanBatch(s, tasks, edges)
    ensures var u := Appended(s, tasks, edges); Indexed(u.graph.tasks, u.tasksById, u.tasksByKey)
  {
    hide GraphOk, Safe, Numbered, OneActive, HumanOk, ApprovalsOk, RequestsOwned, StatusOk, NoAlias, Owned, Unrepeated, Acyclic, Distinct, AddById, AddByKey;
    var u := Appended(s, tasks, edges);
    IdsConcat(s.graph.tasks, tasks);
    AddByIdFacts(s.tasksById, tasks);
    AddByKeyFacts(s.tasksByKey, tasks);
    forall i | 0 <= i < |u.graph.tasks|
      ensures && u.graph.tasks[i].id in u.tasksById && u.tasksById[u.graph.tasks[i].id] == u.graph.tasks[i]
              && u.graph.tasks[i].key in u.tasksByKey && u.tasksByKey[u.graph.tasks[i].key] == u.graph.tasks[i].id
    {
      if i < |s.graph.tasks| {
        var t := s.graph.tasks[i];
        assert t.id in s.tasksById && t.key in s.tasksByKey;
        BatchIsFresh(s, tasks, t.id);
        BatchIsFresh(s, tasks, t.key);
      } else {
        AddByIdAt(s.tasksById, tasks, i - |s.graph.tasks|);
        AddByKeyAt(s.tasksByKey, tasks, i - |s.graph.tasks|);
      }
    }
  }

  lemma AppendedTask(s: RunState, tasks: seq<Task>, edges: seq<Edge>, x: Name)
    requires Inv(s) && Appendable(s, tasks, edges) && CleanBatch(s, tasks, edges)
    ensures var u := Appended(s, tasks, edges);
            && (x in u.tasksById <==> x in s.tasksById || x in TaskIds(tasks))
            && (x in s.tasksById ==> u.tasksById[x] == s.tasksById[x])
            && (x in TaskIds(tasks) ==> x !in s.tasksById && u.tasksById[x].state == CREATED)
  {
    AddByIdFacts(s.tasksById, tasks);
    if x in s.tasksById {
      BatchIsFresh(s, tasks, x);
    }
    if x in TaskIds(tasks) {
      var i :| 0 <= i < |tasks| && TaskIds(tasks)[i] == x;
      AddByIdAt(s.tasksById, tasks, i);
    }
  }

  /** No old task gains a dependency. */
  lemma AppendedKeepsDone(s: RunState, tasks: seq<Task>, edges: seq<Edge>, id: Name)
    requires Inv(s) && Appendable(s, tasks, edges) && CleanBatch(s, tasks, edges)
    requires id in s.tasksById && Done(s, id)
    ensures Done(Appended(s, tasks, edges), id)
  {
    var u := Appended(s, tasks, edges);
    BatchIsFresh(s, tasks, id);
    forall i | 0 <= i < |u.graph.edges| && u.graph.edges[i].hard && u.graph.edges[i].to == id
      ensures u.graph.edges[i].from in u.tasksById && u.tasksById[u.graph.edges[i].from].state == COMPLETED
    {
      assert i < |s.graph.edges|;
      assert u.graph.edges[i] == s.graph.edges[i];
      AppendedTask(s, tasks, edges, u.graph.edges[i].from);
    }
  }

  lemma AppendedSafe(s: RunState, tasks: seq<Task>, edges: seq<Edge>)
    requires Inv(s) && Appendable(s, tasks, edges) && CleanBatch(s, tasks, edges)
    ensures var u := Appended(s, tasks, edges); Safe(u.graph.edges, u.tasksById)
  {
    var u := Appended(s, tasks, edges);
    forall id | id in u.tasksById && !Unstarted(u.tasksById[id].state) ensures DepsDone(u.graph.edges, u.tasksById, id) {
      AppendedTask(s, tasks, edges, id);
      AppendedKeepsDone(s, tasks, edges, id);
    }
  }

  lemma AppendedInv(s: RunState, tasks: seq<Task>, edges: seq<Edge>)
    requires Inv(s) && Appendable(s, tasks, edges) && CleanBatch(s, tasks, edges)
    ensures Inv(Appended(s, tasks, edges))
  {
    hide GraphOk, Indexed, Safe, OneActive, Done, CleanBatch, Appendable, AddById, AddByKey;
    AppendedGraphOk(s, tasks, edges);
    AppendedIndexed(s, tasks, edges);
    AppendedSafe(s, tasks, edges);
    AddByIdFacts(s.tasksById, tasks);
    var u := Appended(s, tasks, edges);
    assert s.tasksById.Keys <= u.tasksById.Keys;
  }
}
