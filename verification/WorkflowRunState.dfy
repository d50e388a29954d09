/** `WorkflowRunState` (orchestration/state.py): the mutable object itself.  Every method leaves
    the state that `RunModel` says, and with it the whole-run invariant. */
module WorkflowRun {
  import opened Names
  import opened Wrappers
  import opened Sequences
  import opened Digraph
  import opened Records
  import opened DependencyGraph
  import opened RunModel
  import opened RunInvariant
  import opened RunHistory

  class WorkflowRunState {
    var graph: Graph
    var tasksById: map<Name, Task>
    var tasksByKey: map<Name, Name>
    var attemptsById: map<Name, Attempt>
    var attemptsByTask: map<Name, seq<Name>>
    var humanRequests: map<Name, HumanRequest>
    var approvalRequests: map<Name, ApprovalRequest>
    var graphRevision: int

    function View(): RunState
      reads this
    {
      RunState(graph, tasksById, tasksByKey, attemptsById, attemptsByTask, humanRequests, approvalRequests, graphRevision)
    }

    ghost predicate Valid()
      reads this
    {
      Inv(View())
    }

    /** `from_graph` */
    constructor (g: Graph)
      ensures View() == FromGraph(g)
      ensures Startable(g) ==> Valid()
    {
      graph := g;
      tasksById := AddById(map[], g.tasks);
      tasksByKey := AddByKey(map[], g.tasks);
      attemptsById, attemptsByTask := map[], map[];
      humanRequests, approvalRequests := map[], map[];
      graphRevision := g.run.revision;
      new;
      if Startable(g) {
        FromGraphInv(g);
      }
    }

    method FindTask(ref: Name) returns (r: Result<Task>)
      ensures match Lookup(View(), ref)
              case Ok(id) => r == Ok(tasksById[id])
              case Err(e) => r == Err(e)
    {
      var id := if ref in tasksByKey then tasksByKey[ref] else ref;
      if id !in tasksById {
        return Err(UnknownKey);
      }
      return Ok(tasksById[id]);
    }

    method UpdateTask(t: Task)
      modifies this`tasksById, this`tasksByKey, this`graph
      ensures View() == SetTask(old(View()), t)
      ensures old(Valid()) && Permitted(old(View()), t) ==> Valid()
    {
      hide Inv, Permitted, Refresh;
      ghost var s := View();
      tasksById := tasksById[t.id := t];
      tasksByKey := tasksByKey[t.key := t.id];
      graph := graph.(tasks := Refresh(graph.tasks, tasksById));
      if Inv(s) && Permitted(s, t) {
        SetTaskInv(s, t);
      }
    }

    // -------------------------------------------------------------- dynamic tasks

    method CheckNew(tasks: seq<Task>) returns (ok: bool)
      ensures ok <==> NewToRun(View(), tasks)
    {
      var i := 0;
      while i < |tasks|
        invariant 0 <= i <= |tasks|
        invariant forall k | 0 <= k < i :: tasks[k].id !in tasksById && tasks[k].key !in tasksByKey
      {
        if tasks[i].id in tasksById || tasks[i].key in tasksByKey {
          return false;
        }
        i := i + 1;
      }
      return true;
    }

    method CheckEdges(tasks: seq<Task>, edges: seq<Edge>) returns (ok: bool)
      ensures ok <==> EndpointsIn(Elements(TaskIds(graph.tasks)) + Elements(TaskIds(tasks)), edges)
    {
      var ids := (set x | x in TaskIds(graph.tasks)) + set x | x in TaskIds(tasks);
      assert ids == Elements(TaskIds(graph.tasks)) + Elements(TaskIds(tasks));
      var i := 0;
      while i < |edges|
        invariant 0 <= i <= |edges|
        invariant forall k | 0 <= k < i :: edges[k].from in ids && edges[k].to in ids
      {
        if edges[i].from !in ids || edges[i].to !in ids {
          return false;
        }
        i := i + 1;
      }
      return true;
    }

    /** `add_dynamic_tasks`: all or nothing. */
    method AddDynamicTasks(tasks: seq<Task>, edges: seq<Edge>) returns (r: Result<seq<Task>>)
      modifies this
      ensures Outcome(View(), r) == RunModel.AddDynamicTasks(old(View()), tasks, edges)
    {
      if tasks == [] {
        return Ok([]);
      }
      var new_ := CheckNew(tasks);
      if !new_ {
        return Err(StateTransition);
      }
      var known := CheckEdges(tasks, edges);
      if !known {
        return Err(StateTransition);
      }
      tasksById := AddById(tasksById, tasks);
      tasksByKey := AddByKey(tasksByKey, tasks);
      graphRevision := (if graphRevision >= graph.run.revision then graphRevision else graph.run.revision) + 1;
      graph := Graph(graph.run.(revision := graphRevision, status := RunRunning, ended := false),
                     graph.tasks + tasks, graph.edges + edges);
      return Ok(tasks);
    }

    // -------------------------------------------------------------- run status

    method MarkWorkflowRunning()
      modifies this`graph
      ensures View() == MarkRunning(old(View()))
    {
      if graph.run.status != RunRunning {
        graph := graph.(run := graph.run.(status := RunRunning, started := true));
      }
    }

    method MarkWorkflowCompleted()
      modifies this`graph
      ensures View() == MarkCompleted(old(View()))
    {
      graph := graph.(run := graph.run.(status := RunCompleted, ended := true));
    }

    method MarkWorkflowFailed()
      modifies this`graph
      ensures View() == MarkFailed(old(View()))
    {
      graph := graph.(run := graph.run.(status := RunFailed, ended := true));
    }

    method AllTasksCompleted() returns (all: bool)
      ensures all <==> AllCompleted(View())
    {
      var rest := tasksById.Keys;
      while rest != {}
        invariant rest <= tasksById.Keys
        invariant forall x | x in tasksById && x !in rest :: tasksById[x].state == COMPLETED
        decreases rest
      {
        var x :| x in rest;
        if tasksById[x].state != COMPLETED {
          return false;
        }
        rest := rest - {x};
      }
      return true;
    }

    // -------------------------------------------------------------- attempts

    /** `_latest_active_attempt_id`: scan the task's attempts from the newest. */
    method LatestActiveAttempt(taskId: Name) returns (r: Option<Name>)
      ensures r == LatestActive(View(), taskId)
    {
      var ids := if taskId in attemptsByTask then attemptsByTask[taskId] else [];
      var i := |ids|;
      assert ids[..i] == ids;
      while i > 0
        invariant 0 <= i <= |ids|
        invariant LastActive(ids[..i], attemptsById) == LastActive(ids, attemptsById)
      {
        assert ids[..i][..i - 1] == ids[..i - 1];
        i := i - 1;
        if ids[i] in attemptsById && ActiveState(attemptsById[ids[i]].state) {
          return Some(ids[i]);
        }
      }
      return None;
    }

    method RecordAttempt(a: Attempt)
      modifies this`attemptsById, this`attemptsByTask
      ensures View() == RunModel.RecordAttempt(old(View()), a)
    {
      attemptsById := attemptsById[a.id := a];
      var ids := if a.taskId in attemptsByTask then attemptsByTask[a.taskId] else [];
      if a.id !in ids {
        ids := ids + [a.id];
      }
      attemptsByTask := attemptsByTask[a.taskId := ids];
    }

    method OpenAttempt(ref: Name, freshId: Name, leaseKey: Option<Name>, payload: string) returns (r: Result<Attempt>)
      modifies this`attemptsById, this`attemptsByTask
      ensures Outcome(View(), r) == RunModel.OpenAttempt(old(View()), ref, freshId, leaseKey, payload)
    {
      var task := FindTask(ref);
      if task.Err? {
        return Err(task.error);
      }
      var id := if ref in tasksByKey then tasksByKey[ref] else ref;
      var active := LatestActiveAttempt(id);
      if active.Some? {
        return Err(StateTransition);
      }
      var a := Attempt(freshId, id, |if id in attemptsByTask then attemptsByTask[id] else []| + 1, QUEUED, leaseKey, payload);
      RecordAttempt(a);
      return Ok(a);
    }

    method MoveAttempt(id: Name, to: AttemptState) returns (r: Result<Attempt>)
      modifies this`attemptsById
      ensures Outcome(View(), r) == RunModel.MoveAttempt(old(View()), id, to)
    {
      if id !in attemptsById {
        return Err(UnknownKey);
      }
      r := attemptsById[id].Transition(to);
      if r.Ok? {
        attemptsById := attemptsById[id := r.value];
      }
    }

    method DispatchAttempt(id: Name) returns (r: Result<Attempt>)
      modifies this`attemptsById, this`graph
      ensures Outcome(View(), r) == RunModel.DispatchAttempt(old(View()), id)
    {
      r := MoveAttempt(id, DISPATCHING);
      if r.Ok? {
        MarkWorkflowRunning();
      }
    }

    /** `start_attempt`; `resume_attempt` has the same body. */
    method StartAttempt(id: Name) returns (r: Result<Attempt>)
      modifies this`attemptsById, this`graph
      ensures Outcome(View(), r) == RunModel.StartAttempt(old(View()), id)
    {
      if id !in attemptsById {
        return Err(UnknownKey);
      }
      var a := attemptsById[id];
      if a.state == QUEUED {
        a := a.(state := DISPATCHING);
      }
      r := a.Transition(RUNNING);
      if r.Ok? {
        attemptsById := attemptsById[id := r.value];
        MarkWorkflowRunning();
      }
    }

    method FailAttempt(id: Name, recoverable: bool) returns (r: Result<Attempt>)
      modifies this`attemptsById
      ensures Outcome(View(), r) == RunModel.FailAttempt(old(View()), id, recoverable)
    {
      r := MoveAttempt(id, if recoverable then ORPHANED else ERRORED);
    }

    // -------------------------------------------------------------- dependencies and promotion

    method AllParentsCompleted(parents: seq<Name>) returns (done: bool)
      requires forall k | 0 <= k < |parents| :: parents[k] in tasksById
      ensures done <==> forall k | 0 <= k < |parents| :: tasksById[parents[k]].state == COMPLETED
    {
      var i := 0;
      while i < |parents|
        invariant 0 <= i <= |parents|
        invariant forall k | 0 <= k < i :: tasksById[parents[k]].state == COMPLETED
      {
        if tasksById[parents[i]].state != COMPLETED {
          return false;
        }
        i := i + 1;
      }
      return true;
    }

    /** `hard_dependencies_satisfied`, through the dependency view, which cannot raise here. */
    method HardDependenciesSatisfied(id: Name) returns (done: bool)
      requires Valid()
      ensures done <==> Done(View(), id)
    {
      hide GraphOk, Indexed, Safe, Numbered, OneActive, HumanOk, ApprovalsOk, RequestsOwned, StatusOk;
      InvSchedulable(View());
      ParentsKnown(View(), id);
      DoneByParents(View(), id);
      var view := BuildDependencyView(graph);
      var parents := ListAt(view.value.predecessors, id);
      done := AllParentsCompleted(parents);
    }

    /** One step of `promote_ready_tasks`.  The branch that would send a READY task back to
        WAITING_FOR_DEPENDENCY, which the transition table forbids, is unreachable. */
    method PromoteOne(id: Name) returns (ready: bool)
      requires Valid() && id in tasksById
      modifies this`tasksById, this`tasksByKey, this`graph
      ensures Valid()
      ensures View() == SetTask(old(View()), PromotedTask(old(View()), old(tasksById)[id]))
      ensures ready <==> Runnable(old(View()), id)
    {
      hide GraphOk, Indexed, Numbered, OneActive, HumanOk, ApprovalsOk, RequestsOwned, StatusOk, DepsDone;
      ghost var s := View();
      var task := tasksById[id];
      ghost var at := TaskAt(s, id);
      var done := HardDependenciesSatisfied(id);
      SetTaskSame(s, id);
      if Unstarted(task.state) {
        if done {
          UpdateTask(task.(state := READY, blockReason := None));
          return true;
        }
        if task.state != WAITING_FOR_DEPENDENCY {
          UpdateTask(task.(state := WAITING_FOR_DEPENDENCY, blockReason := None));
        }
        return false;
      } else if task.state == READY && done {
        return true;
      } else if task.state == READY && !done {
        assert false;
      }
      return false;
    }

    /** The same step seen from the state `s` in which the loop started. */
    method PromoteNext(ghost s: RunState, ghost done: set<Name>, id: Name) returns (ready: bool)
      requires Inv(s) && View() == PromoteSome(s, done) && id in s.tasksById && id !in done
      modifies this`tasksById, this`tasksByKey, this`graph
      ensures View() == PromoteSome(s, done + {id})
      ensures ready <==> Runnable(s, id)
    {
      PromoteInv(s, done);
      PromoteSomeStep(s, done, id);
      ready := PromoteOne(id);
    }

    /** `promote_ready_tasks` */
    method PromoteReadyTasks() returns (ready: seq<Name>)
      requires Valid()
      modifies this`tasksById, this`tasksByKey, this`graph
      ensures View() == Promote(old(View()))
      ensures ready == PromotedIds(old(View()))
    {
      hide GraphOk, Indexed, Safe, Numbered, OneActive, HumanOk, ApprovalsOk, RequestsOwned, StatusOk;
      ghost var s := View();
      TaskOrderFacts(s);
      PromoteNone(s);
      var view := BuildDependencyView(graph);
      var order := view.value.order;
      ready := [];
      var i := 0;
      assert Elements(order[..0]) == {};
      while i < |order|
        invariant 0 <= i <= |order|
        invariant View() == PromoteSome(s, Elements(order[..i]))
        invariant ready == Select(order[..i], RunnableSet(s))
      {
        PrefixGrows(order, i);
        SelectPush(order, i, RunnableSet(s));
        var runnable := PromoteNext(s, Elements(order[..i]), order[i]);
        if runnable {
          ready := ready + [order[i]];
        }
        i := i + 1;
      }
      assert order[..i] == order;
    }

    /** `can_run` */
    method CanRun(ref: Name) returns (r: Result<bool>)
      requires Valid()
      ensures match Lookup(View(), ref)
              case Ok(id) => r == Ok(Runnable(View(), id))
              case Err(e) => r == Err(e)
    {
      hide GraphOk, Indexed, Safe, Numbered, OneActive, HumanOk, ApprovalsOk, RequestsOwned, StatusOk;
      var found := FindTask(ref);
      if found.Err? {
        return Err(found.error);
      }
      ghost var at := TaskAt(View(), Lookup(View(), ref).value);
      if !Unstarted(found.value.state) && found.value.state != READY {
        return Ok(false);
      }
      var done := HardDependenciesSatisfied(found.value.id);
      return Ok(done);
    }

    /** Whether `task_readiness_reasons` is empty: the four parked or running states and a pending
        hard dependency each give a reason. */
    method HasNoReasons(ref: Name) returns (r: Result<bool>)
      requires Valid()
      ensures match Lookup(View(), ref)
              case Ok(id) => r == Ok(tasksById[id].state !in {BLOCKED, WAITING_FOR_HUMAN, WAITING_FOR_APPROVAL, IN_PROGRESS} && Done(View(), id))
              case Err(e) => r == Err(e)
    {
      hide GraphOk, Indexed, Safe, Numbered, OneActive, HumanOk, ApprovalsOk, RequestsOwned, StatusOk;
      var found := FindTask(ref);
      if found.Err? {
        return Err(found.error);
      }
      ghost var at := TaskAt(View(), Lookup(View(), ref).value);
      var done := HardDependenciesSatisfied(found.value.id);
      return Ok(found.value.state !in {BLOCKED, WAITING_FOR_HUMAN, WAITING_FOR_APPROVAL, IN_PROGRESS} && done);
    }

    // -------------------------------------------------------------- tasks

    method StartTask(ref: Name) returns (r: Result<Task>)
      requires Valid()
      modifies this`tasksById, this`tasksByKey, this`graph
      ensures Valid()
      ensures Outcome(View(), r) == RunModel.StartTask(old(View()), ref)
    {
      hide GraphOk, Indexed, Safe, Numbered, OneActive, HumanOk, ApprovalsOk, RequestsOwned, StatusOk;
      StartTaskInv(View(), ref);
      r := FindTask(ref);
      if r.Err? {
        return;
      }
      var task := r.value;
      ghost var at := TaskAt(View(), Lookup(View(), ref).value);
      if task.state != READY {
        return Err(StateTransition);
      }
      var done := HardDependenciesSatisfied(task.id);
      if !done {
        return Err(StateTransition);
      }
      r := task.Transition(IN_PROGRESS, None);
      MarkWorkflowRunning();
      UpdateTask(r.value);
    }

    /** Move a task along the transition table; the record is stored only if the move is allowed. */
    method MoveTask(task: Task, to: TaskState, reason: Option<string>) returns (r: Result<Task>)
      requires task.id in tasksById && tasksById[task.id] == task
      modifies this`tasksById, this`tasksByKey, this`graph
      ensures Outcome(View(), r) == RunModel.MoveTask(old(View()), task.id, to, reason)
    {
      r := task.Transition(to, reason);
      if r.Ok? {
        UpdateTask(r.value);
      }
    }

    method FailTask(ref: Name, reason: string) returns (r: Result<Task>)
      requires Valid()
      modifies this`tasksById, this`tasksByKey, this`graph
      ensures Valid()
      ensures Outcome(View(), r) == RunModel.FailTask(old(View()), ref, reason)
    {
      hide GraphOk, Indexed, Safe, Numbered, OneActive, HumanOk, ApprovalsOk, RequestsOwned, StatusOk;
      FailTaskInv(View(), ref, reason);
      r := FindTask(ref);
      if r.Err? {
        return;
      }
      ghost var at := TaskAt(View(), Lookup(View(), ref).value);
      if r.value.state !in {READY, IN_PROGRESS, WAITING_FOR_DEPENDENCY, WAITING_FOR_HUMAN, WAITING_FOR_APPROVAL, BLOCKED} {
        return Err(StateTransition);
      }
      r := MoveTask(r.value, FAILED, Some(reason));
      if r.Ok? {
        MarkWorkflowFailed();
      }
    }

    method UnblockTask(ref: Name) returns (r: Result<Task>)
      requires Valid()
      modifies this`tasksById, this`tasksByKey, this`graph
      ensures Valid()
      ensures Outcome(View(), r) == RunModel.UnblockTask(old(View()), ref)
    {
      hide GraphOk, Indexed, Safe, Numbered, OneActive, HumanOk, ApprovalsOk, RequestsOwned, StatusOk;
      UnblockTaskInv(View(), ref);
      r := FindTask(ref);
      if r.Err? {
        return;
      }
      ghost var at := TaskAt(View(), Lookup(View(), ref).value);
      if r.value.state != BLOCKED {
        return Err(StateTransition);
      }
      r := MoveTask(r.value, READY, None);
    }

    method BlockTask(ref: Name, reason: string) returns (r: Result<Task>)
      requires Valid()
      modifies this`tasksById, this`tasksByKey, this`graph
      ensures Valid()
      ensures Outcome(View(), r) == RunModel.BlockTask(old(View()), ref, reason)
    {
      hide GraphOk, Indexed, Safe, Numbered, OneActive, HumanOk, ApprovalsOk, RequestsOwned, StatusOk;
      BlockTaskInv(View(), ref, reason);
      r := FindTask(ref);
      if r.Err? {
        return;
      }
      ghost var at := TaskAt(View(), Lookup(View(), ref).value);
      if r.value.state !in {READY, IN_PROGRESS, WAITING_FOR_DEPENDENCY, WAITING_FOR_HUMAN, WAITING_FOR_APPROVAL} {
        return Err(StateTransition);
      }
      r := MoveTask(r.value, BLOCKED, Some(reason));
    }

    /** A READY task is first stored as IN_PROGRESS, then as COMPLETED. */
    method CompleteTask(ref: Name) returns (r: Result<Task>)
      requires Valid()
      modifies this`tasksById, this`tasksByKey, this`graph
      ensures Valid()
      ensures Outcome(View(), r) == RunModel.CompleteTask(old(View()), ref)
    {
      hide GraphOk, Indexed, Safe, Numbered, OneActive, HumanOk, ApprovalsOk, RequestsOwned, StatusOk, Done, AllCompleted, SetTask;
      ghost var s := View();
      CompleteTaskInv(s, ref);
      r := FindTask(ref);
      if r.Err? {
        return;
      }
      var task := r.value;
      ghost var at := TaskAt(s, Lookup(s, ref).value);
      var done := HardDependenciesSatisfied(task.id);
      if !done {
        return Err(StateTransition);
      }
      if task.state == READY {
        task := task.(state := IN_PROGRESS, blockReason := None);
        UpdateTask(task);
      }
      if task.state != IN_PROGRESS {
        return Err(StateTransition);
      }
      SetTaskTwice(s, task, task.(state := COMPLETED, blockReason := None));
      task := task.(state := COMPLETED, blockReason := None);
      UpdateTask(task);
      assert View() == SetTask(s, task);
      var all := AllTasksCompleted();
      if all {
        MarkWorkflowCompleted();
      }
      return Ok(task);
    }

    // -------------------------------------------------------------- requests

    /** `_open_human_request_for_task`, for clarifications, whatever order the values come in. */
    method FindOpenClarification(taskId: Name) returns (found: Option<Name>)
      ensures found.Some? ==> OpenClarification(View(), found.value, taskId)
      ensures found.None? ==> forall r :: !OpenClarification(View(), r, taskId)
    {
      var rest := humanRequests.Keys;
      while rest != {}
        invariant rest <= humanRequests.Keys
        invariant forall r | r !in rest :: !OpenClarification(View(), r, taskId)
        decreases rest
      {
        var r :| r in rest;
        var q := humanRequests[r];
        if q.taskId == taskId && q.kind == Clarification && q.status == Open {
          return Some(r);
        }
        rest := rest - {r};
      }
      return None;
    }

    method FindOpenApproval(taskId: Name, approvalType: string) returns (found: Option<Name>)
      ensures found.Some? ==> OpenApproval(View(), found.value, taskId, approvalType)
      ensures found.None? ==> forall r :: !OpenApproval(View(), r, taskId, approvalType)
    {
      var rest := approvalRequests.Keys;
      while rest != {}
        invariant rest <= approvalRequests.Keys
        invariant forall r | r !in rest :: !OpenApproval(View(), r, taskId, approvalType)
        decreases rest
      {
        var r :| r in rest;
        var q := approvalRequests[r];
        if q.taskId == taskId && q.approvalType == approvalType && q.status == Requested {
          return Some(r);
        }
        rest := rest - {r};
      }
      return None;
    }

    /** Reword the open clarification of the task, or store a new one. */
    method StoreClarification(taskId: Name, attemptId: Name, question: string, context: string, freshId: Name)
      returns (request: HumanRequest)
      requires Valid()
      modifies this`humanRequests
      ensures request == ClarificationToStore(old(View()), taskId, attemptId, question, context, freshId)
      ensures View() == StoreHuman(old(View()), request)
    {
      hide GraphOk, Indexed, Safe, Numbered, OneActive, HumanOk, ApprovalsOk, RequestsOwned, StatusOk, ClarificationToStore;
      var open_ := FindOpenClarification(taskId);
      request := if open_.Some? then humanRequests[open_.value].(question := question, context := context)
                 else HumanRequest(freshId, graph.run.id, taskId, attemptId, Clarification, question, context, Open, None, None);
      ClarificationUnique(View(), taskId, attemptId, question, context, freshId, open_, request);
      humanRequests := humanRequests[request.id := request];
    }

    method StoreApprovalRequest(taskId: Name, attemptId: Name, approvalType: string, reason: string, freshId: Name)
      returns (request: ApprovalRequest)
      requires Valid()
      modifies this`approvalRequests
      ensures request == ApprovalToStore(old(View()), taskId, attemptId, approvalType, reason, freshId)
      ensures View() == StoreApproval(old(View()), request)
    {
      hide GraphOk, Indexed, Safe, Numbered, OneActive, HumanOk, ApprovalsOk, RequestsOwned, StatusOk, ApprovalToStore;
      var open_ := FindOpenApproval(taskId, approvalType);
      request := if open_.Some? then approvalRequests[open_.value].(reason := reason)
                 else ApprovalRequest(freshId, graph.run.id, taskId, attemptId, approvalType, reason, Requested, None);
      ApprovalUnique(View(), taskId, attemptId, approvalType, reason, freshId, open_, request);
      approvalRequests := approvalRequests[request.id := request];
    }

    /** Park the task for a request already stored; the request stays even when this raises. */
    method ParkTask<T>(task: Task, to: TaskState, request: T) returns (r: Result<T>)
      requires task.id in tasksById && tasksById[task.id] == task
      modifies this`tasksById, this`tasksByKey, this`graph
      ensures Outcome(View(), r) == Park(old(View()), task.id, to, request)
    {
      if task.state != to {
        var moved := MoveTask(task, to, None);
        if moved.Err? {
          return Err(moved.error);
        }
      }
      return Ok(request);
    }

    /** After an answer or a decision: move the parked task on, unless another attempt is active. */
    method ReleaseTask(task: Task, parked: TaskState, attemptId: Name, to: TaskState, reason: Option<string>)
      requires task.id in tasksById && tasksById[task.id] == task
      modifies this`tasksById, this`tasksByKey, this`graph
      ensures View() == Release(old(View()), task.id, parked, attemptId, to, reason)
    {
      var active := LatestActiveAttempt(task.id);
      if task.state == parked && (active == None || active == Some(attemptId)) {
        var moved := MoveTask(task, to, reason);
      }
    }

    method RequestClarification(ref: Name, attemptId: Name, question: string, context: string, freshId: Name)
      returns (r: Result<HumanRequest>)
      requires Valid()
      modifies this`humanRequests, this`tasksById, this`tasksByKey, this`graph
      ensures Outcome(View(), r) == RunModel.RequestClarification(old(View()), ref, attemptId, question, context, freshId)
    {
      hide GraphOk, Indexed, Safe, Numbered, OneActive, HumanOk, ApprovalsOk, RequestsOwned, StatusOk, Park, ClarificationToStore;
      var found := FindTask(ref);
      if found.Err? {
        return Err(found.error);
      }
      ghost var at := TaskAt(View(), Lookup(View(), ref).value);
      var request := StoreClarification(found.value.id, attemptId, question, context, freshId);
      r := ParkTask(found.value, WAITING_FOR_HUMAN, request);
    }

    method RequestApproval(ref: Name, attemptId: Name, approvalType: string, reason: string, freshId: Name)
      returns (r: Result<ApprovalRequest>)
      requires Valid()
      modifies this`approvalRequests, this`tasksById, this`tasksByKey, this`graph
      ensures Outcome(View(), r) == RunModel.RequestApproval(old(View()), ref, attemptId, approvalType, reason, freshId)
    {
      hide GraphOk, Indexed, Safe, Numbered, OneActive, HumanOk, ApprovalsOk, RequestsOwned, StatusOk, Park, ApprovalToStore;
      var found := FindTask(ref);
      if found.Err? {
        return Err(found.error);
      }
      ghost var at := TaskAt(View(), Lookup(View(), ref).value);
      var request := StoreApprovalRequest(found.value.id, attemptId, approvalType, reason, freshId);
      r := ParkTask(found.value, WAITING_FOR_APPROVAL, request);
    }

    method AnswerHumanRequest(requestId: Name, answer: string, who: string) returns (r: Result<HumanRequest>)
      requires Valid()
      modifies this`humanRequests, this`tasksById, this`tasksByKey, this`graph
      ensures Outcome(View(), r) == RunModel.AnswerHumanRequest(old(View()), requestId, answer, who)
    {
      hide GraphOk, Indexed, Safe, Numbered, OneActive, HumanOk, ApprovalsOk, RequestsOwned, StatusOk, Release;
      if requestId !in humanRequests {
        return Err(UnknownKey);
      }
      var request := humanRequests[requestId];
      var found := FindTask(request.taskId);
      if found.Err? {
        return Err(found.error);
      }
      ghost var at := TaskAt(View(), Lookup(View(), request.taskId).value);
      request := request.(status := Answered, answer := Some(answer), answeredBy := Some(who));
      humanRequests := humanRequests[request.id := request];
      ReleaseTask(found.value, WAITING_FOR_HUMAN, request.attemptId, READY, None);
      return Ok(request);
    }

    method ResolveApproval(requestId: Name, approved: bool, who: string) returns (r: Result<ApprovalRequest>)
      requires Valid()
      modifies this`approvalRequests, this`tasksById, this`tasksByKey, this`graph
      ensures Outcome(View(), r) == RunModel.ResolveApproval(old(View()), requestId, approved, who)
    {
      hide GraphOk, Indexed, Safe, Numbered, OneActive, HumanOk, ApprovalsOk, RequestsOwned, StatusOk, Release;
      if requestId !in approvalRequests {
        return Err(UnknownKey);
      }
      var request := approvalRequests[requestId];
      var found := FindTask(request.taskId);
      if found.Err? {
        return Err(found.error);
      }
      ghost var at := TaskAt(View(), Lookup(View(), request.taskId).value);
      request := request.(status := if approved then Approved else Rejected, resolvedBy := Some(who));
      approvalRequests := approvalRequests[request.id := request];
      if approved {
        ReleaseTask(found.value, WAITING_FOR_APPROVAL, request.attemptId, READY, None);
      } else {
        ReleaseTask(found.value, WAITING_FOR_APPROVAL, request.attemptId, BLOCKED, Some("approval_rejected"));
      }
      return Ok(request);
    }

    // -------------------------------------------------------------- any call

    /** One call of any method, as another thread holding the runtime lock might make it. */
    method Perform(op: Op)
      requires Valid() && Legal(View(), op)
      modifies this
      ensures Valid()
      ensures View() == Apply(old(View()), op)
    {
      hide Inv, Permitted, CleanBatch, SetTask, RunModel.RecordAttempt, RunModel.AddDynamicTasks, RunModel.OpenAttempt, RunModel.MoveAttempt, RunModel.StartAttempt, RunModel.DispatchAttempt, Promote, RunModel.StartTask, RunModel.FailTask, RunModel.UnblockTask, RunModel.BlockTask, RunModel.CompleteTask, RunModel.RequestClarification, RunModel.AnswerHumanRequest, RunModel.RequestApproval, RunModel.ResolveApproval;
      StepInv(View(), op);
      match op {
        case AddDynamic(tasks, edges) => var r := AddDynamicTasks(tasks, edges);
        case UpdateTask(t) => UpdateTask(t);
        case OpenOp(ref, freshId, leaseKey, payload) => var r := OpenAttempt(ref, freshId, leaseKey, payload);
        case Record(a) => RecordAttempt(a);
        case Dispatch(id) => var r := DispatchAttempt(id);
        case Start(id) => var r := StartAttempt(id);
        case Move(id, to) => var r := MoveAttempt(id, to);
        case PromoteReady => var r := PromoteReadyTasks();
        case StartTaskOp(ref) => var r := StartTask(ref);
        case FailTaskOp(ref, reason) => var r := FailTask(ref, reason);
        case Unblock(ref) => var r := UnblockTask(ref);
        case Block(ref, reason) => var r := BlockTask(ref, reason);
        case Complete(ref) => var r := CompleteTask(ref);
        case AskHuman(ref, a, q, c, f) => var r := RequestClarification(ref, a, q, c, f);
        case AnswerHuman(q, a, w) => var r := AnswerHumanRequest(q, a, w);
        case AskApproval(ref, a, t, reason, f) => var r := RequestApproval(ref, a, t, reason, f);
        case Resolve(q, ok, w) => var r := ResolveApproval(q, ok, w);
      }
    }
  }

  // ---------------------------------------------------------------- facts used above

  lemma PrefixGrows(order: seq<Name>, i: nat)
    requires i < |order|
    requires Distinct(order)
    ensures order[i] in Elements(order) && order[i] !in Elements(order[..i])
    ensures Elements(order[..i + 1]) == Elements(order[..i]) + {order[i]}
    ensures order[..i + 1][..i] == order[..i] && order[..i + 1][i] == order[i]
  {
    assert order[..i + 1] == order[..i] + [order[i]];
  }

  lemma SelectPush(order: seq<Name>, i: nat, chosen: iset<Name>)
    requires i < |order|
    ensures Select(order[..i + 1], chosen) == Select(order[..i], chosen) + if order[i] in chosen then [order[i]] else []
  {
    assert order[..i + 1][..i] == order[..i];
  }

  lemma TaskOrderFacts(s: RunState)
    requires Inv(s)
    ensures Schedulable(TaskIds(s.graph.tasks), s.graph.edges)
    ensures Order(TaskIds(s.graph.tasks), s.graph.edges) == Ok(TaskOrder(s))
    ensures Distinct(TaskOrder(s)) && Elements(TaskOrder(s)) == s.tasksById.Keys
  {
    InvSchedulable(s);
    OrderIsTopological(TaskIds(s.graph.tasks), s.graph.edges);
  }

  lemma ParentsKnown(s: RunState, id: Name)
    requires Inv(s)
    ensures forall k | 0 <= k < |Predecessors(s.graph.edges, id)| :: Predecessors(s.graph.edges, id)[k] in s.tasksById
  {
    forall k | 0 <= k < |Predecessors(s.graph.edges, id)| ensures Predecessors(s.graph.edges, id)[k] in s.tasksById {
      var i := PredecessorAt(s.graph.edges, id, k);
    }
  }

  lemma DoneByParents(s: RunState, id: Name)
    requires forall k | 0 <= k < |Predecessors(s.graph.edges, id)| :: Predecessors(s.graph.edges, id)[k] in s.tasksById
    ensures Done(s, id) <==>
              forall k | 0 <= k < |Predecessors(s.graph.edges, id)| :: s.tasksById[Predecessors(s.graph.edges, id)[k]].state == COMPLETED
  {
    hide Predecessors;
    var parents := Predecessors(s.graph.edges, id);
    forall k | 0 <= k < |parents| ensures Done(s, id) ==> s.tasksById[parents[k]].state == COMPLETED {
      var i := PredecessorAt(s.graph.edges, id, k);
    }
    forall i | 0 <= i < |s.graph.edges| && s.graph.edges[i].hard && s.graph.edges[i].to == id
      ensures exists k :: 0 <= k < |parents| && parents[k] == s.graph.edges[i].from
    {
      PredecessorsMonotone(s.graph.edges, id, i);
      assert parents[|Predecessors(s.graph.edges[..i], id)|] == s.graph.edges[i].from;
    }
  }

  lemma SetTaskSame(s: RunState, id: Name)
    requires Inv(s) && id in s.tasksById
    ensures SetTask(s, s.tasksById[id]) == s
  {
    hide GraphOk, Safe, Numbered, OneActive, HumanOk, ApprovalsOk, RequestsOwned, StatusOk, Refresh;
    var i := TaskAt(s, id);
    assert s.tasksById[id := s.tasksById[id]] == s.tasksById;
    assert s.tasksByKey[s.graph.tasks[i].key := id] == s.tasksByKey;
    RefreshSame(s.graph.tasks, s.tasksById);
  }

  lemma RefreshSame(tasks: seq<Task>, byId: map<Name, Task>)
    requires forall k | 0 <= k < |tasks| :: tasks[k].id in byId && byId[tasks[k].id] == tasks[k]
    ensures Refresh(tasks, byId) == tasks
  {
  }

  lemma SetTaskTwice(s: RunState, a: Task, b: Task)
    requires a.id == b.id && a.key == b.key && a.id in s.tasksById
    requires Inv(s)
    ensures SetTask(SetTask(s, a), b) == SetTask(s, b)
  {
    hide GraphOk, Safe, Numbered, OneActive, HumanOk, ApprovalsOk, RequestsOwned, StatusOk;
    assert s.tasksById[a.id := a][b.id := b] == s.tasksById[b.id := b];
    assert s.tasksByKey[a.key := a.id][b.key := b.id] == s.tasksByKey[b.key := b.id];
    var i := TaskAt(s, a.id);
    var x, y := SetTask(SetTask(s, a), b).graph.tasks, SetTask(s, b).graph.tasks;
    forall k | 0 <= k < |s.graph.tasks| ensures x[k] == y[k] {
    }
    assert x == y;
  }

  lemma PromoteNone(s: RunState)
    ensures PromoteSome(s, {}) == s
  {
    assert PromoteSome(s, {}).tasksById == s.tasksById;
    assert PromoteSome(s, {}).graph.tasks == s.graph.tasks;
  }

  lemma PromotedTaskSame(s: RunState, done: set<Name>, id: Name)
    requires Inv(s) && id in s.tasksById && id !in done
    ensures var u := PromoteSome(s, done);
            && PromotedTask(u, u.tasksById[id]) == PromotedTask(s, s.tasksById[id])
            && (Runnable(u, id) <==> Runnable(s, id))
            && PromotedTask(s, s.tasksById[id]).id == id
            && PromotedTask(s, s.tasksById[id]).key in s.tasksByKey
            && s.tasksByKey[PromotedTask(s, s.tasksById[id]).key] == id
  {
    hide GraphOk, Safe, Numbered, OneActive, HumanOk, ApprovalsOk, RequestsOwned, StatusOk;
    var i := TaskAt(s, id);
    PromoteKeepsDone(s, done, id);
  }

  lemma SetTaskAt(u: RunState, t: Task, k: nat)
    requires k < |u.graph.tasks| && u.graph.tasks[k].id in u.tasksById && u.tasksById[u.graph.tasks[k].id] == u.graph.tasks[k]
    ensures SetTask(u, t).graph.tasks[k] == if u.graph.tasks[k].id == t.id then t else u.graph.tasks[k]
  {
  }

  /** The task at place `k` of the graph, after promoting some, is the promoted record or its own. */
  lemma PromotedAt(s: RunState, done: set<Name>, k: nat)
    requires Inv(s) && k < |s.graph.tasks|
    ensures var u, t := PromoteSome(s, done), s.graph.tasks[k];
            && |u.graph.tasks| == |s.graph.tasks| && u.graph.tasks[k].id == t.id
            && u.graph.tasks[k] == (if t.id in done then PromotedTask(s, t) else t)
            && t.id in s.tasksById && s.tasksById[t.id] == t
            && t.id in u.tasksById && u.tasksById[t.id] == u.graph.tasks[k]
  {
    hide GraphOk, Safe, Numbered, OneActive, HumanOk, ApprovalsOk, RequestsOwned, StatusOk, Done;
  }

  lemma PromoteSomeAt(s: RunState, done: set<Name>, id: Name, k: nat)
    requires Inv(s) && id in s.tasksById && id !in done && k < |s.graph.tasks|
    ensures |SetTask(PromoteSome(s, done), PromotedTask(s, s.tasksById[id])).graph.tasks| == |s.graph.tasks|
    ensures SetTask(PromoteSome(s, done), PromotedTask(s, s.tasksById[id])).graph.tasks[k] == PromoteSome(s, done + {id}).graph.tasks[k]
  {
    hide Inv, PromotedTask, SetTask, PromoteSome;
    var u, t := PromoteSome(s, done), PromotedTask(s, s.tasksById[id]);
    KnownById(s, id);
    PromotedAt(s, done, k);
    PromotedAt(s, done + {id}, k);
    SetTaskLength(u, t);
    SetTaskAt(u, t, k);
  }

  lemma KnownById(s: RunState, id: Name)
    requires Inv(s) && id in s.tasksById
    ensures PromotedTask(s, s.tasksById[id]).id == id
  {
    hide GraphOk, Safe, Numbered, OneActive, HumanOk, ApprovalsOk, RequestsOwned, StatusOk;
    var at := TaskAt(s, id);
  }

  lemma PromoteSomeTasks(s: RunState, done: set<Name>, id: Name)
    requires Inv(s) && id in s.tasksById && id !in done
    ensures SetTask(PromoteSome(s, done), PromotedTask(s, s.tasksById[id])).graph.tasks == PromoteSome(s, done + {id}).graph.tasks
  {
    hide Inv, PromotedTask, SetTask;
    var x, y := SetTask(PromoteSome(s, done), PromotedTask(s, s.tasksById[id])).graph.tasks, PromoteSome(s, done + {id}).graph.tasks;
    SetTaskLength(PromoteSome(s, done), PromotedTask(s, s.tasksById[id]));
    forall k | 0 <= k < |s.graph.tasks| ensures x[k] == y[k] {
      PromoteSomeAt(s, done, id, k);
    }
  }

  lemma SetTaskLength(u: RunState, t: Task)
    ensures |SetTask(u, t).graph.tasks| == |u.graph.tasks|
  {
  }

  lemma PromoteSomeStep(s: RunState, done: set<Name>, id: Name)
    requires Inv(s) && id in s.tasksById && id !in done
    ensures var u := PromoteSome(s, done);
            && SetTask(u, PromotedTask(u, u.tasksById[id])) == PromoteSome(s, done + {id})
            && (Runnable(u, id) <==> Runnable(s, id))
  {
    hide GraphOk, Indexed, Safe, Numbered, OneActive, HumanOk, ApprovalsOk, StatusOk;
    PromotedTaskSame(s, done, id);
    PromoteSomeTasks(s, done, id);
    var u, v := PromoteSome(s, done), PromoteSome(s, done + {id});
    var t := PromotedTask(s, s.tasksById[id]);
    assert u.tasksById[t.id := t] == v.tasksById;
    assert u.tasksByKey[t.key := t.id] == s.tasksByKey;
  }

  lemma ClarificationUnique(s: RunState, taskId: Name, attemptId: Name, question: string, context: string, freshId: Name,
                            found: Option<Name>, request: HumanRequest)
    requires Inv(s)
    requires found.Some? ==> OpenClarification(s, found.value, taskId) && request == s.humanRequests[found.value].(question := question, context := context)
    requires found.None? ==> (forall r :: !OpenClarification(s, r, taskId))
                             && request == HumanRequest(freshId, s.graph.run.id, taskId, attemptId, Clarification, question, context, Open, None, None)
    ensures request == ClarificationToStore(s, taskId, attemptId, question, context, freshId)
  {
    hide GraphOk, Indexed, Safe, Numbered, OneActive, ApprovalsOk, RequestsOwned, StatusOk;
    if found.Some? {
      forall r | OpenClarification(s, r, taskId) ensures r == found.value {
      }
    }
  }

  lemma ApprovalUnique(s: RunState, taskId: Name, attemptId: Name, approvalType: string, reason: string, freshId: Name,
                       found: Option<Name>, request: ApprovalRequest)
    requires Inv(s)
    requires found.Some? ==> OpenApproval(s, found.value, taskId, approvalType) && request == s.approvalRequests[found.value].(reason := reason)
    requires found.None? ==> (forall r :: !OpenApproval(s, r, taskId, approvalType))
                             && request == ApprovalRequest(freshId, s.graph.run.id, taskId, attemptId, approvalType, reason, Requested, None)
    ensures request == ApprovalToStore(s, taskId, attemptId, approvalType, reason, freshId)
  {
    hide GraphOk, Indexed, Safe, Numbered, OneActive, HumanOk, RequestsOwned, StatusOk;
    if found.Some? {
      forall r | OpenApproval(s, r, taskId, approvalType) ensures r == found.value {
      }
    }
  }
}
