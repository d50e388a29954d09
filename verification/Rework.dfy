/** One-time graph growth after a review (local_runtime.py): the rework plan and the release
    signoff, appended to a running workflow. */
module Rework {
  import opened Names
  import opened Wrappers
  import opened Sequences
  import opened Digraph
  import opened Records
  import opened DependencyGraph
  import opened RunModel
  import opened RunInvariant
  import opened RunHistory
  import opened WorkflowRun
  import opened Orchestration
  import opened Effects

  const REVIEW := Name("review")
  const MANAGER := Name("manager_rework")
  const BACKEND := Name("backend_rework")
  const FRONTEND := Name("frontend_rework")
  const INTEGRATION := Name("integration_rework")
  const SIGNOFF := Name("release_signoff")

  const REWORK_KEYS := [MANAGER, BACKEND, FRONTEND, INTEGRATION]

  /** Ids drawn for the new tasks and edges. */
  datatype Drawn = Drawn(tasks: seq<Name>, edges: seq<Name>)

  function NewTask(runId: Name, id: Name, key: Name): Task {
    Task(id, runId, key, CREATED, None, "")
  }

  function NewTasks(runId: Name, ids: seq<Name>, keys: seq<Name>): (r: seq<Task>)
    requires |ids| == |keys|
    ensures |r| == |keys|
  {
    seq(|keys|, i requires 0 <= i < |keys| => NewTask(runId, ids[i], keys[i]))
  }

  function HardEdge(runId: Name, id: Name, from: Name, to: Name): Edge {
    Edge(id, runId, from, to, true)
  }

  function ReworkTasks(runId: Name, d: Drawn): seq<Task>
    requires |d.tasks| == 4
  {
    NewTasks(runId, d.tasks, REWORK_KEYS)
  }

  /** review -> manager -> {backend, frontend} -> integration */
  function ReworkEdges(runId: Name, review: Name, d: Drawn): seq<Edge>
    requires |d.tasks| == 4 && |d.edges| == 5
  {
    [HardEdge(runId, d.edges[0], review, d.tasks[0]),
     HardEdge(runId, d.edges[1], d.tasks[0], d.tasks[1]),
     HardEdge(runId, d.edges[2], d.tasks[0], d.tasks[2]),
     HardEdge(runId, d.edges[3], d.tasks[1], d.tasks[3]),
     HardEdge(runId, d.edges[4], d.tasks[2], d.tasks[3])]
  }

  /** `{task.task_key for task in tasks_by_id.values()}` */
  function ExistingKeys(s: RunState): set<Name> {
    set x | x in s.tasksById :: s.tasksById[x].key
  }

  ghost function Answered<T>(o: Outcome<seq<Task>>): Outcome<seq<Name>> {
    Outcome(o.state, if o.reply.Ok? then Ok(TaskKeys(o.reply.value)) else Err(o.reply.error))
  }

  /** `_append_review_rework_tasks` */
  ghost function AppendRework(s: RunState, review: Task, revise: bool, d: Drawn): Outcome<seq<Name>>
    requires |d.tasks| == 4 && |d.edges| == 5
  {
    if review.key != REVIEW || !revise || (exists k :: k in REWORK_KEYS && k in ExistingKeys(s)) then Outcome(s, Ok([]))
    else Answered<Task>(AddDynamicTasks(s, ReworkTasks(review.runId, d), ReworkEdges(review.runId, review.id, d)))
  }

  /** `_append_release_signoff_task` */
  ghost function AppendSignoff(s: RunState, trigger: Task, required: bool, d: Drawn): Outcome<seq<Name>>
    requires |d.tasks| == 1 && |d.edges| == 1
  {
    if !required || SIGNOFF in ExistingKeys(s) then Outcome(s, Ok([]))
    else
      Answered<Task>(AddDynamicTasks(s, NewTasks(trigger.runId, d.tasks, [SIGNOFF]),
                                     [HardEdge(trigger.runId, d.edges[0], trigger.id, d.tasks[0])]))
  }

  /** What happens after a task has succeeded: rework, or signoff when there is none to plan. */
  ghost function FollowUp(s: RunState, task: Task, revise: bool, required: bool, rework: Drawn, signoff: Drawn): Outcome<seq<Name>>
    requires |rework.tasks| == 4 && |rework.edges| == 5 && |signoff.tasks| == 1 && |signoff.edges| == 1
  {
    var first := AppendRework(s, task, revise, rework);
    if first.reply.Err? then first
    else if task.key == REVIEW && first.reply.value == [] then AppendSignoff(first.state, task, required, signoff)
    else if task.key == INTEGRATION then AppendSignoff(first.state, task, required, signoff)
    else first
  }

  // ---------------------------------------------------------------- the batches are clean

  /** Drawn ids are new, and are nobody's key; and no task id looks like one of the new keys. */
  ghost predicate FreshFor(s: RunState, d: Drawn, keys: seq<Name>) {
    && |d.tasks| == |keys| && Distinct(d.tasks) && Distinct(d.edges)
    && (forall i | 0 <= i < |d.tasks| :: d.tasks[i] !in s.tasksById && d.tasks[i] !in s.tasksByKey && d.tasks[i] !in keys)
    && (forall i | 0 <= i < |keys| :: keys[i] !in s.tasksById)
    && (forall i | 0 <= i < |d.edges| :: d.edges[i] !in EdgeIds(s.graph.edges))
  }

  lemma ExistingIsKeyed(s: RunState)
    requires Inv(s)
    ensures ExistingKeys(s) == s.tasksByKey.Keys
  {
    hide GraphOk, Safe, Numbered, OneActive, HumanOk, ApprovalsOk, StatusOk;
    forall k | k in s.tasksByKey ensures k in ExistingKeys(s) {
      assert k in Elements(TaskKeys(s.graph.tasks));
      var i :| 0 <= i < |s.graph.tasks| && TaskKeys(s.graph.tasks)[i] == k;
      assert s.graph.tasks[i].id in s.tasksById;
    }
    forall x | x in s.tasksById ensures s.tasksById[x].key in s.tasksByKey {
      var i := TaskAt(s, x);
    }
  }

  lemma NewTasksShape(runId: Name, ids: seq<Name>, keys: seq<Name>)
    requires |ids| == |keys|
    ensures TaskIds(NewTasks(runId, ids, keys)) == ids && TaskKeys(NewTasks(runId, ids, keys)) == keys
  {
  }

  lemma NewTasksFit(s: RunState, d: Drawn, keys: seq<Name>, runId: Name)
    requires Inv(s) && FreshFor(s, d, keys) && forall k | k in keys :: k !in s.tasksByKey
    ensures NewToRun(s, NewTasks(runId, d.tasks, keys))
    ensures NoAlias(s.graph.tasks + NewTasks(runId, d.tasks, keys))
  {
    hide Safe, Numbered, OneActive, HumanOk, ApprovalsOk, StatusOk, Distinct, Acyclic, Unrepeated, Owned, EndpointsIn;
    var fresh_ := NewTasks(runId, d.tasks, keys);
    forall i | 0 <= i < |fresh_| ensures fresh_[i].id !in s.tasksById && fresh_[i].key !in s.tasksByKey {
      assert keys[i] in keys;
    }
    var all := s.graph.tasks + fresh_;
    forall i, j | 0 <= i < |all| && 0 <= j < |all| && all[i].key == all[j].id ensures i == j {
      if i >= |s.graph.tasks| || j >= |s.graph.tasks| {
        KeyIsNoId(s, d, keys, runId, i, j);
      }
    }
  }

  lemma KeyIsNoId(s: RunState, d: Drawn, keys: seq<Name>, runId: Name, i: nat, j: nat)
    requires Inv(s) && FreshFor(s, d, keys)
    requires i < |s.graph.tasks| + |keys| && j < |s.graph.tasks| + |keys| && (i >= |s.graph.tasks| || j >= |s.graph.tasks|)
    ensures var all := s.graph.tasks + NewTasks(runId, d.tasks, keys); all[i].key != all[j].id
  {
    hide Safe, Numbered, OneActive, HumanOk, ApprovalsOk, StatusOk, Distinct, Acyclic, Unrepeated, Owned, EndpointsIn;
    var n := |s.graph.tasks|;
    if i >= n && j >= n {
      assert keys[i - n] in keys;
    } else if i >= n {
      assert s.graph.tasks[j].id in s.tasksById;
    } else {
      assert s.graph.tasks[i].key in s.tasksByKey;
    }
  }

  lemma EdgeIdsFresh(s: RunState, edges: seq<Edge>, ids: seq<Name>)
    requires Inv(s) && EdgeIds(edges) == ids && Distinct(ids)
    requires forall i | 0 <= i < |ids| :: ids[i] !in EdgeIds(s.graph.edges)
    ensures Distinct(EdgeIds(s.graph.edges + edges))
  {
    hide Safe, Indexed, Numbered, OneActive, HumanOk, ApprovalsOk, StatusOk, Acyclic, Unrepeated, Owned, EndpointsIn, NoAlias;
    assert EdgeIds(s.graph.edges + edges) == EdgeIds(s.graph.edges) + EdgeIds(edges);
    DistinctAppend(EdgeIds(s.graph.edges), EdgeIds(edges));
  }

  /** Edges out of older tasks of the plan into younger ones cannot close a cycle. */
  lemma RankedAcyclic(edges: seq<Edge>, order: seq<Name>)
    requires Distinct(order)
    requires forall e | 0 <= e < |edges| :: exists i :: 0 <= i < |order| && order[i] == edges[e].to
    requires forall e, i | 0 <= e < |edges| && 0 <= i < |order| && order[i] == edges[e].to ::
               exists j :: 0 <= j < i && order[j] == edges[e].from
    ensures Acyclic(HardArcs(edges))
  {
    HardArcsMembers(edges);
    var arcs := HardArcs(edges);
    forall i, y | 0 <= i < |order| && (order[i], y) in arcs ensures Before(order, y, i) {
      var e :| 0 <= e < |edges| && edges[e].hard && edges[e].to == order[i] && edges[e].from == y;
      var j :| 0 <= j < i && order[j] == edges[e].from;
    }
    forall arc | arc in arcs ensures arc.0 in order {
      var e :| 0 <= e < |edges| && edges[e].hard && edges[e].to == arc.0 && edges[e].from == arc.1;
    }
    SupportedAcyclic(arcs, order);
  }

  lemma ReworkPlanAcyclic(runId: Name, review: Name, d: Drawn)
    requires |d.tasks| == 4 && |d.edges| == 5 && Distinct(d.tasks) && review !in d.tasks
    ensures Acyclic(HardArcs(ReworkEdges(runId, review, d)))
  {
    hide Acyclic, HardArcs;
    var order := [review] + d.tasks;
    DistinctAppend([review], d.tasks);
    assert order[0] == review && order[1] == d.tasks[0] && order[2] == d.tasks[1] && order[3] == d.tasks[2] && order[4] == d.tasks[3];
    RankedAcyclic(ReworkEdges(runId, review, d), order);
  }

  lemma ReworkPlanUnrepeated(runId: Name, review: Name, d: Drawn)
    requires |d.tasks| == 4 && |d.edges| == 5 && Distinct(d.tasks) && review !in d.tasks
    ensures Unrepeated(ReworkEdges(runId, review, d)) && EdgeIds(ReworkEdges(runId, review, d)) == d.edges
  {
    var edges := ReworkEdges(runId, review, d);
    assert d.tasks[0] != review && d.tasks[1] != review && d.tasks[2] != review && d.tasks[3] != review;
    assert EdgeIds(edges) == d.edges;
  }

  lemma ReworkKeysDistinct()
    ensures Distinct(REWORK_KEYS) && |REWORK_KEYS| == 4
  {
    assert MANAGER.text[0] == 'm' && BACKEND.text[0] == 'b' && FRONTEND.text[0] == 'f' && INTEGRATION.text[0] == 'i';
  }

  // ---------------------------------------------------------------- the rework plan

  /** No rework key is taken yet. */
  predicate NoRework(s: RunState) {
    forall k | k in REWORK_KEYS :: k !in ExistingKeys(s)
  }

  /** The plan may always be appended to a run with this review that has none: the batch is clean
      and accepted. */
  lemma ReworkAccepted(s: RunState, review: Task, d: Drawn)
    requires Inv(s) && review.id in s.tasksById && s.tasksById[review.id] == review && NoRework(s)
    requires |d.edges| == 5 && FreshFor(s, d, REWORK_KEYS)
    ensures |d.tasks| == 4
    ensures CleanBatch(s, ReworkTasks(review.runId, d), ReworkEdges(review.runId, review.id, d))
    ensures Appendable(s, ReworkTasks(review.runId, d), ReworkEdges(review.runId, review.id, d))
  {
    hide Safe, Numbered, OneActive, HumanOk, ApprovalsOk, RequestsOwned, StatusOk, Acyclic, Unrepeated, NoAlias, Distinct, HardArcs, EndpointsIn, ExistingKeys;
    var tasks, edges := ReworkTasks(review.runId, d), ReworkEdges(review.runId, review.id, d);
    ReworkKeysDistinct();
    ExistingIsKeyed(s);
    NewTasksShape(review.runId, d.tasks, REWORK_KEYS);
    NewTasksFit(s, d, REWORK_KEYS, review.runId);
    ReworkPlanAcyclic(review.runId, review.id, d);
    ReworkPlanUnrepeated(review.runId, review.id, d);
    EdgeIdsFresh(s, edges, d.edges);
    var at := TaskAt(s, review.id);
    ReworkEndpoints(s, review, d);
  }

  lemma ReworkEndpoints(s: RunState, review: Task, d: Drawn)
    requires Indexed(s.graph.tasks, s.tasksById, s.tasksByKey) && review.id in s.tasksById
    requires |d.tasks| == 4 && |d.edges| == 5
    ensures EndpointsIn(Elements(TaskIds(s.graph.tasks)) + Elements(d.tasks), ReworkEdges(review.runId, review.id, d))
    ensures forall i | 0 <= i < 5 :: ReworkEdges(review.runId, review.id, d)[i].to in d.tasks
  {
  }

  /** A batch was appended: the revision moved by one, the run is live again, the new tasks wait,
      and nothing old changed. */
  ghost predicate GrownBy(s: RunState, u: RunState, tasks: seq<Task>, edges: seq<Edge>) {
    && Inv(u) && u.graphRevision == s.graphRevision + 1 && u.graph.run.status == RunRunning
    && u.graph.tasks == s.graph.tasks + tasks && u.graph.edges == s.graph.edges + edges
    && (forall x | x in s.tasksById :: x in u.tasksById && u.tasksById[x] == s.tasksById[x])
    && u.tasksById.Keys == s.tasksById.Keys + Elements(TaskIds(tasks))
  }

  lemma AppendGrows(s: RunState, tasks: seq<Task>, edges: seq<Edge>)
    requires Inv(s) && tasks != [] && CleanBatch(s, tasks, edges) && Appendable(s, tasks, edges)
    ensures AddDynamicTasks(s, tasks, edges).reply == Ok(tasks)
    ensures GrownBy(s, AddDynamicTasks(s, tasks, edges).state, tasks, edges)
  {
    hide GraphOk, Indexed, Safe, Numbered, OneActive, HumanOk, ApprovalsOk, StatusOk;
    AppendedInv(s, tasks, edges);
    AddByIdFacts(s.tasksById, tasks);
    forall x | x in s.tasksById ensures x in Appended(s, tasks, edges).tasksById && Appended(s, tasks, edges).tasksById[x] == s.tasksById[x] {
      AppendedTask(s, tasks, edges, x);
    }
  }

  /** The rework plan is appended exactly for a review that asks for revision in a run without
      one; then it is the four-task plan, and otherwise nothing changes.  It never raises. */
  lemma ReworkIff(s: RunState, review: Task, revise: bool, d: Drawn)
    requires Inv(s) && review.id in s.tasksById && s.tasksById[review.id] == review
    requires |d.tasks| == 4 && |d.edges| == 5 && FreshFor(s, d, REWORK_KEYS)
    ensures var o := AppendRework(s, review, revise, d);
            && o.reply.Ok?
            && (o.reply.value == REWORK_KEYS <==> review.key == REVIEW && revise && NoRework(s))
            && (o.reply.value == REWORK_KEYS ==> GrownBy(s, o.state, ReworkTasks(review.runId, d), ReworkEdges(review.runId, review.id, d)))
            && (o.reply.value != REWORK_KEYS ==> o.reply.value == [] && o.state == s)
  {
    hide Inv, FreshFor, CleanBatch, Appendable, GrownBy, AddDynamicTasks, ExistingKeys, ReworkEdges;
    if review.key == REVIEW && revise && NoRework(s) {
      ReworkAccepted(s, review, d);
      AppendGrows(s, ReworkTasks(review.runId, d), ReworkEdges(review.runId, review.id, d));
      NewTasksShape(review.runId, d.tasks, REWORK_KEYS);
    }
  }

  /** The signoff may always be appended to a run that has none. */
  lemma SignoffAccepted(s: RunState, trigger: Task, d: Drawn)
    requires Inv(s) && trigger.id in s.tasksById && s.tasksById[trigger.id] == trigger && SIGNOFF !in ExistingKeys(s)
    requires |d.edges| == 1 && FreshFor(s, d, [SIGNOFF])
    ensures |d.tasks| == 1
    ensures var tasks, edges := NewTasks(trigger.runId, d.tasks, [SIGNOFF]), [HardEdge(trigger.runId, d.edges[0], trigger.id, d.tasks[0])];
            CleanBatch(s, tasks, edges) && Appendable(s, tasks, edges)
  {
    hide Safe, Numbered, OneActive, HumanOk, ApprovalsOk, RequestsOwned, StatusOk, Acyclic, NoAlias, HardArcs, Unrepeated, EndpointsIn, ExistingKeys;
    var edges := [HardEdge(trigger.runId, d.edges[0], trigger.id, d.tasks[0])];
    ExistingIsKeyed(s);
    NewTasksShape(trigger.runId, d.tasks, [SIGNOFF]);
    NewTasksFit(s, d, [SIGNOFF], trigger.runId);
    OneEdge(edges[0]);
    assert EdgeIds(edges) == d.edges;
    EdgeIdsFresh(s, edges, d.edges);
    var at := TaskAt(s, trigger.id);
    SignoffEndpoints(s, trigger, d);
  }

  lemma SignoffEndpoints(s: RunState, trigger: Task, d: Drawn)
    requires Indexed(s.graph.tasks, s.tasksById, s.tasksByKey) && trigger.id in s.tasksById
    requires |d.tasks| == 1 && |d.edges| == 1
    ensures EndpointsIn(Elements(TaskIds(s.graph.tasks)) + Elements(d.tasks), [HardEdge(trigger.runId, d.edges[0], trigger.id, d.tasks[0])])
  {
  }

  lemma OneEdge(e: Edge)
    requires e.from != e.to
    ensures Acyclic(HardArcs([e])) && Unrepeated([e])
  {
    hide Acyclic, HardArcs;
    var order := [e.from, e.to];
    assert order[0] == e.from && order[1] == e.to;
    RankedAcyclic([e], order);
  }

  /** The signoff is appended exactly when it is required and the run has none. */
  lemma SignoffIff(s: RunState, trigger: Task, required: bool, d: Drawn)
    requires Inv(s) && trigger.id in s.tasksById && s.tasksById[trigger.id] == trigger
    requires |d.tasks| == 1 && |d.edges| == 1 && FreshFor(s, d, [SIGNOFF])
    ensures var o := AppendSignoff(s, trigger, required, d);
            && o.reply.Ok?
            && (o.reply.value == [SIGNOFF] <==> required && SIGNOFF !in ExistingKeys(s))
            && (o.reply.value == [SIGNOFF] ==>
                  GrownBy(s, o.state, NewTasks(trigger.runId, d.tasks, [SIGNOFF]), [HardEdge(trigger.runId, d.edges[0], trigger.id, d.tasks[0])]))
            && (o.reply.value != [SIGNOFF] ==> o.reply.value == [] && o.state == s)
  {
    hide Inv, FreshFor, CleanBatch, Appendable, GrownBy, AddDynamicTasks, ExistingKeys;
    if required && SIGNOFF !in ExistingKeys(s) {
      SignoffAccepted(s, trigger, d);
      AppendGrows(s, NewTasks(trigger.runId, d.tasks, [SIGNOFF]), [HardEdge(trigger.runId, d.edges[0], trigger.id, d.tasks[0])]);
      NewTasksShape(trigger.runId, d.tasks, [SIGNOFF]);
    }
  }

  /** A key of the graph is still taken after any further calls. */
  lemma KeyStays(s: RunState, ops: seq<Op>, i: nat)
    requires Inv(s) && LegalRun(s, ops) && i < |s.graph.tasks|
    ensures s.graph.tasks[i].key in ExistingKeys(RunHistory.Run(s, ops))
  {
    hide Inv, Legal, Apply, TasksKept;
    RunInv(s, ops);
    RunGrows(s, ops);
    var u := RunHistory.Run(s, ops);
    assert TaskKeys(s.graph.tasks)[i] == TaskKeys(u.graph.tasks)[i];
    GraphKeyExists(u, i);
  }

  lemma GraphKeyExists(u: RunState, i: nat)
    requires Inv(u) && i < |u.graph.tasks|
    ensures u.graph.tasks[i].key in ExistingKeys(u)
  {
    hide GraphOk, Safe, Numbered, OneActive, HumanOk, ApprovalsOk, StatusOk;
    var t := u.graph.tasks[i];
    assert t.id in u.tasksById && u.tasksById[t.id] == t;
  }

  /** Once planned, never planned again, whatever calls come in between. */
  lemma ReworkOnce(s: RunState, review: Task, d: Drawn, ops: seq<Op>, review': Task, revise': bool, d': Drawn)
    requires Inv(s) && review.id in s.tasksById && s.tasksById[review.id] == review && review.key == REVIEW && NoRework(s)
    requires |d.tasks| == 4 && |d.edges| == 5 && FreshFor(s, d, REWORK_KEYS) && |d'.tasks| == 4 && |d'.edges| == 5
    requires LegalRun(AppendRework(s, review, true, d).state, ops)
    ensures var once := AppendRework(s, review, true, d);
            var later := RunHistory.Run(once.state, ops);
            once.reply == Ok(REWORK_KEYS) && AppendRework(later, review', revise', d') == Outcome(later, Ok([]))
  {
    hide Inv, FreshFor, CleanBatch, Appendable, AddDynamicTasks, ReworkEdges, LegalRun, RunHistory.Run, ExistingKeys, NewTask;
    ReworkIff(s, review, true, d);
    NewTasksShape(review.runId, d.tasks, REWORK_KEYS);
    var u := AppendRework(s, review, true, d).state;
    AppendedKey(s.graph.tasks, ReworkTasks(review.runId, d), u.graph.tasks);
    KeyStays(u, ops, |s.graph.tasks|);
    assert REWORK_KEYS[0] == MANAGER;
  }

  /** The first of the appended tasks, and its key. */
  lemma AppendedKey(earlier: seq<Task>, added: seq<Task>, all: seq<Task>)
    requires all == earlier + added && |added| > 0
    ensures all[|earlier|].key == TaskKeys(added)[0]
  {
  }

  /** The same for the release signoff. */
  lemma SignoffOnce(s: RunState, trigger: Task, d: Drawn, ops: seq<Op>, trigger': Task, required': bool, d': Drawn)
    requires Inv(s) && trigger.id in s.tasksById && s.tasksById[trigger.id] == trigger && SIGNOFF !in ExistingKeys(s)
    requires |d.tasks| == 1 && |d.edges| == 1 && FreshFor(s, d, [SIGNOFF]) && |d'.tasks| == 1 && |d'.edges| == 1
    requires LegalRun(AppendSignoff(s, trigger, true, d).state, ops)
    ensures var once := AppendSignoff(s, trigger, true, d);
            var later := RunHistory.Run(once.state, ops);
            once.reply == Ok([SIGNOFF]) && AppendSignoff(later, trigger', required', d') == Outcome(later, Ok([]))
  {
    hide Inv, FreshFor, CleanBatch, Appendable, AddDynamicTasks, LegalRun, RunHistory.Run, ExistingKeys, NewTask;
    SignoffIff(s, trigger, true, d);
    NewTasksShape(trigger.runId, d.tasks, [SIGNOFF]);
    var u := AppendSignoff(s, trigger, true, d).state;
    AppendedKey(s.graph.tasks, NewTasks(trigger.runId, d.tasks, [SIGNOFF]), u.graph.tasks);
    KeyStays(u, ops, |s.graph.tasks|);
  }

  // ---------------------------------------------------------------- the shape of what was appended

  /** Under this key stands this task, and its hard predecessors are exactly these. */
  ghost predicate Stands(s: RunState, id: Name, key: string, needs: set<Name>) {
    && id in s.tasksById && s.tasksById[id].key == Name(key) && Lookup(s, Name(key)) == Ok(id)
    && forall y :: (id, y) in HardArcs(s.graph.edges) <==> y in needs
  }

  /** The hard edges into a new task are those of the batch, then and ever after. */
  lemma ArcsStay(s: RunState, added: seq<Edge>, u: RunState, ops: seq<Op>, id: Name)
    requires Inv(s) && Inv(u) && LegalRun(u, ops) && id !in s.tasksById && id in u.tasksById && u.graph.edges == s.graph.edges + added
    ensures forall y :: (id, y) in HardArcs(RunHistory.Run(u, ops).graph.edges) <==> (id, y) in HardArcs(added)
  {
    hide Legal, Apply, Indexed, Safe, Numbered, OneActive, HumanOk, ApprovalsOk, RequestsOwned, StatusOk, Distinct, Acyclic, Unrepeated, NoAlias, Owned, TasksKept;
    RunGrows(u, ops);
    var v := RunHistory.Run(u, ops);
    HardArcsMembers(v.graph.edges);
    HardArcsMembers(added);
    OldEnds(s);
    forall y | (id, y) in HardArcs(v.graph.edges) ensures (id, y) in HardArcs(added) {
      var i :| 0 <= i < |v.graph.edges| && v.graph.edges[i].hard && v.graph.edges[i].to == id && v.graph.edges[i].from == y;
      assert i < |u.graph.edges| && v.graph.edges[i] == u.graph.edges[i];
      assert i >= |s.graph.edges| && u.graph.edges[i] == added[i - |s.graph.edges|];
    }
    forall y | (id, y) in HardArcs(added) ensures (id, y) in HardArcs(v.graph.edges) {
      var i :| 0 <= i < |added| && added[i].hard && added[i].to == id && added[i].from == y;
      assert u.graph.edges[|s.graph.edges| + i] == added[i];
      assert v.graph.edges[|s.graph.edges| + i] == added[i];
    }
  }

  lemma OldEnds(s: RunState)
    requires Inv(s)
    ensures forall i | 0 <= i < |s.graph.edges| :: s.graph.edges[i].to in s.tasksById
  {
    hide Safe, Numbered, OneActive, HumanOk, ApprovalsOk, RequestsOwned, StatusOk, Distinct, Acyclic, Unrepeated, NoAlias, Owned;
  }

  /** An appended task keeps its id and key. */
  lemma AppendedStands(s: RunState, tasks: seq<Task>, added: seq<Edge>, u: RunState, ops: seq<Op>, k: nat, key: string, needs: set<Name>)
    requires Inv(s) && GrownBy(s, u, tasks, added) && LegalRun(u, ops) && k < |tasks| && tasks[k].key == Name(key) && tasks[k].id !in s.tasksById
    requires forall y :: (tasks[k].id, y) in HardArcs(added) <==> y in needs
    ensures Stands(RunHistory.Run(u, ops), tasks[k].id, key, needs)
  {
    hide Inv, Legal, Apply;
    var id, v := tasks[k].id, RunHistory.Run(u, ops);
    RunInv(u, ops);
    RunGrows(u, ops);
    BatchAt(s, u, tasks, k);
    ArcsStay(s, added, u, ops, id);
    LookupEffect(v, Name(key));
  }

  lemma BatchAt(s: RunState, u: RunState, tasks: seq<Task>, k: nat)
    requires Inv(u) && u.graph.tasks == s.graph.tasks + tasks && k < |tasks|
    ensures tasks[k].id in u.tasksById && u.tasksById[tasks[k].id] == tasks[k]
  {
    hide GraphOk, Safe, Numbered, OneActive, HumanOk, ApprovalsOk, RequestsOwned, StatusOk;
    assert u.graph.tasks[|s.graph.tasks| + k] == tasks[k];
  }

  /** review -> manager -> {backend, frontend} -> integration, and no other hard edge into these. */
  lemma ReworkArcs(runId: Name, review: Name, d: Drawn)
    requires |d.tasks| == 4 && |d.edges| == 5 && Distinct(d.tasks)
    ensures var arcs := HardArcs(ReworkEdges(runId, review, d));
            && (forall y :: (d.tasks[0], y) in arcs <==> y == review)
            && (forall y :: (d.tasks[1], y) in arcs <==> y == d.tasks[0])
            && (forall y :: (d.tasks[2], y) in arcs <==> y == d.tasks[0])
            && (forall y :: (d.tasks[3], y) in arcs <==> y == d.tasks[1] || y == d.tasks[2])
  {
    var edges := ReworkEdges(runId, review, d);
    HardArcsMembers(edges);
    assert edges[0].to == d.tasks[0] && edges[1].to == d.tasks[1] && edges[2].to == d.tasks[2] && edges[3].to == d.tasks[3] && edges[4].to == d.tasks[3];
  }

  /** The plan in the run, at once and after any further calls: the manager's rework waits for the
      review, the backend's and the frontend's for the manager's, and the integration for both. */
  lemma ReworkShape(s: RunState, review: Task, d: Drawn, ops: seq<Op>)
    requires Inv(s) && review.id in s.tasksById && s.tasksById[review.id] == review && review.key == Name("review") && NoRework(s)
    requires |d.tasks| == 4 && |d.edges| == 5 && FreshFor(s, d, REWORK_KEYS)
    requires LegalRun(AppendRework(s, review, true, d).state, ops)
    ensures var v := RunHistory.Run(AppendRework(s, review, true, d).state, ops);
            var manager, backend, frontend, integration := d.tasks[0], d.tasks[1], d.tasks[2], d.tasks[3];
            && Stands(v, manager, "manager_rework", {review.id})
            && Stands(v, backend, "backend_rework", {manager}) && Stands(v, frontend, "frontend_rework", {manager})
            && Stands(v, integration, "integration_rework", {backend, frontend})
  {
    hide Inv, CleanBatch, Appendable, AddDynamicTasks, ReworkEdges, LegalRun, RunHistory.Run, ExistingKeys, HardArcs, GrownBy, Stands;
    ReworkIff(s, review, true, d);
    ReworkArcs(review.runId, review.id, d);
    var u, tasks, edges := AppendRework(s, review, true, d).state, ReworkTasks(review.runId, d), ReworkEdges(review.runId, review.id, d);
    AppendedStands(s, tasks, edges, u, ops, 0, "manager_rework", {review.id});
    AppendedStands(s, tasks, edges, u, ops, 1, "backend_rework", {d.tasks[0]});
    AppendedStands(s, tasks, edges, u, ops, 2, "frontend_rework", {d.tasks[0]});
    AppendedStands(s, tasks, edges, u, ops, 3, "integration_rework", {d.tasks[1], d.tasks[2]});
  }

  /** A task that may start has every hard predecessor COMPLETED; so has each of these, then. */
  lemma NeedsCompleted(s: RunState, id: Name, key: string, needs: set<Name>)
    requires Inv(s) && Stands(s, id, key, needs) && (Runnable(s, id) || !Unstarted(s.tasksById[id].state))
    ensures forall y | y in needs :: TaskIs(s, y, COMPLETED)
  {
    hide GraphOk, Indexed, Numbered, OneActive, HumanOk, ApprovalsOk, RequestsOwned, StatusOk;
    HardArcsMembers(s.graph.edges);
    assert DepsDone(s.graph.edges, s.tasksById, id);
    forall y | y in needs ensures TaskIs(s, y, COMPLETED) {
      assert (id, y) in HardArcs(s.graph.edges);
    }
  }

  /** So the integration of the rework may start only when everything before it is COMPLETED. */
  lemma IntegrationWaits(s: RunState, review: Name, manager: Name, backend: Name, frontend: Name, integration: Name)
    requires Inv(s)
    requires Stands(s, manager, "manager_rework", {review})
    requires Stands(s, backend, "backend_rework", {manager}) && Stands(s, frontend, "frontend_rework", {manager})
    requires Stands(s, integration, "integration_rework", {backend, frontend}) && Runnable(s, integration)
    ensures TaskIs(s, backend, COMPLETED) && TaskIs(s, frontend, COMPLETED) && TaskIs(s, manager, COMPLETED) && TaskIs(s, review, COMPLETED)
  {
    hide Inv, Stands, Runnable;
    NeedsCompleted(s, integration, "integration_rework", {backend, frontend});
    NeedsCompleted(s, backend, "backend_rework", {manager});
    NeedsCompleted(s, manager, "manager_rework", {review});
  }

  /** The signoff waits for the task that triggered it, and for no other. */
  lemma SignoffShape(s: RunState, trigger: Task, d: Drawn, ops: seq<Op>)
    requires Inv(s) && trigger.id in s.tasksById && s.tasksById[trigger.id] == trigger && SIGNOFF !in ExistingKeys(s)
    requires |d.tasks| == 1 && |d.edges| == 1 && FreshFor(s, d, [SIGNOFF])
    requires LegalRun(AppendSignoff(s, trigger, true, d).state, ops)
    ensures var v := RunHistory.Run(AppendSignoff(s, trigger, true, d).state, ops);
            Stands(v, d.tasks[0], "release_signoff", {trigger.id})
  {
    hide Inv, CleanBatch, Appendable, AddDynamicTasks, LegalRun, RunHistory.Run, ExistingKeys, GrownBy, Stands;
    SignoffIff(s, trigger, true, d);
    var edges := [HardEdge(trigger.runId, d.edges[0], trigger.id, d.tasks[0])];
    HardArcsMembers(edges);
    assert edges[0].to == d.tasks[0];
    AppendedStands(s, NewTasks(trigger.runId, d.tasks, [SIGNOFF]), edges, AppendSignoff(s, trigger, true, d).state, ops, 0, "release_signoff", {trigger.id});
  }

  /** The keys are read and the batch is appended in two locked blocks.  With other calls in
      between, the append is refused, and changes nothing, exactly when one of them planned rework. */
  lemma ReworkRace(s: RunState, review: Task, ops: seq<Op>, d: Drawn)
    requires Inv(s) && review.id in s.tasksById && s.tasksById[review.id] == review && LegalRun(s, ops)
    requires |d.tasks| == 4 && |d.edges| == 5 && FreshFor(RunHistory.Run(s, ops), d, REWORK_KEYS)
    ensures var u := RunHistory.Run(s, ops);
            var o := AddDynamicTasks(u, ReworkTasks(review.runId, d), ReworkEdges(review.runId, review.id, d));
            && (o.reply.Ok? <==> NoRework(u))
            && (o.reply.Err? ==> o.state == u)
  {
    hide Inv, FreshFor, CleanBatch, EndpointsIn, Appended, ExistingKeys, LegalRun, RunHistory.Run, ReworkEdges, NewTask;
    var u := RunHistory.Run(s, ops);
    RunInv(s, ops);
    var review' := StillOwned(s, u, review, ops);
    NewTasksShape(review.runId, d.tasks, REWORK_KEYS);
    if NoRework(u) {
      ReworkAccepted(u, review', d);
    } else {
      ExistingIsKeyed(u);
      var i :| 0 <= i < |REWORK_KEYS| && REWORK_KEYS[i] in ExistingKeys(u);
      assert TaskKeys(ReworkTasks(review.runId, d))[i] == ReworkTasks(review.runId, d)[i].key;
    }
  }

  lemma StillOwned(s: RunState, u: RunState, t: Task, ops: seq<Op>) returns (t': Task)
    requires Inv(s) && t.id in s.tasksById && s.tasksById[t.id] == t && LegalRun(s, ops) && u == RunHistory.Run(s, ops)
    ensures t.id in u.tasksById && t' == u.tasksById[t.id] && t'.id == t.id && t'.runId == t.runId
  {
    hide Legal, Apply, Safe, Numbered, OneActive, HumanOk, ApprovalsOk, RequestsOwned, StatusOk, Distinct, Acyclic, Unrepeated, NoAlias, EndpointsIn;
    RunInv(s, ops);
    RunGrows(s, ops);
    var i := TaskAt(s, t.id);
    var k := TaskAt(u, t.id);
    t' := u.tasksById[t.id];
  }

  /** Rework follows exactly a review that asks for it in a run without rework; the signoff exactly a
      review after which nothing was planned, or the integration of the rework, where it is required
      and absent. */
  lemma FollowUpIff(s: RunState, task: Task, revise: bool, required: bool, rework: Drawn, signoff: Drawn)
    requires Inv(s) && task.id in s.tasksById && s.tasksById[task.id] == task
    requires |rework.tasks| == 4 && |rework.edges| == 5 && FreshFor(s, rework, REWORK_KEYS)
    requires |signoff.tasks| == 1 && |signoff.edges| == 1 && FreshFor(s, signoff, [SIGNOFF])
    ensures var o := FollowUp(s, task, revise, required, rework, signoff);
            var planned := task.key == Name("review") && revise && NoRework(s);
            var signed := required && SIGNOFF !in ExistingKeys(s) && !planned && task.key in {Name("review"), Name("integration_rework")};
            if planned then o == AppendRework(s, task, true, rework) && o.reply == Ok(REWORK_KEYS)
            else if signed then o == AppendSignoff(s, task, true, signoff) && o.reply == Ok([SIGNOFF])
            else o == Outcome(s, Ok([]))
  {
    hide Inv, FreshFor, CleanBatch, Appendable, AddDynamicTasks, ExistingKeys, ReworkEdges, NewTask;
    ReworkIff(s, task, revise, rework);
    SignoffIff(s, task, required, signoff);
    ReworkKeysDistinct();
    assert task.key == REVIEW ==> task.key != INTEGRATION by {
      assert REVIEW.text[0] == 'r' && INTEGRATION.text[0] == 'i';
    }
  }

  /** The follow-up of a success is one legal append or nothing, so it may come between two steps of
      a worker like any other thread's call. */
  lemma FollowUpIsOneAppend(s: RunState, task: Task, revise: bool, required: bool, rework: Drawn, signoff: Drawn)
    requires Inv(s) && task.id in s.tasksById && s.tasksById[task.id] == task
    requires |rework.tasks| == 4 && |rework.edges| == 5 && FreshFor(s, rework, REWORK_KEYS)
    requires |signoff.tasks| == 1 && |signoff.edges| == 1 && FreshFor(s, signoff, [SIGNOFF])
    ensures var u := FollowUp(s, task, revise, required, rework, signoff).state;
            u == s || exists tasks, edges :: Legal(s, AddDynamic(tasks, edges)) && u == Apply(s, AddDynamic(tasks, edges))
  {
    hide Inv, FreshFor, CleanBatch, Appendable, AddDynamicTasks, ExistingKeys, ReworkEdges, NewTask;
    FollowUpSafe(s, task, revise, required, rework, signoff);
    var u := FollowUp(s, task, revise, required, rework, signoff).state;
    if u != s {
      if task.key == REVIEW && revise && NoRework(s) {
        ReworkAccepted(s, task, rework);
        assert Legal(s, AddDynamic(ReworkTasks(task.runId, rework), ReworkEdges(task.runId, task.id, rework)));
        ReworkIff(s, task, revise, rework);
      } else {
        SignoffIff(s, task, required, signoff);
        SignoffAccepted(s, task, signoff);
        assert Legal(s, AddDynamic(NewTasks(task.runId, signoff.tasks, [SIGNOFF]), [HardEdge(task.runId, signoff.edges[0], task.id, signoff.tasks[0])]));
      }
    }
  }

  /** A successful task's follow-up never raises and appends at most one batch. */
  lemma FollowUpSafe(s: RunState, task: Task, revise: bool, required: bool, rework: Drawn, signoff: Drawn)
    requires Inv(s) && task.id in s.tasksById && s.tasksById[task.id] == task
    requires |rework.tasks| == 4 && |rework.edges| == 5 && FreshFor(s, rework, REWORK_KEYS)
    requires |signoff.tasks| == 1 && |signoff.edges| == 1 && FreshFor(s, signoff, [SIGNOFF])
    ensures var o := FollowUp(s, task, revise, required, rework, signoff);
            && o.reply.Ok? && Inv(o.state)
            && ((o.reply.value == [] && o.state == s)
                || (o.reply.value in {REWORK_KEYS, [SIGNOFF]} && o.state.graphRevision == s.graphRevision + 1))
            && (o.reply.value == REWORK_KEYS ==> task.key == REVIEW && revise)
            && (o.reply.value == [SIGNOFF] ==> required && task.key in {REVIEW, INTEGRATION})
  {
    hide Inv, FreshFor, AppendRework, AppendSignoff;
    ReworkIff(s, task, revise, rework);
    SignoffIff(s, task, required, signoff);
    ReworkKeysDistinct();
    assert task.key == REVIEW ==> task.key != INTEGRATION by {
      assert REVIEW.text[0] == 'r' && INTEGRATION.text[0] == 'i';
    }
  }

  // ---------------------------------------------------------------- the methods

  /** `_append_review_rework_tasks` */
  method AppendReviewReworkTasks(state: WorkflowRunState, review: Task, revise: bool, d: Drawn) returns (r: Result<seq<Name>>)
    requires |d.tasks| == 4 && |d.edges| == 5
    modifies state
    ensures Outcome(state.View(), r) == AppendRework(old(state.View()), review, revise, d)
  {
    hide RunModel.AddDynamicTasks;
    if review.key != REVIEW {
      return Ok([]);
    }
    if !revise {
      return Ok([]);
    }
    var existing := set x | x in state.tasksById :: state.tasksById[x].key;
    assert existing == ExistingKeys(state.View());
    if exists k :: k in REWORK_KEYS && k in existing {
      return Ok([]);
    }
    var appended := state.AddDynamicTasks(ReworkTasks(review.runId, d), ReworkEdges(review.runId, review.id, d));
    if appended.Err? {
      return Err(appended.error);
    }
    return Ok(TaskKeys(appended.value));
  }

  /** `_append_release_signoff_task` */
  method AppendReleaseSignoffTask(state: WorkflowRunState, trigger: Task, required: bool, d: Drawn) returns (r: Result<seq<Name>>)
    requires |d.tasks| == 1 && |d.edges| == 1
    modifies state
    ensures Outcome(state.View(), r) == AppendSignoff(old(state.View()), trigger, required, d)
  {
    hide RunModel.AddDynamicTasks;
    if !required {
      return Ok([]);
    }
    var existing := set x | x in state.tasksById :: state.tasksById[x].key;
    assert existing == ExistingKeys(state.View());
    if SIGNOFF in existing {
      return Ok([]);
    }
    var appended := state.AddDynamicTasks(NewTasks(trigger.runId, d.tasks, [SIGNOFF]),
                                          [HardEdge(trigger.runId, d.edges[0], trigger.id, d.tasks[0])]);
    if appended.Err? {
      return Err(appended.error);
    }
    return Ok(TaskKeys(appended.value));
  }

  /** The part of a successful step that grows the graph. */
  method FollowUpSuccess(state: WorkflowRunState, task: Task, revise: bool, required: bool, rework: Drawn, signoff: Drawn)
    returns (r: Result<seq<Name>>)
    requires |rework.tasks| == 4 && |rework.edges| == 5 && |signoff.tasks| == 1 && |signoff.edges| == 1
    modifies state
    ensures Outcome(state.View(), r) == FollowUp(old(state.View()), task, revise, required, rework, signoff)
  {
    hide AppendRework, AppendSignoff;
    r := AppendReviewReworkTasks(state, task, revise, rework);
    if r.Err? {
      return;
    }
    if task.key == REVIEW && r.value == [] {
      r := AppendReleaseSignoffTask(state, task, required, signoff);
    } else if task.key == INTEGRATION {
      r := AppendReleaseSignoffTask(state, task, required, signoff);
    }
  }
}
