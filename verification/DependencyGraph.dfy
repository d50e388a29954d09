/** The runtime's dependency view of a workflow graph (orchestration/graph.py). */
module DependencyGraph {
  import opened Names
  import opened Wrappers
  import opened Sequences
  import opened Digraph
  import opened Kahn
  import opened Records

  datatype DependencyView = DependencyView(
    predecessors: map<Name, seq<Name>>, successors: map<Name, seq<Name>>, order: seq<Name>)

  /** The dependency relation of the hard edges: target needs source. */
  function HardArcs(edges: seq<Edge>): Arcs {
    set e | e in edges && e.hard :: (e.to, e.from)
  }

  lemma HardArcsMembers(edges: seq<Edge>)
    ensures forall x, y :: (x, y) in HardArcs(edges) <==> exists i :: 0 <= i < |edges| && edges[i].hard && edges[i].to == x && edges[i].from == y
  {
    forall x, y | (x, y) in HardArcs(edges)
      ensures exists i :: 0 <= i < |edges| && edges[i].hard && edges[i].to == x && edges[i].from == y
    {
      var e :| e in edges && e.hard && (e.to, e.from) == (x, y);
      var i :| 0 <= i < |edges| && edges[i] == e;
    }
    forall i | 0 <= i < |edges| && edges[i].hard ensures (edges[i].to, edges[i].from) in HardArcs(edges) {
      assert edges[i] in edges;
    }
  }

  lemma HardArcsPush(edges: seq<Edge>, e: Edge)
    ensures HardArcs(edges + [e]) == HardArcs(edges) + (if e.hard then {(e.to, e.from)} else {})
  {
    assert forall d :: d in edges + [e] <==> d in edges || d == e;
  }

  /** Sources of the hard edges into `id`, in edge order and with repetitions. */
  function Predecessors(edges: seq<Edge>, id: Name): seq<Name> {
    if edges == [] then []
    else
      var last := edges[|edges| - 1];
      Predecessors(edges[..|edges| - 1], id) + if last.hard && last.to == id then [last.from] else []
  }

  function Successors(edges: seq<Edge>, id: Name): seq<Name> {
    if edges == [] then []
    else
      var last := edges[|edges| - 1];
      Successors(edges[..|edges| - 1], id) + if last.hard && last.from == id then [last.to] else []
  }

  /** No two hard edges join the same pair of tasks in the same direction. */
  ghost predicate Unrepeated(edges: seq<Edge>) {
    forall i, j | 0 <= i < j < |edges| && edges[i].hard && edges[j].hard ::
      edges[i].from != edges[j].from || edges[i].to != edges[j].to
  }

  ghost predicate HardEndpointsKnown(ids: seq<Name>, edges: seq<Edge>) {
    forall i | 0 <= i < |edges| && edges[i].hard :: edges[i].from in ids && edges[i].to in ids
  }

  ghost predicate HardTargetsKnown(ids: seq<Name>, edges: seq<Edge>) {
    forall i | 0 <= i < |edges| && edges[i].hard :: edges[i].to in ids
  }

  /** The keys of a dictionary built from `ids`: first occurrences, in order. */
  function DictKeys(ids: seq<Name>): seq<Name> {
    if ids == [] then []
    else
      var front := DictKeys(ids[..|ids| - 1]);
      if ids[|ids| - 1] in front then front else front + [ids[|ids| - 1]]
  }

  lemma {:induction false} DictKeysFacts(ids: seq<Name>)
    ensures forall x :: x in DictKeys(ids) <==> x in ids
    ensures Distinct(DictKeys(ids))
    ensures |DictKeys(ids)| <= |ids|
    ensures |DictKeys(ids)| == |ids| <==> Distinct(ids)
  {
    if ids != [] {
      var front, last := ids[..|ids| - 1], ids[|ids| - 1];
      DictKeysFacts(front);
      assert ids == front + [last];
      if Distinct(ids) {
        assert Distinct(front);
        assert last !in front;
      }
      if Distinct(front) && last !in front {
        DistinctAppend(front, [last]);
      }
    }
  }

  function Indegrees(ids: seq<Name>, edges: seq<Edge>): map<Name, int> {
    map x | x in ids :: |Predecessors(edges, x)|
  }

  lemma {:induction false} PredecessorsMembers(edges: seq<Edge>, id: Name)
    ensures Elements(Predecessors(edges, id)) == Needs(HardArcs(edges), id)
  {
    if edges != [] {
      var front, last := edges[..|edges| - 1], edges[|edges| - 1];
      PredecessorsMembers(front, id);
      assert edges == front + [last];
      HardArcsPush(front, last);
    }
  }

  /** The runtime counts a repeated hard edge twice, so an indegree is at least the number of
      distinct predecessors, and exact when no hard edge is repeated. */
  lemma {:induction false} IndegreeBounds(edges: seq<Edge>, id: Name)
    ensures |Predecessors(edges, id)| >= |Needs(HardArcs(edges), id)|
    ensures |Predecessors(edges, id)| == |Needs(HardArcs(edges), id)| <==> Distinct(Predecessors(edges, id))
  {
    PredecessorsMembers(edges, id);
    SeqSetSize(Predecessors(edges, id));
  }

  lemma {:induction false} SeqSetSize(s: seq<Name>)
    ensures |s| >= |Elements(s)|
    ensures |s| == |Elements(s)| <==> Distinct(s)
  {
    if s != [] {
      var front, last := s[..|s| - 1], s[|s| - 1];
      SeqSetSize(front);
      assert s == front + [last];
      assert Elements(s) == Elements(front) + {last};
      if Distinct(s) {
        DistinctSize(s);
      }
      if |s| == |Elements(s)| {
        assert last in front ==> Elements(s) == Elements(front);
        DistinctAppend(front, [last]);
      }
    }
  }

  lemma {:induction false} PredecessorAt(edges: seq<Edge>, id: Name, k: nat) returns (i: nat)
    requires k < |Predecessors(edges, id)|
    ensures i < |edges| && edges[i].hard && edges[i].to == id && edges[i].from == Predecessors(edges, id)[k]
    ensures |Predecessors(edges[..i], id)| == k
  {
    var n := |edges| - 1;
    if k < |Predecessors(edges[..n], id)| {
      i := PredecessorAt(edges[..n], id, k);
      assert edges[..n][..i] == edges[..i];
    } else {
      i := n;
    }
  }

  lemma {:induction false} PredecessorsMonotone(edges: seq<Edge>, id: Name, i: nat)
    requires i < |edges| && edges[i].hard && edges[i].to == id
    ensures var k := |Predecessors(edges[..i], id)|; k < |Predecessors(edges, id)| && Predecessors(edges, id)[k] == edges[i].from
  {
    var n := |edges| - 1;
    if i < n {
      PredecessorsMonotone(edges[..n], id, i);
      assert edges[..n][..i] == edges[..i];
    }
  }

  lemma {:induction false} PredecessorCountGrows(edges: seq<Edge>, id: Name, i: nat, j: nat)
    requires i <= j <= |edges|
    ensures |Predecessors(edges[..i], id)| <= |Predecessors(edges[..j], id)|
    ensures i < j && edges[i].hard && edges[i].to == id ==> |Predecessors(edges[..i], id)| < |Predecessors(edges[..j], id)|
    decreases j - i
  {
    if i < j {
      PredecessorCountGrows(edges, id, i + 1, j);
      assert edges[..i + 1][..i] == edges[..i];
    }
  }

  lemma UnrepeatedDistinct(edges: seq<Edge>, id: Name)
    requires Unrepeated(edges)
    ensures Distinct(Predecessors(edges, id))
  {
    var p := Predecessors(edges, id);
    forall a, b | 0 <= a < b < |p| ensures p[a] != p[b] {
      var i := PredecessorAt(edges, id, a);
      var j := PredecessorAt(edges, id, b);
      if j <= i {
        PredecessorCountGrows(edges, id, j, i);
      }
    }
  }

  lemma DistinctUnrepeated(edges: seq<Edge>)
    requires forall id :: Distinct(Predecessors(edges, id))
    ensures Unrepeated(edges)
  {
    forall i, j | 0 <= i < j < |edges| && edges[i].hard && edges[j].hard
      ensures edges[i].from != edges[j].from || edges[i].to != edges[j].to
    {
      if edges[i].to == edges[j].to {
        var id := edges[i].to;
        PredecessorsMonotone(edges, id, i);
        PredecessorsMonotone(edges, id, j);
        PredecessorCountGrows(edges, id, i, j);
        assert Distinct(Predecessors(edges, id));
      }
    }
  }

  lemma OrderStartable(ids: seq<Name>, edges: seq<Edge>)
    requires HardTargetsKnown(ids, edges)
    ensures Startable(HardArcs(edges), DictKeys(ids), Indegrees(ids, edges)) && Distinct(DictKeys(ids))
  {
    DictKeysFacts(ids);
    HardArcsMembers(edges);
    forall x | x in ids ensures Indegrees(ids, edges)[x] >= |Needs(HardArcs(edges), x)| {
      IndegreeBounds(edges, x);
    }
  }

  /** What `_topological_order` returns or raises, for any tasks and edges at all. */
  ghost function Order(ids: seq<Name>, edges: seq<Edge>): Result<seq<Name>> {
    if !HardTargetsKnown(ids, edges) then Err(UnknownKey)
    else
      OrderStartable(ids, edges);
      var arcs, start := HardArcs(edges), Indegrees(ids, edges);
      InitialCounting(arcs, DictKeys(ids), start);
      var r := Drain(arcs, start, Initial(DictKeys(ids), start));
      if |r| != |ids| then Err(InvalidValue) else Ok(r)
  }

  /** The runtime sort succeeds exactly on duplicate-free task ids whose hard edges join known
      tasks, are not repeated, and form no cycle. */
  ghost predicate Schedulable(ids: seq<Name>, edges: seq<Edge>) {
    Distinct(ids) && HardEndpointsKnown(ids, edges) && Unrepeated(edges) && Acyclic(HardArcs(edges))
  }

  lemma OrderSucceedsIff(ids: seq<Name>, edges: seq<Edge>)
    ensures Order(ids, edges).Ok? <==> Schedulable(ids, edges)
  {
    if HardTargetsKnown(ids, edges) {
      OrderStartable(ids, edges);
      var arcs, start := HardArcs(edges), Indegrees(ids, edges);
      InitialCounting(arcs, DictKeys(ids), start);
      var s := Initial(DictKeys(ids), start);
      DrainCompleteIff(arcs, start, s);
      DrainOrder(arcs, start, s);
      StartSize(ids, edges);
      DrainSize(arcs, start, s);
      HardArcsMembers(edges);
      IndegreesExactIff(ids, edges);
      EndpointsIff(ids, edges);
    }
  }

  lemma StartSize(ids: seq<Name>, edges: seq<Edge>)
    ensures |Indegrees(ids, edges)| == |DictKeys(ids)|
    ensures |DictKeys(ids)| <= |ids| && (|DictKeys(ids)| == |ids| <==> Distinct(ids))
  {
    DictKeysFacts(ids);
    DistinctSize(DictKeys(ids));
    assert Indegrees(ids, edges).Keys == Elements(DictKeys(ids));
    assert |Indegrees(ids, edges).Keys| == |Indegrees(ids, edges)|;
  }

  lemma DrainSize(arcs: Arcs, start: map<Name, int>, s: Sort)
    requires Counting(arcs, start, s)
    ensures |Drain(arcs, start, s)| <= |start|
  {
    DrainOrder(arcs, start, s);
    DistinctSize(Drain(arcs, start, s));
    SubsetSize(Elements(Drain(arcs, start, s)), start.Keys);
    assert |start.Keys| == |start|;
  }

  lemma EndpointsIff(ids: seq<Name>, edges: seq<Edge>)
    requires HardTargetsKnown(ids, edges)
    ensures HardEndpointsKnown(ids, edges) <==> forall arc | arc in HardArcs(edges) :: arc.1 in Indegrees(ids, edges)
  {
    HardArcsMembers(edges);
    if forall arc | arc in HardArcs(edges) :: arc.1 in Indegrees(ids, edges) {
      forall i | 0 <= i < |edges| && edges[i].hard ensures edges[i].from in ids {
        assert (edges[i].to, edges[i].from) in HardArcs(edges);
      }
    }
    if HardEndpointsKnown(ids, edges) {
      forall arc | arc in HardArcs(edges) ensures arc.1 in Indegrees(ids, edges) {
        assert (arc.0, arc.1) in HardArcs(edges);
      }
    }
  }

  lemma IndegreesExactIff(ids: seq<Name>, edges: seq<Edge>)
    requires HardTargetsKnown(ids, edges)
    ensures (forall x | x in Indegrees(ids, edges) :: Indegrees(ids, edges)[x] == |Needs(HardArcs(edges), x)|) <==> Unrepeated(edges)
  {
    if Unrepeated(edges) {
      forall x | x in Indegrees(ids, edges) ensures Indegrees(ids, edges)[x] == |Needs(HardArcs(edges), x)| {
        UnrepeatedDistinct(edges, x);
        IndegreeBounds(edges, x);
      }
    }
    if forall x | x in Indegrees(ids, edges) :: Indegrees(ids, edges)[x] == |Needs(HardArcs(edges), x)| {
      forall x ensures Distinct(Predecessors(edges, x)) {
        IndegreeBounds(edges, x);
        if x in ids {
          assert x in Indegrees(ids, edges);
        } else if Predecessors(edges, x) != [] {
          var i := PredecessorAt(edges, x, 0);
        }
      }
      DistinctUnrepeated(edges);
    }
  }

  /** A successful sort lists every task id once, each after all its hard predecessors. */
  lemma OrderIsTopological(ids: seq<Name>, edges: seq<Edge>)
    requires Order(ids, edges).Ok?
    ensures var r := Order(ids, edges).value;
            Distinct(r) && |r| == |ids| && Elements(r) == Elements(ids) && Supported(HardArcs(edges), r)
  {
    OrderStartable(ids, edges);
    var arcs, start := HardArcs(edges), Indegrees(ids, edges);
    InitialCounting(arcs, DictKeys(ids), start);
    var s := Initial(DictKeys(ids), start);
    DrainOrder(arcs, start, s);
    DistinctSize(Drain(arcs, start, s));
    StartSize(ids, edges);
    DrainSize(arcs, start, s);
    SubsetSize(Elements(Drain(arcs, start, s)), start.Keys);
    assert |start.Keys| == |start|;
    assert start.Keys == Elements(ids);
  }

  /** Tasks without hard dependencies come first, in the graph's order; every other task stands by its
      last dependency, and tasks with the same last one by id. */
  lemma OrderSettled(ids: seq<Name>, edges: seq<Edge>)
    requires Order(ids, edges).Ok?
    ensures Settled(HardArcs(edges), DictKeys(ids), Order(ids, edges).value, Order(ids, edges).value)
  {
    hide Settled, Kahn.Startable, Drain;
    DictKeysFacts(ids);
    OrderStartable(ids, edges);
    DrainTies(HardArcs(edges), DictKeys(ids), Indegrees(ids, edges));
  }

  /** And it is the only topological order that stands so. */
  lemma OrderIsTheOne(ids: seq<Name>, edges: seq<Edge>, q: seq<Name>)
    requires Order(ids, edges).Ok? && Distinct(q) && Elements(q) == Elements(ids)
    requires Supported(HardArcs(edges), q) && Settled(HardArcs(edges), DictKeys(ids), q, q)
    ensures q == Order(ids, edges).value
  {
    hide Settled, Supported, Distinct, Elements, Order;
    OrderIsTopological(ids, edges);
    OrderSettled(ids, edges);
    DictKeysFacts(ids);
    var r := Order(ids, edges).value;
    OnlyOneOrder(HardArcs(edges), DictKeys(ids), r, q, |r|);
    assert r[..|r|] == r && q[..|q|] == q;
  }

  /** `m.get(x, ())` on a dictionary of lists. */
  function ListAt(m: map<Name, seq<Name>>, x: Name): seq<Name> {
    if x in m then m[x] else []
  }

  function SetAt(m: map<Name, set<Name>>, x: Name): set<Name> {
    if x in m then m[x] else {}
  }

  ghost predicate SuccessorTable(successors: map<Name, set<Name>>, edges: seq<Edge>) {
    forall y :: SetAt(successors, y) == NeededBy(HardArcs(edges), y)
  }

  lemma UnknownTarget(ids: seq<Name>, edges: seq<Edge>)
    requires !HardTargetsKnown(ids, edges)
    ensures Order(ids, edges) == Err(UnknownKey)
  {
  }

  lemma NothingYet(ids: seq<Name>)
    ensures SuccessorTable(map[], []) && HardTargetsKnown(ids, [])
    ensures Indegrees(ids, []) == map x | x in ids :: 0
  {
    assert HardArcs([]) == {};
  }

  /** `{task.id: 0 for task in tasks}`, together with the order of its keys. */
  method ZeroedIndegree(tasks: seq<Task>) returns (nodes: seq<Name>, indegree: map<Name, int>)
    ensures nodes == DictKeys(TaskIds(tasks))
    ensures indegree == map x | x in TaskIds(tasks) :: 0
  {
    ghost var ids := TaskIds(tasks);
    nodes, indegree := [], map[];
    var i := 0;
    while i < |tasks|
      invariant 0 <= i <= |tasks|
      invariant nodes == DictKeys(ids[..i])
      invariant indegree == map x | x in ids[..i] :: 0
    {
      assert ids[..i + 1] == ids[..i] + [tasks[i].id];
      assert ids[..i + 1][..i] == ids[..i];
      DictKeysFacts(ids[..i]);
      if tasks[i].id !in indegree {
        nodes := nodes + [tasks[i].id];
      }
      indegree := indegree[tasks[i].id := 0];
      i := i + 1;
    }
    assert ids[..i] == ids;
  }

  lemma SuccessorTablePush(successors: map<Name, set<Name>>, edges: seq<Edge>, e: Edge)
    requires SuccessorTable(successors, edges)
    ensures SuccessorTable(
              if e.hard then successors[e.from := SetAt(successors, e.from) + {e.to}] else successors, edges + [e])
  {
    HardArcsPush(edges, e);
    var after := if e.hard then successors[e.from := SetAt(successors, e.from) + {e.to}] else successors;
    forall y ensures SetAt(after, y) == NeededBy(HardArcs(edges + [e]), y) {
      assert SetAt(successors, y) == NeededBy(HardArcs(edges), y);
    }
  }

  lemma IndegreesPush(ids: seq<Name>, edges: seq<Edge>, e: Edge)
    requires e.hard ==> e.to in ids
    ensures Indegrees(ids, edges + [e])
         == if e.hard then Indegrees(ids, edges)[e.to := Indegrees(ids, edges)[e.to] + 1] else Indegrees(ids, edges)
  {
    assert (edges + [e])[..|edges|] == edges;
  }

  /** `_topological_order`: count the hard edges into each task, then run the queue. */
  method TopologicalOrder(tasks: seq<Task>, edges: seq<Edge>) returns (r: Result<seq<Name>>)
    ensures r == Order(TaskIds(tasks), edges)
  {
    hide Order, HardArcs, SuccessorTable, DictKeys;
    ghost var ids := TaskIds(tasks);
    var nodes, indegree := ZeroedIndegree(tasks);
    var successors: map<Name, set<Name>> := map[];
    NothingYet(ids);
    assert edges[..0] == [];
    var i := 0;
    while i < |edges|
      invariant 0 <= i <= |edges|
      invariant HardTargetsKnown(ids, edges[..i])
      invariant indegree == Indegrees(ids, edges[..i])
      invariant SuccessorTable(successors, edges[..i])
    {
      var e := edges[i];
      assert edges[..i + 1] == edges[..i] + [e];
      SuccessorTablePush(successors, edges[..i], e);
      if e.hard {
        if e.to !in indegree {
          assert !HardTargetsKnown(ids, edges);
          UnknownTarget(ids, edges);
          return Err(UnknownKey);
        }
        indegree := indegree[e.to := indegree[e.to] + 1];
        successors := successors[e.from := SetAt(successors, e.from) + {e.to}];
      }
      IndegreesPush(ids, edges[..i], e);
      i := i + 1;
    }
    assert edges[..i] == edges;
    r := Finish(tasks, edges, nodes, indegree, successors, |tasks|);
  }

  method Finish(ghost tasks: seq<Task>, ghost edges: seq<Edge>, nodes: seq<Name>, indegree: map<Name, int>,
                successors: map<Name, set<Name>>, count: int)
    returns (r: Result<seq<Name>>)
    requires HardTargetsKnown(TaskIds(tasks), edges) && SuccessorTable(successors, edges)
    requires nodes == DictKeys(TaskIds(tasks)) && indegree == Indegrees(TaskIds(tasks), edges)
    requires count == |tasks|
    ensures r == Order(TaskIds(tasks), edges)
  {
    OrderStartable(TaskIds(tasks), edges);
    var queued := ZeroIndegrees(nodes, indegree);
    forall y ensures (if y in successors then successors[y] else {}) == NeededBy(HardArcs(edges), y) {
      assert SetAt(successors, y) == NeededBy(HardArcs(edges), y);
    }
    var ordered := RunQueue(HardArcs(edges), nodes, indegree, successors, queued);
    if |ordered| != count {
      return Err(InvalidValue);
    }
    return Ok(ordered);
  }

  /** The comprehension that fills the initial queue. */
  method ZeroIndegrees(nodes: seq<Name>, indegree: map<Name, int>) returns (queue: seq<Name>)
    requires forall x | x in nodes :: x in indegree
    ensures queue == Freed(nodes, indegree)
  {
    queue := [];
    var i := 0;
    while i < |nodes|
      invariant 0 <= i <= |nodes|
      invariant queue == Freed(nodes[..i], indegree)
    {
      assert nodes[..i + 1] == nodes[..i] + [nodes[i]];
      FreedAppend(nodes[..i], [nodes[i]], indegree);
      if indegree[nodes[i]] == 0 {
        queue := queue + [nodes[i]];
      }
      i := i + 1;
    }
    assert nodes[..i] == nodes;
  }

  ghost predicate ParentLists(m: map<Name, seq<Name>>, edges: seq<Edge>) {
    forall x :: ListAt(m, x) == Predecessors(edges, x)
  }

  ghost predicate ChildLists(m: map<Name, seq<Name>>, edges: seq<Edge>) {
    forall x :: ListAt(m, x) == Successors(edges, x)
  }

  lemma ParentListsPush(m: map<Name, seq<Name>>, edges: seq<Edge>, e: Edge)
    requires ParentLists(m, edges)
    ensures ParentLists(if e.hard then m[e.to := ListAt(m, e.to) + [e.from]] else m, edges + [e])
  {
    var after := if e.hard then m[e.to := ListAt(m, e.to) + [e.from]] else m;
    assert (edges + [e])[..|edges|] == edges;
    forall x ensures ListAt(after, x) == Predecessors(edges + [e], x) {
      assert ListAt(m, x) == Predecessors(edges, x);
    }
  }

  lemma ChildListsPush(m: map<Name, seq<Name>>, edges: seq<Edge>, e: Edge)
    requires ChildLists(m, edges)
    ensures ChildLists(if e.hard then m[e.from := ListAt(m, e.from) + [e.to]] else m, edges + [e])
  {
    var after := if e.hard then m[e.from := ListAt(m, e.from) + [e.to]] else m;
    assert (edges + [e])[..|edges|] == edges;
    forall x ensures ListAt(after, x) == Successors(edges + [e], x) {
      assert ListAt(m, x) == Successors(edges, x);
    }
  }

  method CollectNeighbours(edges: seq<Edge>)
    returns (predecessors: map<Name, seq<Name>>, successors: map<Name, seq<Name>>)
    ensures ParentLists(predecessors, edges) && ChildLists(successors, edges)
  {
    predecessors, successors := map[], map[];
    var i := 0;
    while i < |edges|
      invariant 0 <= i <= |edges|
      invariant ParentLists(predecessors, edges[..i])
      invariant ChildLists(successors, edges[..i])
    {
      var e := edges[i];
      assert edges[..i + 1] == edges[..i] + [e];
      ParentListsPush(predecessors, edges[..i], e);
      ChildListsPush(successors, edges[..i], e);
      if e.hard {
        predecessors := predecessors[e.to := ListAt(predecessors, e.to) + [e.from]];
        successors := successors[e.from := ListAt(successors, e.from) + [e.to]];
      }
      i := i + 1;
    }
    assert edges[..i] == edges;
  }

  /** `build_dependency_view`: raises whatever the sort raises; otherwise the parents and children
      of each task, in edge order, beside the order. */
  method BuildDependencyView(graph: Graph) returns (r: Result<DependencyView>)
    ensures r.Ok? <==> Schedulable(TaskIds(graph.tasks), graph.edges)
    ensures r.Ok? ==> Ok(r.value.order) == Order(TaskIds(graph.tasks), graph.edges)
    ensures r.Ok? ==> ParentLists(r.value.predecessors, graph.edges) && ChildLists(r.value.successors, graph.edges)
  {
    var predecessors, successors := CollectNeighbours(graph.edges);
    OrderSucceedsIff(TaskIds(graph.tasks), graph.edges);
    var ordered := TopologicalOrder(graph.tasks, graph.edges);
    if ordered.Err? {
      return Err(ordered.error);
    }
    return Ok(DependencyView(predecessors, successors, ordered.value));
  }
}
