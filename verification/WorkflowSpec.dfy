/** The workflow compiler (workflows/spec.py): topology of a definition, and its instantiation as
    a runtime graph. */
module WorkflowSpec {
  import opened Names
  import opened Wrappers
  import opened Sequences
  import opened Digraph
  import opened Kahn
  import opened Records
  import opened DependencyGraph
  import opened CycleSearch

  datatype Template = Template(key: Name, hard: seq<Name>, soft: seq<Name>, payload: string)

  datatype Topology = Topology(hard: map<Name, seq<Name>>, soft: map<Name, seq<Name>>, order: seq<Name>)

  // ---------------------------------------------------------------- the template dictionary

  function Keys(templates: seq<Template>): (r: seq<Name>)
    ensures |r| == |templates|
  {
    seq(|templates|, i requires 0 <= i < |templates| => templates[i].key)
  }

  /** `{template.key: template ...}`: of two templates with one key the later counts. */
  function ByKey(templates: seq<Template>): map<Name, Template> {
    if templates == [] then map[]
    else ByKey(templates[..|templates| - 1])[templates[|templates| - 1].key := templates[|templates| - 1]]
  }

  /** `set(hard_dependencies) | set(soft_dependencies)` */
  function Dependencies(t: Template): set<Name> {
    (set d | d in t.hard) + (set d | d in t.soft)
  }

  function DependencyMap(templates: seq<Template>): map<Name, set<Name>> {
    map k | k in ByKey(templates) :: Dependencies(ByKey(templates)[k])
  }

  lemma {:induction false} ByKeyFacts(templates: seq<Template>)
    ensures ByKey(templates).Keys == Elements(Keys(templates))
    ensures forall k | k in ByKey(templates) :: ByKey(templates)[k].key == k && ByKey(templates)[k] in templates
    ensures Distinct(Keys(templates)) ==> 
              forall i | 0 <= i < |templates| :: templates[i].key in ByKey(templates) && ByKey(templates)[templates[i].key] == templates[i]
  {
    if templates != [] {
      var n := |templates| - 1;
      var front, last := templates[..n], templates[n];
      ByKeyFacts(front);
      assert templates == front + [last];
      assert Keys(templates) == Keys(front) + [last.key];
      assert Keys(front) == Keys(templates)[..n];
      if Distinct(Keys(templates)) {
        forall i | 0 <= i < n ensures templates[i].key != last.key {
          assert Keys(templates)[i] != Keys(templates)[n];
        }
      }
    }
  }

  /** Every dependency of every counted template is a key. */
  ghost predicate ReferencesKnown(templates: seq<Template>) {
    Closed(DependencyMap(templates))
  }

  ghost function TemplateArcs(templates: seq<Template>): Arcs {
    ArcsOf(DependencyMap(templates))
  }

  /** `_validate_dependency_references` */
  method ValidateDependencyReferences(graph: map<Name, set<Name>>) returns (ok: bool)
    ensures ok <==> Closed(graph)
  {
    var rest := graph.Keys;
    while rest != {}
      invariant rest <= graph.Keys
      invariant forall k, d | k in graph && k !in rest && d in graph[k] :: d in graph
      decreases rest
    {
      var k :| k in rest;
      if !(graph[k] <= graph.Keys) {
        return false;
      }
      rest := rest - {k};
    }
    return true;
  }

  // ---------------------------------------------------------------- the compiler's sort

  function Sizes(graph: map<Name, set<Name>>): map<Name, int> {
    map k | k in graph :: |graph[k]|
  }

  lemma NeedsAre(graph: map<Name, set<Name>>, k: Name)
    requires k in graph
    ensures Needs(ArcsOf(graph), k) == graph[k]
  {
  }

  lemma CompilerStartable(keys: seq<Name>, graph: map<Name, set<Name>>)
    requires graph.Keys == Elements(keys)
    ensures Kahn.Startable(ArcsOf(graph), keys, Sizes(graph))
    ensures forall k | k in graph :: Sizes(graph)[k] == |Needs(ArcsOf(graph), k)|
  {
    forall k | k in graph ensures Sizes(graph)[k] == |Needs(ArcsOf(graph), k)| {
      NeedsAre(graph, k);
    }
  }

  /** The inner loop: one key and what it needs. */
  method CountNeeds(k: Name, needs: set<Name>, indegree0: map<Name, int>, downstream0: map<Name, set<Name>>)
    returns (indegree: map<Name, int>, downstream: map<Name, set<Name>>)
    requires k in indegree0
    ensures indegree == indegree0[k := indegree0[k] + |needs|]
    ensures forall d, x :: x in SetAt(downstream, d) <==> x in SetAt(downstream0, d) || (x == k && d in needs)
  {
    indegree, downstream := indegree0, downstream0;
    var todo := needs;
    while todo != {}
      invariant todo <= needs
      invariant indegree == indegree0[k := indegree0[k] + |needs| - |todo|]
      invariant forall d, x :: x in SetAt(downstream, d) <==> x in SetAt(downstream0, d) || (x == k && d in needs - todo)
      decreases todo
    {
      var d :| d in todo;
      ghost var before := downstream;
      indegree := indegree[k := indegree[k] + 1];
      downstream := downstream[d := SetAt(downstream, d) + {k}];
      assert forall e :: SetAt(downstream, e) == if e == d then SetAt(before, d) + {k} else SetAt(before, e);
      assert |todo - {d}| == |todo| - 1;
      todo := todo - {d};
    }
  }

  /** The inverse table `downstream`, filled by the nested loops. */
  method Downstream(graph: map<Name, set<Name>>) returns (indegree: map<Name, int>, downstream: map<Name, set<Name>>)
    ensures indegree == Sizes(graph)
    ensures forall d :: SetAt(downstream, d) == NeededBy(ArcsOf(graph), d)
  {
    indegree, downstream := map k | k in graph :: 0, map[];
    var rest := graph.Keys;
    while rest != {}
      invariant rest <= graph.Keys
      invariant indegree == map k | k in graph :: if k in rest then 0 else |graph[k]|
      invariant forall d, k :: k in SetAt(downstream, d) <==> k in graph && k !in rest && d in graph[k]
      decreases rest
    {
      var k :| k in rest;
      indegree, downstream := CountNeeds(k, graph[k], indegree, downstream);
      rest := rest - {k};
    }
  }

  /** `_topological_order` of the compiler: with dependencies as sets, it fails only on a cycle. */
  method CompilerOrder(keys: seq<Name>, graph: map<Name, set<Name>>) returns (r: Result<seq<Name>>)
    requires Closed(graph) && graph.Keys == Elements(keys) && Distinct(keys)
    ensures r.Ok? <==> Acyclic(ArcsOf(graph))
    ensures r.Ok? ==> Distinct(r.value) && Elements(r.value) == graph.Keys && Supported(ArcsOf(graph), r.value)
    ensures r.Ok? ==> Settled(ArcsOf(graph), keys, r.value, r.value)
  {
    hide Settled;
    CompilerStartable(keys, graph);
    DrainTies(ArcsOf(graph), keys, Sizes(graph));
    var indegree, downstream := Downstream(graph);
    var queued := ZeroIndegrees(keys, indegree);
    forall y ensures (if y in downstream then downstream[y] else {}) == NeededBy(ArcsOf(graph), y) {
      assert SetAt(downstream, y) == NeededBy(ArcsOf(graph), y);
    }
    var ordered := RunQueue(ArcsOf(graph), keys, indegree, downstream, queued);
    CompilerOrderFacts(keys, graph);
    if |ordered| != |graph| {
      return Err(InvalidValue);
    }
    return Ok(ordered);
  }

  lemma CompilerOrderFacts(keys: seq<Name>, graph: map<Name, set<Name>>)
    requires Closed(graph) && graph.Keys == Elements(keys) && Distinct(keys)
    requires Counting(ArcsOf(graph), Sizes(graph), Initial(keys, Sizes(graph)))
    ensures var r := Drain(ArcsOf(graph), Sizes(graph), Initial(keys, Sizes(graph)));
            && (|r| == |graph| <==> Acyclic(ArcsOf(graph)))
            && Distinct(r) && Supported(ArcsOf(graph), r)
            && (|r| == |graph| ==> Elements(r) == graph.Keys)
  {
    hide Counting, Acyclic, Supported, Drain, Closed, ArcsOf, Initial, Distinct, Kahn.Startable;
    var arcs, start := ArcsOf(graph), Sizes(graph);
    var s := Initial(keys, start);
    CompilerStartable(keys, graph);
    DrainCompleteIff(arcs, start, s);
    DrainOrder(arcs, start, s);
    SizesSize(graph);
    ArcsStay(graph);
    FullDrain(arcs, start, s);
  }

  lemma ArcsStay(graph: map<Name, set<Name>>)
    requires Closed(graph)
    ensures forall arc | arc in ArcsOf(graph) :: arc.1 in Sizes(graph)
  {
    forall arc | arc in ArcsOf(graph) ensures arc.1 in Sizes(graph) {
      assert (arc.0, arc.1) in ArcsOf(graph);
    }
  }

  lemma SizesSize(graph: map<Name, set<Name>>)
    ensures |Sizes(graph)| == |graph|
  {
    assert Sizes(graph).Keys == graph.Keys;
    assert |Sizes(graph).Keys| == |Sizes(graph)| && |graph.Keys| == |graph|;
  }

  lemma FullDrain(arcs: Arcs, start: map<Name, int>, s: Sort)
    requires Counting(arcs, start, s)
    ensures |Drain(arcs, start, s)| == |start| ==> Elements(Drain(arcs, start, s)) == start.Keys
  {
    DrainOrder(arcs, start, s);
    DistinctSize(Drain(arcs, start, s));
    SubsetSize(Elements(Drain(arcs, start, s)), start.Keys);
    assert |start.Keys| == |start|;
  }

  // ---------------------------------------------------------------- topology

  function HardMap(templates: seq<Template>): map<Name, seq<Name>> {
    map k | k in ByKey(templates) :: ByKey(templates)[k].hard
  }

  function SoftMap(templates: seq<Template>): map<Name, seq<Name>> {
    map k | k in ByKey(templates) :: ByKey(templates)[k].soft
  }

  lemma {:induction false} LastCounts(templates: seq<Template>, i: nat)
    requires i < |templates| && forall j | i < j < |templates| :: templates[j].key != templates[i].key
    ensures templates[i].key in ByKey(templates) && ByKey(templates)[templates[i].key] == templates[i]
  {
    if i < |templates| - 1 {
      LastCounts(templates[..|templates| - 1], i);
    }
  }

  /** A template with no later one of its key counts with all it lists: the topology's two maps give its
      lists, and the graph that is checked for cycles has an arc to each dependency, hard or soft. */
  lemma CountedExact(templates: seq<Template>, i: nat)
    requires i < |templates| && forall j | i < j < |templates| :: templates[j].key != templates[i].key
    ensures var t := templates[i];
            && t.key in HardMap(templates) && HardMap(templates)[t.key] == t.hard
            && t.key in SoftMap(templates) && SoftMap(templates)[t.key] == t.soft
            && forall y :: (t.key, y) in TemplateArcs(templates) <==> y in t.hard || y in t.soft
  {
    LastCounts(templates, i);
  }

  /** `build_workflow_topology`: a definition is accepted exactly when all references are known and
      hard and soft dependencies together have no cycle.  The depth-first search and the sort
      agree, so the sort's own length check never fires. */
  method BuildTopology(templates: seq<Template>) returns (r: Result<Topology>)
    ensures r.Ok? <==> ReferencesKnown(templates) && Acyclic(TemplateArcs(templates))
    ensures r.Ok? ==>
              && Distinct(r.value.order) && Elements(r.value.order) == Elements(Keys(templates))
              && Supported(TemplateArcs(templates), r.value.order)
              && Settled(TemplateArcs(templates), DictKeys(Keys(templates)), r.value.order, r.value.order)
              && r.value.hard == HardMap(templates) && r.value.soft == SoftMap(templates)
  {
    ByKeyFacts(templates);
    DictKeysFacts(Keys(templates));
    var graph := DependencyMap(templates);
    var keys := DictKeys(Keys(templates));
    assert Elements(keys) == Elements(Keys(templates));
    var known := ValidateDependencyReferences(graph);
    if !known {
      return Err(InvalidValue);
    }
    var cycle := ValidateAcyclic(keys, graph);
    if cycle.Some? {
      return Err(InvalidValue);
    }
    var order := CompilerOrder(keys, graph);
    return Ok(Topology(HardMap(templates), SoftMap(templates), order.value));
  }

  // ---------------------------------------------------------------- the compiled graph

  /** One dependency line of a template, in the order the compiler emits edges. */
  datatype Line = Line(key: Name, needs: Name, hard: bool)

  function LinesFor(key: Name, deps: seq<Name>, hard: bool): (r: seq<Line>)
    ensures |r| == |deps|
  {
    seq(|deps|, i requires 0 <= i < |deps| => Line(key, deps[i], hard))
  }

  function LinesOf(t: Template): seq<Line> {
    LinesFor(t.key, t.hard, true) + LinesFor(t.key, t.soft, false)
  }

  function Lines(templates: seq<Template>): seq<Line> {
    if templates == [] then []
    else Lines(templates[..|templates| - 1]) + LinesOf(templates[|templates| - 1])
  }

  /** The task each key ends up naming: with a repeated key, the last one. */
  function IdOf(templates: seq<Template>, ids: seq<Name>): map<Name, Name>
    requires |templates| == |ids|
  {
    if templates == [] then map[]
    else
      var n := |templates| - 1;
      IdOf(templates[..n], ids[..n])[templates[n].key := ids[n]]
  }

  function TasksOf(templates: seq<Template>, ids: seq<Name>, runId: Name): (r: seq<Task>)
    requires |templates| == |ids|
    ensures |r| == |templates|
  {
    seq(|templates|, i requires 0 <= i < |templates| => Task(ids[i], runId, templates[i].key, CREATED, None, templates[i].payload))
  }

  ghost predicate LinesKnown(templates: seq<Template>) {
    forall i | 0 <= i < |Lines(templates)| :: Lines(templates)[i].needs in Keys(templates)
  }

  function EdgesOf(lines: seq<Line>, idOf: map<Name, Name>, edgeIds: seq<Name>, runId: Name): (r: seq<Edge>)
    requires |edgeIds| >= |lines|
    requires forall i | 0 <= i < |lines| :: lines[i].key in idOf && lines[i].needs in idOf
    ensures |r| == |lines|
  {
    seq(|lines|, i requires 0 <= i < |lines| => Edge(edgeIds[i], runId, idOf[lines[i].needs], idOf[lines[i].key], lines[i].hard))
  }

  lemma {:induction false} IdOfFacts(templates: seq<Template>, ids: seq<Name>)
    requires |templates| == |ids| && Distinct(ids)
    ensures IdOf(templates, ids).Keys == Elements(Keys(templates))
    ensures forall k | k in IdOf(templates, ids) :: IdOf(templates, ids)[k] in ids
    ensures forall k, l | k in IdOf(templates, ids) && l in IdOf(templates, ids) && k != l :: IdOf(templates, ids)[k] != IdOf(templates, ids)[l]
  {
    if templates != [] {
      var n := |templates| - 1;
      IdOfFacts(templates[..n], ids[..n]);
      assert Keys(templates) == Keys(templates[..n]) + [templates[n].key];
      assert ids == ids[..n] + [ids[n]];
      assert ids[n] !in ids[..n];
    }
  }

  lemma {:induction false} IdOfDistinct(templates: seq<Template>, ids: seq<Name>, i: nat)
    requires |templates| == |ids| && Distinct(Keys(templates)) && i < |templates|
    ensures templates[i].key in IdOf(templates, ids) && IdOf(templates, ids)[templates[i].key] == ids[i]
  {
    var n := |templates| - 1;
    if i < n {
      assert Keys(templates[..n]) == Keys(templates)[..n];
      assert Keys(templates)[i] != Keys(templates)[n];
      IdOfDistinct(templates[..n], ids[..n], i);
    }
  }

  lemma {:induction false} LineKeys(templates: seq<Template>)
    ensures forall i | 0 <= i < |Lines(templates)| :: Lines(templates)[i].key in Keys(templates)
  {
    if templates != [] {
      var n := |templates| - 1;
      LineKeys(templates[..n]);
      assert Keys(templates) == Keys(templates[..n]) + [templates[n].key];
      forall i | 0 <= i < |Lines(templates)| ensures Lines(templates)[i].key in Keys(templates) {
        if i >= |Lines(templates[..n])| {
          assert Lines(templates)[i] == LinesOf(templates[n])[i - |Lines(templates[..n])|];
        }
      }
    }
  }

  // ---------------------------------------------------------------- building the graph

  ghost predicate Accepted(templates: seq<Template>) {
    ReferencesKnown(templates) && Acyclic(TemplateArcs(templates))
  }

  /** The edges of one template's dependency list, appended in order. */
  method EmitEdges(key: Name, deps: seq<Name>, hard: bool, idOf: map<Name, Name>, edgeIds: seq<Name>, runId: Name,
                   edges0: seq<Edge>, ghost lines: seq<Line>)
    returns (r: Result<seq<Edge>>)
    requires key in idOf && |edgeIds| >= |lines| + |deps|
    requires forall i | 0 <= i < |lines| :: lines[i].key in idOf && lines[i].needs in idOf
    requires edges0 == EdgesOf(lines, idOf, edgeIds, runId)
    ensures r.Ok? <==> forall i | 0 <= i < |deps| :: deps[i] in idOf
    ensures r.Ok? ==> r.value == EdgesOf(lines + LinesFor(key, deps, hard), idOf, edgeIds, runId)
  {
    var edges := edges0;
    var i := 0;
    while i < |deps|
      invariant 0 <= i <= |deps|
      invariant forall k | 0 <= k < i :: deps[k] in idOf
      invariant edges == EdgesOf(lines + LinesFor(key, deps[..i], hard), idOf, edgeIds, runId)
    {
      if deps[i] !in idOf {
        return Err(UnknownKey);
      }
      edges := edges + [Edge(edgeIds[|edges|], runId, idOf[deps[i]], idOf[key], hard)];
      i := i + 1;
    }
    assert deps[..i] == deps;
    return Ok(edges);
  }

  /** Hard dependencies first, then soft ones. */
  method EmitTemplate(t: Template, idOf: map<Name, Name>, edgeIds: seq<Name>, runId: Name, edges0: seq<Edge>, ghost lines: seq<Line>)
    returns (r: Result<seq<Edge>>)
    requires t.key in idOf && |edgeIds| >= |lines| + |LinesOf(t)|
    requires forall i | 0 <= i < |lines| :: lines[i].key in idOf && lines[i].needs in idOf
    requires edges0 == EdgesOf(lines, idOf, edgeIds, runId)
    ensures r.Ok? <==> forall d | d in t.hard || d in t.soft :: d in idOf
    ensures r.Ok? ==>
              && (forall i | 0 <= i < |lines + LinesOf(t)| :: (lines + LinesOf(t))[i].key in idOf && (lines + LinesOf(t))[i].needs in idOf)
              && r.value == EdgesOf(lines + LinesOf(t), idOf, edgeIds, runId)
  {
    hide EdgesOf;
    var hard := EmitEdges(t.key, t.hard, true, idOf, edgeIds, runId, edges0, lines);
    if hard.Err? {
      return hard;
    }
    r := EmitEdges(t.key, t.soft, false, idOf, edgeIds, runId, hard.value, lines + LinesFor(t.key, t.hard, true));
    assert lines + LinesFor(t.key, t.hard, true) + LinesFor(t.key, t.soft, false) == lines + LinesOf(t);
  }

  lemma LinesPush(templates: seq<Template>, i: nat)
    requires i < |templates|
    ensures Lines(templates[..i + 1]) == Lines(templates[..i]) + LinesOf(templates[i])
  {
    assert templates[..i + 1][..i] == templates[..i];
  }

  lemma {:induction false} LinesPrefix(templates: seq<Template>, i: nat)
    requires i <= |templates|
    ensures Lines(templates[..i]) <= Lines(templates)
    decreases |templates| - i
  {
    if i == |templates| {
      assert templates[..i] == templates;
    } else {
      LinesPrefix(templates, i + 1);
      LinesPush(templates, i);
    }
  }

  /** The second loop of `build_workflow_graph`. */
  method BuildEdges(templates: seq<Template>, idOf: map<Name, Name>, edgeIds: seq<Name>, runId: Name) returns (r: Result<seq<Edge>>)
    requires idOf.Keys == Elements(Keys(templates)) && |edgeIds| >= |Lines(templates)|
    ensures r.Ok? <==> LinesKnown(templates)
    ensures r.Ok? ==> (forall i | 0 <= i < |Lines(templates)| :: Lines(templates)[i].key in idOf && Lines(templates)[i].needs in idOf)
                      && r.value == EdgesOf(Lines(templates), idOf, edgeIds, runId)
  {
    hide EdgesOf, LinesOf, LinesFor;
    LineKeys(templates);
    NoLines(idOf, edgeIds, runId);
    assert templates[..0] == [];
    var edges: seq<Edge> := [];
    var i := 0;
    while i < |templates|
      invariant 0 <= i <= |templates|
      invariant forall k | 0 <= k < |Lines(templates[..i])| :: Lines(templates[..i])[k].key in idOf && Lines(templates[..i])[k].needs in idOf
      invariant |edgeIds| >= |Lines(templates[..i])|
      invariant edges == EdgesOf(Lines(templates[..i]), idOf, edgeIds, runId)
    {
      LinesPush(templates, i);
      LinesPrefix(templates, i + 1);
      assert templates[i].key == Keys(templates)[i];
      var emitted := EmitTemplate(templates[i], idOf, edgeIds, runId, edges, Lines(templates[..i]));
      if emitted.Err? {
        NotKnown(templates, i);
        return Err(emitted.error);
      }
      edges := emitted.value;
      i := i + 1;
    }
    assert templates[..i] == templates;
    return Ok(edges);
  }

  lemma NoLines(idOf: map<Name, Name>, edgeIds: seq<Name>, runId: Name)
    ensures Lines([]) == [] && EdgesOf([], idOf, edgeIds, runId) == []
  {
  }

  lemma NotKnown(templates: seq<Template>, i: nat)
    requires i < |templates|
    requires exists d :: (d in templates[i].hard || d in templates[i].soft) && d !in Keys(templates)
    ensures !LinesKnown(templates)
  {
    var d :| (d in templates[i].hard || d in templates[i].soft) && d !in Keys(templates);
    LinesPush(templates, i);
    LinesPrefix(templates, i + 1);
    var base := |Lines(templates[..i])|;
    if d in templates[i].hard {
      var k :| 0 <= k < |templates[i].hard| && templates[i].hard[k] == d;
      assert Lines(templates[..i + 1])[base + k] == LinesOf(templates[i])[k];
      assert Lines(templates)[base + k].needs == d;
    } else {
      var k :| 0 <= k < |templates[i].soft| && templates[i].soft[k] == d;
      assert Lines(templates[..i + 1])[base + |templates[i].hard| + k] == LinesOf(templates[i])[|templates[i].hard| + k];
      assert Lines(templates)[base + |templates[i].hard| + k].needs == d;
    }
  }

  /** The first loop: one task per template and the key table, in which a repeated key keeps its
      last task. */
  method BuildTasks(templates: seq<Template>, ids: seq<Name>, runId: Name) returns (tasks: seq<Task>, idOf: map<Name, Name>)
    requires |templates| == |ids|
    ensures tasks == TasksOf(templates, ids, runId) && idOf == IdOf(templates, ids)
  {
    tasks, idOf := [], map[];
    var i := 0;
    while i < |templates|
      invariant 0 <= i <= |templates|
      invariant tasks == TasksOf(templates[..i], ids[..i], runId)
      invariant idOf == IdOf(templates[..i], ids[..i])
    {
      tasks := tasks + [Task(ids[i], runId, templates[i].key, CREATED, None, templates[i].payload)];
      idOf := idOf[templates[i].key := ids[i]];
      assert templates[..i + 1][..i] == templates[..i] && ids[..i + 1][..i] == ids[..i];
      i := i + 1;
    }
    assert templates[..i] == templates && ids[..i] == ids;
  }

  ghost function Compiled(templates: seq<Template>, ids: seq<Name>, edgeIds: seq<Name>, run: Run): Graph
    requires |templates| == |ids| && Distinct(ids) && |edgeIds| >= |Lines(templates)| && LinesKnown(templates)
  {
    IdOfFacts(templates, ids);
    LineKeys(templates);
    Graph(run, TasksOf(templates, ids, run.id), EdgesOf(Lines(templates), IdOf(templates, ids), edgeIds, run.id))
  }

  /** `build_workflow_graph`: raises exactly when the topology does or, with repeated keys, when an
      overlooked template names an unknown key. */
  method BuildWorkflowGraph(templates: seq<Template>, ids: seq<Name>, edgeIds: seq<Name>, run: Run) returns (r: Result<Graph>)
    requires |templates| == |ids| && Distinct(ids) && |edgeIds| >= |Lines(templates)|
    ensures r.Ok? <==> Accepted(templates) && LinesKnown(templates)
    ensures r.Ok? ==> r.value == Compiled(templates, ids, edgeIds, run)
  {
    var topology := BuildTopology(templates);
    if topology.Err? {
      return Err(topology.error);
    }
    var tasks, idOf := BuildTasks(templates, ids, run.id);
    IdOfFacts(templates, ids);
    var edges := BuildEdges(templates, idOf, edgeIds, run.id);
    if edges.Err? {
      return Err(edges.error);
    }
    return Ok(Graph(run, tasks, edges.value));
  }
}
