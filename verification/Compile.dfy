/** What compilation preserves: the meaning of a definition in the runtime graph it becomes. */
module Compile {
  import opened Names
  import opened Wrappers
  import opened Sequences
  import opened Digraph
  import opened Records
  import opened DependencyGraph
  import opened CycleSearch
  import opened WorkflowSpec
  import opened RunModel
  import opened RunInvariant

  // ---------------------------------------------------------------- renaming keys to ids

  /** `f` renames nodes and `g` undoes it. */
  ghost predicate Renames(f: map<Name, Name>, g: map<Name, Name>) {
    forall x | x in f :: f[x] in g && g[f[x]] == x
  }

  ghost function Renamed(arcs: Arcs, f: map<Name, Name>): Arcs
    requires forall arc | arc in arcs :: arc.0 in f && arc.1 in f
  {
    set arc | arc in arcs :: (f[arc.0], f[arc.1])
  }

  lemma RenamedCycle(arcs: Arcs, f: map<Name, Name>, p: seq<Name>)
    requires (forall arc | arc in arcs :: arc.0 in f && arc.1 in f) && IsCycle(arcs, p)
    ensures !Acyclic(Renamed(arcs, f))
  {
    forall i | 0 <= i < |p| ensures p[i] in f {
      if i + 1 < |p| {
        assert (p[i], p[i + 1]) in arcs;
      } else {
        assert (p[i - 1], p[i]) in arcs;
      }
    }
    var q := seq(|p|, i requires 0 <= i < |p| => f[p[i]]);
    forall i, j | 0 <= i && j == i + 1 && j < |q| ensures (q[i], q[j]) in Renamed(arcs, f) {
      assert (p[i], p[j]) in arcs;
    }
    assert IsCycle(Renamed(arcs, f), q);
  }

  lemma RenamedBack(arcs: Arcs, f: map<Name, Name>, g: map<Name, Name>)
    requires (forall arc | arc in arcs :: arc.0 in f && arc.1 in f) && Renames(f, g)
    ensures (forall arc | arc in Renamed(arcs, f) :: arc.0 in g && arc.1 in g) && Renamed(Renamed(arcs, f), g) == arcs
  {
    var there := Renamed(arcs, f);
    forall x, y | (x, y) in there ensures x in g && y in g && (g[x], g[y]) in arcs {
      var arc :| arc in arcs && (f[arc.0], f[arc.1]) == (x, y);
      assert (arc.0, arc.1) in arcs;
    }
    forall x, y | (x, y) in arcs ensures (x, y) in Renamed(there, g) {
      assert (f[x], f[y]) in there;
    }
  }

  lemma RenamedAcyclic(arcs: Arcs, f: map<Name, Name>, g: map<Name, Name>)
    requires (forall arc | arc in arcs :: arc.0 in f && arc.1 in f) && Renames(f, g)
    ensures Acyclic(Renamed(arcs, f)) <==> Acyclic(arcs)
  {
    RenamedBack(arcs, f, g);
    if p :| IsCycle(arcs, p) {
      RenamedCycle(arcs, f, p);
    }
    if q :| IsCycle(Renamed(arcs, f), q) {
      RenamedCycle(Renamed(arcs, f), g, q);
    }
  }

  // ---------------------------------------------------------------- lines and edges

  ghost function LineArcs(lines: seq<Line>): Arcs {
    set l | l in lines && l.hard :: (l.key, l.needs)
  }

  /** No key lists the same hard dependency twice. */
  ghost predicate HardLinesUnrepeated(lines: seq<Line>) {
    forall i, j | 0 <= i < j < |lines| && lines[i].hard && lines[j].hard :: lines[i].key != lines[j].key || lines[i].needs != lines[j].needs
  }

  ghost predicate Renaming(f: map<Name, Name>) {
    forall k, l | k in f && l in f && k != l :: f[k] != f[l]
  }

  lemma Inverse(f: map<Name, Name>) returns (g: map<Name, Name>)
    requires Renaming(f)
    ensures Renames(f, g)
  {
    g := map k | k in f :: f[k] := k;
  }

  lemma EdgeArcsAreRenamed(lines: seq<Line>, f: map<Name, Name>, edgeIds: seq<Name>, runId: Name)
    requires |edgeIds| >= |lines| && forall i | 0 <= i < |lines| :: lines[i].key in f && lines[i].needs in f
    ensures forall arc | arc in LineArcs(lines) :: arc.0 in f && arc.1 in f
    ensures HardArcs(EdgesOf(lines, f, edgeIds, runId)) == Renamed(LineArcs(lines), f)
  {
    var edges := EdgesOf(lines, f, edgeIds, runId);
    forall x, y | (x, y) in HardArcs(edges) ensures (x, y) in Renamed(LineArcs(lines), f) {
      var e :| e in edges && e.hard && (e.to, e.from) == (x, y);
      var i :| 0 <= i < |edges| && edges[i] == e;
      assert lines[i] in lines && (lines[i].key, lines[i].needs) in LineArcs(lines);
    }
    forall k, d | (k, d) in LineArcs(lines) ensures (f[k], f[d]) in HardArcs(edges) {
      var l :| l in lines && l.hard && (l.key, l.needs) == (k, d);
      var i :| 0 <= i < |lines| && lines[i] == l;
      assert edges[i] in edges;
    }
  }

  lemma EdgesUnrepeatedIff(lines: seq<Line>, f: map<Name, Name>, edgeIds: seq<Name>, runId: Name)
    requires |edgeIds| >= |lines| && Renaming(f) && forall i | 0 <= i < |lines| :: lines[i].key in f && lines[i].needs in f
    ensures Unrepeated(EdgesOf(lines, f, edgeIds, runId)) <==> HardLinesUnrepeated(lines)
  {
    var edges := EdgesOf(lines, f, edgeIds, runId);
    if Unrepeated(edges) {
      forall i, j | 0 <= i < j < |lines| && lines[i].hard && lines[j].hard
        ensures lines[i].key != lines[j].key || lines[i].needs != lines[j].needs
      {
        assert edges[i].from != edges[j].from || edges[i].to != edges[j].to;
      }
    }
  }

  /** For every accepted definition the runtime can use the compiled graph exactly when the lines
      of all templates, overlooked ones included, repeat no hard dependency and have no cycle. */
  lemma CompiledSchedulableIff(templates: seq<Template>, ids: seq<Name>, edgeIds: seq<Name>, run: Run)
    requires |templates| == |ids| && Distinct(ids) && |edgeIds| >= |Lines(templates)| && LinesKnown(templates)
    ensures var g := Compiled(templates, ids, edgeIds, run);
            Schedulable(TaskIds(g.tasks), g.edges) <==> HardLinesUnrepeated(Lines(templates)) && Acyclic(LineArcs(Lines(templates)))
  {
    hide Acyclic, Unrepeated, HardLinesUnrepeated;
    var g, f := Compiled(templates, ids, edgeIds, run), IdOf(templates, ids);
    var lines := Lines(templates);
    IdOfFacts(templates, ids);
    LineKeys(templates);
    assert TaskIds(g.tasks) == ids;
    var inverse := Inverse(f);
    EdgeArcsAreRenamed(lines, f, edgeIds, run.id);
    RenamedAcyclic(LineArcs(lines), f, inverse);
    EdgesUnrepeatedIff(lines, f, edgeIds, run.id);
    assert HardEndpointsKnown(ids, g.edges);
  }

  // ---------------------------------------------------------------- distinct keys

  lemma {:induction false} LineOrigin(templates: seq<Template>, i: nat) returns (t: nat)
    requires i < |Lines(templates)|
    ensures t < |templates| && Lines(templates)[i].key == templates[t].key
    ensures Lines(templates)[i].needs in (if Lines(templates)[i].hard then templates[t].hard else templates[t].soft)
  {
    var n := |templates| - 1;
    var front := Lines(templates[..n]);
    if i < |front| {
      t := LineOrigin(templates[..n], i);
    } else {
      t := n;
      assert Lines(templates)[i] == LinesOf(templates[n])[i - |front|];
    }
  }

  /** With distinct keys every line is a counted dependency. */
  lemma DistinctKeysCount(templates: seq<Template>)
    requires Distinct(Keys(templates))
    ensures LineArcs(Lines(templates)) <= TemplateArcs(templates)
    ensures ReferencesKnown(templates) ==> LinesKnown(templates)
  {
    ByKeyFacts(templates);
    forall i | 0 <= i < |Lines(templates)|
      ensures Lines(templates)[i].key in DependencyMap(templates) && Lines(templates)[i].needs in DependencyMap(templates)[Lines(templates)[i].key]
    {
      var t := LineOrigin(templates, i);
      assert templates[t].key == Keys(templates)[t];
    }
    forall k, d | (k, d) in LineArcs(Lines(templates)) ensures (k, d) in TemplateArcs(templates) {
      var l :| l in Lines(templates) && l.hard && (l.key, l.needs) == (k, d);
      var i :| 0 <= i < |Lines(templates)| && Lines(templates)[i] == l;
    }
    if ReferencesKnown(templates) {
      forall i | 0 <= i < |Lines(templates)| ensures Lines(templates)[i].needs in Keys(templates) {
        assert Lines(templates)[i].needs in DependencyMap(templates);
      }
    }
  }

  /** What `key`'s hard lines need, in order. */
  ghost function HardNeeds(lines: seq<Line>, key: Name): seq<Name> {
    if lines == [] then []
    else
      var last := lines[|lines| - 1];
      HardNeeds(lines[..|lines| - 1], key) + if last.hard && last.key == key then [last.needs] else []
  }

  lemma {:induction false} HardNeedsConcat(a: seq<Line>, b: seq<Line>, key: Name)
    ensures HardNeeds(a + b, key) == HardNeeds(a, key) + HardNeeds(b, key)
  {
    if b == [] {
      assert a + b == a;
    } else {
      HardNeedsConcat(a, b[..|b| - 1], key);
      assert (a + b)[..|a + b| - 1] == a + b[..|b| - 1];
    }
  }

  lemma {:induction false} HardNeedsOfList(k: Name, deps: seq<Name>, hard: bool, key: Name)
    ensures HardNeeds(LinesFor(k, deps, hard), key) == if hard && k == key then deps else []
  {
    if deps != [] {
      var n := |deps| - 1;
      HardNeedsOfList(k, deps[..n], hard, key);
      assert LinesFor(k, deps, hard)[..n] == LinesFor(k, deps[..n], hard);
      assert deps == deps[..n] + [deps[n]];
    }
  }

  lemma HardNeedsOfTemplate(t: Template, key: Name)
    ensures HardNeeds(LinesOf(t), key) == if t.key == key then t.hard else []
  {
    HardNeedsConcat(LinesFor(t.key, t.hard, true), LinesFor(t.key, t.soft, false), key);
    HardNeedsOfList(t.key, t.hard, true, key);
    HardNeedsOfList(t.key, t.soft, false, key);
  }

  lemma {:induction false} HardNeedsAbsent(templates: seq<Template>, key: Name)
    requires forall i | 0 <= i < |templates| :: templates[i].key != key
    ensures HardNeeds(Lines(templates), key) == []
  {
    if templates != [] {
      var n := |templates| - 1;
      HardNeedsAbsent(templates[..n], key);
      HardNeedsConcat(Lines(templates[..n]), LinesOf(templates[n]), key);
      HardNeedsOfTemplate(templates[n], key);
    }
  }

  lemma LastTemplateNeeds(templates: seq<Template>, key: Name)
    requires templates != []
    ensures var n := |templates| - 1;
            HardNeeds(Lines(templates), key) == HardNeeds(Lines(templates[..n]), key) + if templates[n].key == key then templates[n].hard else []
  {
    hide LinesOf, HardNeeds;
    var n := |templates| - 1;
    HardNeedsConcat(Lines(templates[..n]), LinesOf(templates[n]), key);
    HardNeedsOfTemplate(templates[n], key);
  }

  lemma {:induction false} HardNeedsAre(templates: seq<Template>, i: nat)
    requires i < |templates| && forall j | 0 <= j < |templates| && j != i :: templates[j].key != templates[i].key
    ensures HardNeeds(Lines(templates), templates[i].key) == templates[i].hard
  {
    hide LinesOf, HardNeeds;
    var n := |templates| - 1;
    var key, front := templates[i].key, templates[..n];
    LastTemplateNeeds(templates, key);
    if i < n {
      assert front[i] == templates[i];
      HardNeedsAre(front, i);
    } else {
      HardNeedsAbsent(front, key);
    }
  }

  lemma OthersDiffer(templates: seq<Template>, i: nat)
    requires Distinct(Keys(templates)) && i < |templates|
    ensures forall j | 0 <= j < |templates| && j != i :: templates[j].key != templates[i].key
  {
    forall j | 0 <= j < |templates| && j != i ensures templates[j].key != templates[i].key {
      assert Keys(templates)[j] != Keys(templates)[i];
    }
  }

  ghost function Images(f: map<Name, Name>, s: seq<Name>): (r: seq<Name>)
    requires forall i | 0 <= i < |s| :: s[i] in f
    ensures |r| == |s|
  {
    seq(|s|, i requires 0 <= i < |s| => f[s[i]])
  }

  lemma {:induction false} PredecessorsAreImages(lines: seq<Line>, f: map<Name, Name>, edgeIds: seq<Name>, runId: Name, key: Name)
    requires |edgeIds| >= |lines| && Renaming(f) && key in f && forall i | 0 <= i < |lines| :: lines[i].key in f && lines[i].needs in f
    ensures forall i | 0 <= i < |HardNeeds(lines, key)| :: HardNeeds(lines, key)[i] in f
    ensures Predecessors(EdgesOf(lines, f, edgeIds, runId), f[key]) == Images(f, HardNeeds(lines, key))
  {
    if lines != [] {
      var n := |lines| - 1;
      PredecessorsAreImages(lines[..n], f, edgeIds, runId, key);
      assert EdgesOf(lines, f, edgeIds, runId)[..n] == EdgesOf(lines[..n], f, edgeIds, runId);
    }
  }

  /** For distinct keys the runtime's hard predecessors of a task are the tasks of its template's
      hard dependencies, in the listed order. */
  lemma PredecessorsMapBack(templates: seq<Template>, ids: seq<Name>, edgeIds: seq<Name>, run: Run, i: nat)
    requires |templates| == |ids| && Distinct(ids) && |edgeIds| >= |Lines(templates)| && LinesKnown(templates)
    requires Distinct(Keys(templates)) && i < |templates|
    ensures forall k | 0 <= k < |templates[i].hard| :: templates[i].hard[k] in IdOf(templates, ids)
    ensures Predecessors(Compiled(templates, ids, edgeIds, run).edges, ids[i]) == Images(IdOf(templates, ids), templates[i].hard)
  {
    IdOfFacts(templates, ids);
    LineKeys(templates);
    IdOfDistinct(templates, ids, i);
    OthersDiffer(templates, i);
    HardNeedsAre(templates, i);
    PredecessorsAreImages(Lines(templates), IdOf(templates, ids), edgeIds, run.id, templates[i].key);
  }

  /** The dependencies listed before the template at place `i`. */
  function ListedBefore(templates: seq<Template>, i: nat): nat
    requires i <= |templates|
  {
    if i == 0 then 0 else ListedBefore(templates, i - 1) + |templates[i - 1].hard| + |templates[i - 1].soft|
  }

  lemma {:induction false} LinesAt(templates: seq<Template>, i: nat)
    requires i < |templates|
    ensures var n, t := ListedBefore(templates, i), templates[i];
            && n + |t.hard| + |t.soft| <= |Lines(templates)|
            && Lines(templates)[n..n + |t.hard| + |t.soft|] == LinesOf(t)
    ensures |Lines(templates)| == ListedBefore(templates, |templates|)
  {
    var m := |templates| - 1;
    assert Lines(templates) == Lines(templates[..m]) + LinesOf(templates[m]);
    if m > 0 {
      LinesAt(templates[..m], if i < m then i else 0);
      assert templates[..m][..m] == templates[..m];
    } else {
      assert templates[..0] == [];
    }
    if i <= m {
      ListedPrefix(templates, m, i);
    }
    ListedPrefix(templates, m, m);
  }

  lemma {:induction false} ListedPrefix(templates: seq<Template>, m: nat, i: nat)
    requires i <= m <= |templates|
    ensures ListedBefore(templates[..m], i) == ListedBefore(templates, i)
  {
    if i > 0 {
      ListedPrefix(templates, m, i - 1);
    }
  }

  lemma LineAt(templates: seq<Template>, i: nat, k: nat)
    requires i < |templates| && k < |templates[i].hard| + |templates[i].soft|
    ensures var n, t := ListedBefore(templates, i), templates[i];
            && n + k < |Lines(templates)|
            && Lines(templates)[n + k] == if k < |t.hard| then Line(t.key, t.hard[k], true) else Line(t.key, t.soft[k - |t.hard|], false)
  {
    hide Lines;
    LinesAt(templates, i);
    var n, t := ListedBefore(templates, i), templates[i];
    assert Lines(templates)[n..n + |t.hard| + |t.soft|][k] == LinesOf(t)[k];
  }

  /** For distinct keys the compiled graph holds, for each template in turn, one hard edge per hard
      dependency and then one soft edge per soft one, in the listed order, from the dependency's task
      to the template's. */
  lemma CompiledEdge(templates: seq<Template>, ids: seq<Name>, edgeIds: seq<Name>, run: Run, i: nat, k: nat, j: nat)
    requires |templates| == |ids| && Distinct(ids) && |edgeIds| >= |Lines(templates)| && LinesKnown(templates)
    requires Distinct(Keys(templates)) && i < |templates| && k < |templates[i].hard| + |templates[i].soft|
    requires j < |templates|
    requires templates[j].key == if k < |templates[i].hard| then templates[i].hard[k] else templates[i].soft[k - |templates[i].hard|]
    ensures var g, n := Compiled(templates, ids, edgeIds, run), ListedBefore(templates, i);
            n + k < |g.edges| && g.edges[n + k] == Edge(edgeIds[n + k], run.id, ids[j], ids[i], k < |templates[i].hard|)
  {
    hide Lines, IdOf;
    IdOfFacts(templates, ids);
    LineKeys(templates);
    IdOfDistinct(templates, ids, i);
    IdOfDistinct(templates, ids, j);
    LineAt(templates, i, k);
  }

  /** It holds one CREATED task per template, under its key, as many edges as there are dependencies
      listed, and the run's own record. */
  lemma CompiledTasks(templates: seq<Template>, ids: seq<Name>, edgeIds: seq<Name>, run: Run)
    requires |templates| == |ids| && Distinct(ids) && |edgeIds| >= |Lines(templates)| && LinesKnown(templates)
    ensures var g := Compiled(templates, ids, edgeIds, run);
            && g.run == run && |g.tasks| == |templates| && |g.edges| == ListedBefore(templates, |templates|)
            && forall i | 0 <= i < |templates| :: g.tasks[i] == Task(ids[i], run.id, templates[i].key, CREATED, None, templates[i].payload)
  {
    hide Lines;
    if |templates| > 0 {
      LinesAt(templates, 0);
    } else {
      NoLines(templates);
    }
  }

  lemma NoLines(templates: seq<Template>)
    ensures templates == [] ==> Lines(templates) == []
  {
  }

  /** Compilation preserves meaning: for distinct keys an accepted definition compiles, and the
      runtime can use the graph exactly when no template lists a hard dependency twice. */
  lemma CompilationPreserves(templates: seq<Template>, ids: seq<Name>, edgeIds: seq<Name>, run: Run)
    requires |templates| == |ids| && Distinct(ids) && |edgeIds| >= |Lines(templates)|
    requires Distinct(Keys(templates)) && Accepted(templates)
    ensures LinesKnown(templates)
    ensures var g := Compiled(templates, ids, edgeIds, run);
            Order(TaskIds(g.tasks), g.edges).Ok? <==> forall i | 0 <= i < |templates| :: Distinct(templates[i].hard)
  {
    DistinctKeysCount(templates);
    CompiledSchedulableIff(templates, ids, edgeIds, run);
    var g := Compiled(templates, ids, edgeIds, run);
    OrderSucceedsIff(TaskIds(g.tasks), g.edges);
    SubgraphAcyclic(LineArcs(Lines(templates)), TemplateArcs(templates));
    UnrepeatedLinesIff(templates);
  }

  lemma {:induction false} HardNeedsAt(lines: seq<Line>, key: Name, i: nat)
    requires i < |lines| && lines[i].hard && lines[i].key == key
    ensures |HardNeeds(lines[..i], key)| < |HardNeeds(lines, key)|
    ensures HardNeeds(lines, key)[|HardNeeds(lines[..i], key)|] == lines[i].needs
  {
    var n := |lines| - 1;
    if i < n {
      HardNeedsAt(lines[..n], key, i);
      assert lines[..n][..i] == lines[..i];
    }
  }

  lemma {:induction false} HardNeedsFrom(lines: seq<Line>, key: Name, k: nat) returns (i: nat)
    requires k < |HardNeeds(lines, key)|
    ensures i < |lines| && lines[i].hard && lines[i].key == key && lines[i].needs == HardNeeds(lines, key)[k]
    ensures |HardNeeds(lines[..i], key)| == k
  {
    var n := |lines| - 1;
    if k < |HardNeeds(lines[..n], key)| {
      i := HardNeedsFrom(lines[..n], key, k);
      assert lines[..n][..i] == lines[..i];
    } else {
      i := n;
    }
  }

  lemma UnrepeatedNeedsDistinct(lines: seq<Line>, key: Name)
    requires HardLinesUnrepeated(lines)
    ensures Distinct(HardNeeds(lines, key))
  {
    forall a, b | 0 <= a < b < |HardNeeds(lines, key)| ensures HardNeeds(lines, key)[a] != HardNeeds(lines, key)[b] {
      var i := HardNeedsFrom(lines, key, a);
      var j := HardNeedsFrom(lines, key, b);
    }
  }

  lemma DistinctNeedsUnrepeated(lines: seq<Line>)
    requires forall key :: Distinct(HardNeeds(lines, key))
    ensures HardLinesUnrepeated(lines)
  {
    forall i, j | 0 <= i < j < |lines| && lines[i].hard && lines[j].hard
      ensures lines[i].key != lines[j].key || lines[i].needs != lines[j].needs
    {
      var key := lines[i].key;
      if lines[j].key == key {
        HardNeedsAt(lines, key, j);
        HardNeedsAt(lines[..j], key, i);
        assert lines[..j][..i] == lines[..i];
        HardNeedsAt(lines, key, i);
        assert Distinct(HardNeeds(lines, key));
      }
    }
  }

  lemma UnrepeatedLists(templates: seq<Template>, i: nat)
    requires Distinct(Keys(templates)) && i < |templates| && HardLinesUnrepeated(Lines(templates))
    ensures Distinct(templates[i].hard)
  {
    hide HardLinesUnrepeated;
    OthersDiffer(templates, i);
    HardNeedsAre(templates, i);
    UnrepeatedNeedsDistinct(Lines(templates), templates[i].key);
  }

  lemma NeedsDistinct(templates: seq<Template>, key: Name)
    requires Distinct(Keys(templates)) && forall i | 0 <= i < |templates| :: Distinct(templates[i].hard)
    ensures Distinct(HardNeeds(Lines(templates), key))
  {
    if i :| 0 <= i < |templates| && templates[i].key == key {
      OthersDiffer(templates, i);
      HardNeedsAre(templates, i);
    } else {
      HardNeedsAbsent(templates, key);
    }
  }

  lemma UnrepeatedLinesIff(templates: seq<Template>)
    requires Distinct(Keys(templates))
    ensures HardLinesUnrepeated(Lines(templates)) <==> forall i | 0 <= i < |templates| :: Distinct(templates[i].hard)
  {
    hide HardLinesUnrepeated, Distinct, Lines, HardNeeds;
    if HardLinesUnrepeated(Lines(templates)) {
      forall i | 0 <= i < |templates| ensures Distinct(templates[i].hard) {
        UnrepeatedLists(templates, i);
      }
    }
    if forall i | 0 <= i < |templates| :: Distinct(templates[i].hard) {
      forall key ensures Distinct(HardNeeds(Lines(templates), key)) {
        NeedsDistinct(templates, key);
      }
      DistinctNeedsUnrepeated(Lines(templates));
    }
  }

  // ---------------------------------------------------------------- a repeated key escapes validation

  function Overlooked(x: Name, y: Name): seq<Template> {
    [Template(x, [y], [], ""), Template(y, [x], [], ""), Template(x, [], [], "")]
  }

  lemma OverlookedMap(x: Name, y: Name)
    requires x != y
    ensures DependencyMap(Overlooked(x, y)) == map[x := {}, y := {x}] && Keys(Overlooked(x, y)) == [x, y, x]
  {
    hide Lines;
    var a, b, c := Template(x, [y], [], ""), Template(y, [x], [], ""), Template(x, [], [], "");
    var templates := [a, b, c];
    assert templates[..2] == [a, b] && [a, b][..1] == [a] && [a][..0] == [];
    assert ByKey([a]) == map[x := a];
    assert ByKey([a, b]) == map[x := a, y := b];
    assert ByKey(templates) == map[x := c, y := b];
    assert Dependencies(c) == {} && Dependencies(b) == {x};
  }

  lemma OverlookedLines(x: Name, y: Name)
    ensures Lines(Overlooked(x, y)) == [Line(x, y, true), Line(y, x, true)]
  {
    var a, b, c := Template(x, [y], [], ""), Template(y, [x], [], ""), Template(x, [], [], "");
    var templates := [a, b, c];
    assert templates[..2] == [a, b] && [a, b][..1] == [a] && [a][..0] == [];
    assert LinesOf(a) == [Line(x, y, true)] && LinesOf(b) == [Line(y, x, true)] && LinesOf(c) == [];
    assert Lines([a]) == [Line(x, y, true)];
    assert Lines([a, b]) == [Line(x, y, true), Line(y, x, true)];
  }

  lemma TwoLineCycle(x: Name, y: Name)
    ensures !Acyclic(LineArcs([Line(x, y, true), Line(y, x, true)]))
  {
    var lines := [Line(x, y, true), Line(y, x, true)];
    assert lines[0] in lines && lines[1] in lines;
    assert IsCycle(LineArcs(lines), [x, y, x]);
  }

  /** Three templates, the first and last with the same key: the cycle through the first is not
      seen by validation, and the compiled graph cannot be scheduled. */
  lemma RepeatedKeyEscapes(x: Name, y: Name, ids: seq<Name>, edgeIds: seq<Name>, run: Run)
    requires x != y && |ids| == 3 && Distinct(ids) && |edgeIds| >= 2
    ensures var templates := Overlooked(x, y);
            && Accepted(templates) && |Lines(templates)| == 2 && LinesKnown(templates)
            && Order(TaskIds(Compiled(templates, ids, edgeIds, run).tasks), Compiled(templates, ids, edgeIds, run).edges).Err?
  {
    hide Acyclic, Order;
    var templates := Overlooked(x, y);
    OverlookedMap(x, y);
    OverlookedLines(x, y);
    assert Keys(templates)[0] == x && Keys(templates)[1] == y;
    assert TemplateArcs(templates) == {(y, x)};
    TwoNodeOrder(x, y, TemplateArcs(templates));
    TwoLineCycle(x, y);
    CompiledSchedulableIff(templates, ids, edgeIds, run);
    OrderSucceedsIff(TaskIds(Compiled(templates, ids, edgeIds, run).tasks), Compiled(templates, ids, edgeIds, run).edges);
  }

  /** Two templates with distinct keys, the second needing the first twice. */
  function Doubled(x: Name, y: Name): seq<Template> {
    [Template(x, [], [], ""), Template(y, [x, x], [], "")]
  }

  /** Validation works on sets of dependencies and accepts the repeated one; the runtime sort counts
      it twice and fails. */
  lemma RepeatedDependencyEscapes(x: Name, y: Name, ids: seq<Name>, edgeIds: seq<Name>, run: Run)
    requires x != y && |ids| == 2 && Distinct(ids) && |edgeIds| >= 2
    ensures var templates := Doubled(x, y);
            && Distinct(Keys(templates)) && Accepted(templates) && |Lines(templates)| == 2 && LinesKnown(templates)
            && Order(TaskIds(Compiled(templates, ids, edgeIds, run).tasks), Compiled(templates, ids, edgeIds, run).edges).Err?
  {
    hide Acyclic, Order, Compiled, LinesKnown;
    var templates := Doubled(x, y);
    DoubledMap(x, y);
    DoubledLines(x, y);
    assert TemplateArcs(templates) == {(y, x)};
    TwoNodeOrder(x, y, TemplateArcs(templates));
    CompilationPreserves(templates, ids, edgeIds, run);
    assert !Distinct(templates[1].hard) by {
      assert templates[1].hard[0] == templates[1].hard[1];
    }
  }

  lemma DoubledMap(x: Name, y: Name)
    requires x != y
    ensures DependencyMap(Doubled(x, y)) == map[x := {}, y := {x}] && Distinct(Keys(Doubled(x, y)))
    ensures ReferencesKnown(Doubled(x, y))
  {
    hide Lines;
    var a, b := Template(x, [], [], ""), Template(y, [x, x], [], "");
    assert [a, b][..1] == [a] && [a][..0] == [];
    assert ByKey([a]) == map[x := a];
    assert ByKey([a, b]) == map[x := a, y := b];
    assert Dependencies(a) == {} && Dependencies(b) == {x};
  }

  lemma DoubledLines(x: Name, y: Name)
    ensures Lines(Doubled(x, y)) == [Line(y, x, true), Line(y, x, true)]
  {
    var a, b := Template(x, [], [], ""), Template(y, [x, x], [], "");
    assert [a, b][..1] == [a] && [a][..0] == [];
    assert LinesOf(a) == [] && LinesOf(b) == [Line(y, x, true), Line(y, x, true)];
    assert Lines([a]) == [];
  }

  lemma TwoNodeOrder(x: Name, y: Name, arcs: Arcs)
    requires x != y && arcs == {(y, x)}
    ensures Acyclic(arcs)
  {
    var order := [x, y];
    assert Before(order, x, 1) by {
      assert order[0] == x;
    }
    SupportedAcyclic(arcs, order);
  }

  // ---------------------------------------------------------------- compiled runs start well

  /** A compiled graph is a good start for the whole-run theorems. */
  lemma CompiledStartable(templates: seq<Template>, ids: seq<Name>, edgeIds: seq<Name>, run: Run)
    requires |templates| == |ids| && Distinct(ids) && |edgeIds| >= |Lines(templates)| && Distinct(edgeIds)
    requires Distinct(Keys(templates)) && Accepted(templates) && run.status == RunCreated
    requires forall i | 0 <= i < |templates| :: Distinct(templates[i].hard)
    requires forall i | 0 <= i < |templates| :: templates[i].key !in ids
    ensures LinesKnown(templates) && RunInvariant.Startable(Compiled(templates, ids, edgeIds, run))
  {
    CompilationPreserves(templates, ids, edgeIds, run);
    var g := Compiled(templates, ids, edgeIds, run);
    OrderSucceedsIff(TaskIds(g.tasks), g.edges);
    IdOfFacts(templates, ids);
    LineKeys(templates);
    CompiledGraphOk(templates, ids, edgeIds, run);
    AllCreatedStartable(g);
  }

  lemma CompiledGraphOk(templates: seq<Template>, ids: seq<Name>, edgeIds: seq<Name>, run: Run)
    requires |templates| == |ids| && Distinct(ids) && |edgeIds| >= |Lines(templates)| && Distinct(edgeIds)
    requires LinesKnown(templates) && Distinct(Keys(templates))
    requires forall i | 0 <= i < |templates| :: templates[i].key !in ids
    requires var g := Compiled(templates, ids, edgeIds, run); Schedulable(TaskIds(g.tasks), g.edges)
    ensures var g := Compiled(templates, ids, edgeIds, run); GraphOk(run.id, g.tasks, g.edges)
  {
    hide Acyclic, Unrepeated;
    var g := Compiled(templates, ids, edgeIds, run);
    IdOfFacts(templates, ids);
    LineKeys(templates);
    assert TaskIds(g.tasks) == ids && TaskKeys(g.tasks) == Keys(templates);
    assert EdgeIds(g.edges) == edgeIds[..|g.edges|];
    forall i | 0 <= i < |g.edges| ensures g.edges[i].from in Elements(ids) && g.edges[i].to in Elements(ids) {
      assert Lines(templates)[i].key in Keys(templates);
    }
  }
}
