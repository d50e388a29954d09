/** The worklist closures over hard edges shared by the repositories (storage/repositories.py). */
module Closures {
  import opened Names
  import opened Sequences
  import opened Digraph
  import opened Records
  import opened DependencyGraph

  /** `edge_map.get(x, [])` */
  function Next(m: map<Name, seq<Name>>, x: Name): seq<Name> {
    if x in m then m[x] else []
  }

  ghost predicate MapOf(m: map<Name, seq<Name>>, arcs: Arcs) {
    forall x, y :: y in Next(m, x) <==> (x, y) in arcs
  }

  lemma MapPush(m: map<Name, seq<Name>>, arcs: Arcs, x: Name, y: Name)
    requires MapOf(m, arcs)
    ensures MapOf(m[x := Next(m, x) + [y]], arcs + {(x, y)})
  {
    var after := m[x := Next(m, x) + [y]];
    forall a, b ensures b in Next(after, a) <==> (a, b) in arcs + {(x, y)} {
      if a == x {
        assert b in Next(m, x) + [y] <==> b in Next(m, x) || b == y;
      }
    }
  }

  /** Hard edges listed by their target, so that following them leads upstream. */
  method UpstreamMap(edges: seq<Edge>) returns (m: map<Name, seq<Name>>)
    ensures MapOf(m, HardArcs(edges))
  {
    m := map[];
    var i := 0;
    assert HardArcs(edges[..i]) == {};
    while i < |edges|
      invariant 0 <= i <= |edges| && MapOf(m, HardArcs(edges[..i]))
    {
      var e := edges[i];
      PrefixArcs(edges, i);
      if e.hard {
        MapPush(m, HardArcs(edges[..i]), e.to, e.from);
        m := m[e.to := Next(m, e.to) + [e.from]];
      }
      i := i + 1;
    }
    assert edges[..i] == edges;
  }

  /** Hard edges listed by their source, so that following them leads downstream. */
  method DownstreamMap(edges: seq<Edge>) returns (m: map<Name, seq<Name>>)
    ensures MapOf(m, Reversed(HardArcs(edges)))
  {
    m := map[];
    var i := 0;
    assert HardArcs(edges[..i]) == {};
    while i < |edges|
      invariant 0 <= i <= |edges| && MapOf(m, Reversed(HardArcs(edges[..i])))
    {
      var e := edges[i];
      PrefixArcs(edges, i);
      if e.hard {
        MapPush(m, Reversed(HardArcs(edges[..i])), e.from, e.to);
        assert Reversed(HardArcs(edges[..i + 1])) == Reversed(HardArcs(edges[..i])) + {(e.from, e.to)};
        m := m[e.from := Next(m, e.from) + [e.to]];
      }
      i := i + 1;
    }
    assert edges[..i] == edges;
  }

  lemma PrefixArcs(edges: seq<Edge>, i: nat)
    requires i < |edges|
    ensures HardArcs(edges[..i + 1]) == HardArcs(edges[..i]) + if edges[i].hard then {(edges[i].to, edges[i].from)} else {}
  {
    assert edges[..i + 1] == edges[..i] + [edges[i]];
    HardArcsPush(edges[..i], edges[i]);
  }

  // ---------------------------------------------------------------- the worklist

  ghost function Targets(arcs: Arcs): set<Name> {
    set arc | arc in arcs :: arc.1
  }

  /** Every node met so far whose turn has come has had its successors added. */
  ghost predicate ClosedBut(arcs: Arcs, start: Name, found: set<Name>, pending: set<Name>) {
    forall x, y | (x == start || x in found) && x !in pending && (x, y) in arcs :: y in found
  }

  lemma {:induction false} ClosedWalk(arcs: Arcs, start: Name, found: set<Name>, p: seq<Name>)
    requires ClosedBut(arcs, start, found, {}) && Walk(arcs, p) && |p| >= 2 && (p[0] == start || p[0] in found)
    ensures p[|p| - 1] in found
    decreases |p|
  {
    assert (p[0], p[1]) in arcs;
    if |p| > 2 {
      var q := p[1..];
      forall i, j | 0 <= i && j == i + 1 && j < |q| ensures (q[i], q[j]) in arcs {
        assert (p[i + 1], p[j + 1]) in arcs;
      }
      ClosedWalk(arcs, start, found, q);
    }
  }

  lemma ClosedIsReach(arcs: Arcs, start: Name, found: set<Name>)
    requires ClosedBut(arcs, start, found, {}) && forall y | y in found :: Reaches(arcs, start, y)
    ensures forall y :: y in found <==> Reaches(arcs, start, y)
  {
    forall y | Reaches(arcs, start, y) ensures y in found {
      var p :| |p| >= 2 && p[0] == start && p[|p| - 1] == y && Walk(arcs, p);
      ClosedWalk(arcs, start, found, p);
    }
  }

  lemma ReachesOn(arcs: Arcs, start: Name, current: Name, y: Name)
    requires (current, y) in arcs && (current == start || Reaches(arcs, start, current))
    ensures Reaches(arcs, start, y)
  {
    if current == start {
      ArcReaches(arcs, start, y);
    } else {
      ReachesExtend(arcs, start, current, y);
    }
  }

  lemma ElementsEmpty(s: seq<Name>)
    ensures Elements(s[..0]) == {}
  {
  }

  /** One turn of the worklist: the successors of `current` not met before are met and queued. */
  method Visit(next: seq<Name>, found0: set<Name>, frontier0: seq<Name>) returns (found: set<Name>, frontier: seq<Name>)
    ensures found == found0 + Elements(next)
    ensures Elements(frontier) == Elements(frontier0) + (Elements(next) - found0)
    ensures |found| + |frontier0| == |found0| + |frontier|
  {
    hide Elements;
    found, frontier := found0, frontier0;
    ElementsEmpty(next);
    var j := 0;
    while j < |next|
      invariant 0 <= j <= |next|
      invariant found == found0 + Elements(next[..j])
      invariant Elements(frontier) == Elements(frontier0) + (Elements(next[..j]) - found0)
      invariant |found| + |frontier0| == |found0| + |frontier|
    {
      ElementsTake(next, j);
      if next[j] !in found {
        ElementsPush(frontier, next[j]);
        found := found + {next[j]};
        frontier := frontier + [next[j]];
      }
      j := j + 1;
    }
    assert next[..j] == next;
  }

  /** Everything met is reachable, and everything whose turn has come is closed. */
  ghost predicate Underway(arcs: Arcs, start: Name, found: set<Name>, pending: set<Name>) {
    && found <= Targets(arcs) && (forall y | y in found :: Reaches(arcs, start, y))
    && pending <= found + {start} && ClosedBut(arcs, start, found, pending)
  }

  lemma TurnUnderway(arcs: Arcs, start: Name, before: set<Name>, rest: set<Name>, current: Name, next: set<Name>)
    requires Underway(arcs, start, before, rest + {current})
    requires forall y :: y in next <==> (current, y) in arcs
    ensures Underway(arcs, start, before + next, rest + (next - before))
  {
    hide Reaches;
    forall y | y in next ensures Reaches(arcs, start, y) && y in Targets(arcs) {
      assert (current, y) in arcs;
      ReachesOn(arcs, start, current, y);
    }
  }

  lemma TurnShrinks(arcs: Arcs, start: Name, before: set<Name>, next: set<Name>, pending: set<Name>)
    requires Underway(arcs, start, before + next, pending)
    ensures |Targets(arcs) - (before + next)| <= |Targets(arcs) - before|
    ensures |before + next| > |before| ==> |Targets(arcs) - (before + next)| < |Targets(arcs) - before|
  {
    SubsetSize(Targets(arcs) - (before + next), Targets(arcs) - before);
    if |before + next| > |before| {
      assert before + next != before;
      var x :| x in before + next && x !in before;
      assert x in Targets(arcs) - before && x !in Targets(arcs) - (before + next);
    }
  }

  /** The worklist ends, and has met exactly what one or more arcs lead to. */
  method Reachable(m: map<Name, seq<Name>>, start: Name, ghost arcs: Arcs) returns (found: set<Name>)
    requires MapOf(m, arcs)
    ensures forall y :: y in found <==> Reaches(arcs, start, y)
  {
    hide Underway, Reaches, Targets, ClosedBut;
    found := {};
    var frontier := [start];
    StartUnderway(arcs, start);
    assert Elements(frontier) == {start};
    while frontier != []
      invariant Underway(arcs, start, found, Elements(frontier))
      decreases |Targets(arcs) - found|, |frontier|
    {
      var n := |frontier| - 1;
      var current := frontier[n];
      ghost var before := found;
      assert frontier == frontier[..n] + [current];
      ElementsAppend(frontier[..n], [current]);
      ghost var next := Elements(Next(m, current));
      ghost var rest := Elements(frontier[..n]);
      assert Elements([current]) == {current};
      found, frontier := Visit(Next(m, current), found, frontier[..n]);
      TurnUnderway(arcs, start, before, rest, current, next);
      TurnShrinks(arcs, start, before, next, Elements(frontier));
    }
    assert Elements(frontier) == {};
    EndUnderway(arcs, start, found);
  }

  lemma StartUnderway(arcs: Arcs, start: Name)
    ensures Underway(arcs, start, {}, {start})
  {
  }

  lemma EndUnderway(arcs: Arcs, start: Name, found: set<Name>)
    requires Underway(arcs, start, found, {})
    ensures forall y :: y in found <==> Reaches(arcs, start, y)
  {
    hide Reaches;
    ClosedIsReach(arcs, start, found);
  }
}
