/** Directed graphs as sets of arcs.  An arc `(x, y)` reads "x needs y", so that walking along arcs
    leads from a task to what it depends on: reachability is "has as an ancestor", and a
    duplicate-free order in which everyone stands after everything it needs rules cycles out. */
module Digraph {
  import opened Names
  import opened Sequences

  type Arcs = set<(Name, Name)>

  ghost predicate Walk(arcs: Arcs, p: seq<Name>) {
    forall i, j | 0 <= i && j == i + 1 && j < |p| :: (p[i], p[j]) in arcs
  }

  /** A closed walk of at least one arc. */
  ghost predicate IsCycle(arcs: Arcs, p: seq<Name>) {
    |p| >= 2 && p[0] == p[|p| - 1] && Walk(arcs, p)
  }

  ghost predicate Acyclic(arcs: Arcs) {
    forall p :: !IsCycle(arcs, p)
  }

  /** `b` is met when following one or more arcs from `a`. */
  ghost predicate Reaches(arcs: Arcs, a: Name, b: Name) {
    exists p :: |p| >= 2 && p[0] == a && p[|p| - 1] == b && Walk(arcs, p)
  }

  function Needs(arcs: Arcs, x: Name): (r: set<Name>)
    ensures forall y :: y in r <==> (x, y) in arcs
  {
    set arc | arc in arcs && arc.0 == x :: arc.1
  }

  function NeededBy(arcs: Arcs, y: Name): (r: set<Name>)
    ensures forall x :: x in r <==> (x, y) in arcs
  {
    set arc | arc in arcs && arc.1 == y :: arc.0
  }

  function Reversed(arcs: Arcs): (r: Arcs)
    ensures forall x, y :: (x, y) in r <==> (y, x) in arcs
  {
    set arc | arc in arcs :: (arc.1, arc.0)
  }

  ghost predicate Before(order: seq<Name>, y: Name, i: nat) {
    exists j :: 0 <= j < i && j < |order| && order[j] == y
  }

  /** Every node stands after everything it needs. */
  ghost predicate Supported(arcs: Arcs, order: seq<Name>) {
    forall i, y | 0 <= i < |order| && (order[i], y) in arcs :: Before(order, y, i)
  }

  lemma ArcReaches(arcs: Arcs, a: Name, b: Name)
    requires (a, b) in arcs
    ensures Reaches(arcs, a, b)
  {
    assert Walk(arcs, [a, b]);
  }

  lemma ReachesExtend(arcs: Arcs, a: Name, b: Name, c: Name)
    requires Reaches(arcs, a, b) && (b, c) in arcs
    ensures Reaches(arcs, a, c)
  {
    var p :| |p| >= 2 && p[0] == a && p[|p| - 1] == b && Walk(arcs, p);
    var q := p + [c];
    assert Walk(arcs, q);
  }

  lemma WalkReversed(arcs: Arcs, p: seq<Name>) returns (q: seq<Name>)
    requires Walk(arcs, p)
    ensures |q| == |p| && Walk(Reversed(arcs), q)
    ensures |p| > 0 ==> q[0] == p[|p| - 1] && q[|q| - 1] == p[0]
  {
    q := seq(|p|, i requires 0 <= i < |p| => p[|p| - 1 - i]);
    forall i, j | 0 <= i && j == i + 1 && j < |q| ensures (q[i], q[j]) in Reversed(arcs) {
      var a, b := |p| - 1 - j, |p| - 1 - i;
      assert (p[a], p[b]) in arcs;
    }
  }

  lemma ReachesReversed(arcs: Arcs, a: Name, b: Name)
    ensures Reaches(arcs, a, b) <==> Reaches(Reversed(arcs), b, a)
  {
    if Reaches(arcs, a, b) {
      var p :| |p| >= 2 && p[0] == a && p[|p| - 1] == b && Walk(arcs, p);
      var q := WalkReversed(arcs, p);
    }
    if Reaches(Reversed(arcs), b, a) {
      var p :| |p| >= 2 && p[0] == b && p[|p| - 1] == a && Walk(Reversed(arcs), p);
      var q := WalkReversed(Reversed(arcs), p);
      assert Reversed(Reversed(arcs)) == arcs;
    }
  }

  lemma AcyclicIrreflexive(arcs: Arcs, a: Name)
    requires Acyclic(arcs)
    ensures !Reaches(arcs, a, a)
  {
    if Reaches(arcs, a, a) {
      var p :| |p| >= 2 && p[0] == a && p[|p| - 1] == a && Walk(arcs, p);
      assert IsCycle(arcs, p);
    }
  }

  lemma SubgraphAcyclic(small: Arcs, big: Arcs)
    requires small <= big && Acyclic(big)
    ensures Acyclic(small)
  {
    forall p ensures !IsCycle(small, p) {
      if IsCycle(small, p) {
        assert IsCycle(big, p);
      }
    }
  }

  /** Along a walk inside a supported order, positions only move backwards. */
  lemma {:induction false} WalkDescends(arcs: Arcs, order: seq<Name>, p: seq<Name>, at: nat) returns (end: nat)
    requires Supported(arcs, order) && Walk(arcs, p)
    requires |p| > 0 && at < |order| && order[at] == p[0]
    ensures end < |order| && order[end] == p[|p| - 1]
    ensures end <= at && (|p| > 1 ==> end < at)
    decreases |p|
  {
    if |p| == 1 {
      end := at;
    } else {
      assert (p[0], p[1]) in arcs;
      assert Before(order, p[1], at);
      var next :| 0 <= next < at && order[next] == p[1];
      assert Walk(arcs, p[1..]) by {
        forall i, j | 0 <= i && j == i + 1 && j < |p[1..]| ensures (p[1..][i], p[1..][j]) in arcs {
          assert (p[i + 1], p[j + 1]) in arcs;
        }
      }
      end := WalkDescends(arcs, order, p[1..], next);
    }
  }

  /** A duplicate-free supported order of all nodes with outgoing arcs rules out cycles. */
  lemma SupportedAcyclic(arcs: Arcs, order: seq<Name>)
    requires Distinct(order) && Supported(arcs, order)
    requires forall arc | arc in arcs :: arc.0 in order
    ensures Acyclic(arcs)
  {
    forall p ensures !IsCycle(arcs, p) {
      if IsCycle(arcs, p) {
        assert (p[0], p[1]) in arcs;
        var at :| 0 <= at < |order| && order[at] == p[0];
        var end := WalkDescends(arcs, order, p, at);
        assert false;
      }
    }
  }

  /** A walk of any length can be grown inside a set in which everyone needs someone. */
  lemma {:induction false} GrowWalk(arcs: Arcs, within: set<Name>, n: nat) returns (p: seq<Name>)
    requires within != {}
    requires forall x | x in within :: Needs(arcs, x) * within != {}
    ensures |p| == n + 1 && Walk(arcs, p)
    ensures forall i | 0 <= i < |p| :: p[i] in within
  {
    if n == 0 {
      var x :| x in within;
      p := [x];
    } else {
      var q := GrowWalk(arcs, within, n - 1);
      var last := q[|q| - 1];
      var y :| y in Needs(arcs, last) * within;
      p := q + [y];
      forall i, j | 0 <= i && j == i + 1 && j < |p| ensures (p[i], p[j]) in arcs {
        if j < |q| {
          assert (q[i], q[j]) in arcs;
        }
      }
    }
  }

  /** If every node of a nonempty set needs another node of the set, there is a cycle. */
  lemma NoSinkCycle(arcs: Arcs, within: set<Name>)
    requires within != {}
    requires forall x | x in within :: Needs(arcs, x) * within != {}
    ensures !Acyclic(arcs)
  {
    var p := GrowWalk(arcs, within, |within|);
    var i, j := Pigeonhole(p, within);
    var c := p[i..j + 1];
    assert Walk(arcs, c) by {
      forall a, b | 0 <= a && b == a + 1 && b < |c| ensures (c[a], c[b]) in arcs {
        assert (p[i + a], p[i + b]) in arcs;
      }
    }
    assert IsCycle(arcs, c);
  }

  /** Arcs whose sources are all new cannot close a cycle through old nodes. */
  lemma ExtendAcyclic(old_: Arcs, added: Arcs, fresh_: set<Name>)
    requires Acyclic(old_) && Acyclic(added)
    requires forall arc | arc in added :: arc.0 in fresh_
    requires forall arc | arc in old_ :: arc.0 !in fresh_ && arc.1 !in fresh_
    ensures Acyclic(old_ + added)
  {
    forall p ensures !IsCycle(old_ + added, p) {
      if IsCycle(old_ + added, p) {
        CycleOnOneSide(old_, added, fresh_, p);
      }
    }
  }

  lemma CycleOnOneSide(old_: Arcs, added: Arcs, fresh_: set<Name>, p: seq<Name>)
    requires IsCycle(old_ + added, p)
    requires forall arc | arc in added :: arc.0 in fresh_
    requires forall arc | arc in old_ :: arc.0 !in fresh_ && arc.1 !in fresh_
    ensures IsCycle(old_, p) || IsCycle(added, p)
  {
    if k :| 0 <= k < |p| && p[k] !in fresh_ {
      StaysOld(old_, added, fresh_, p, k);
      StaysOld(old_, added, fresh_, p, 0);
    }
    assert Walk(old_, p) || Walk(added, p);
  }

  lemma {:induction false} StaysOld(old_: Arcs, added: Arcs, fresh_: set<Name>, p: seq<Name>, k: nat)
    requires forall arc | arc in added :: arc.0 in fresh_
    requires forall arc | arc in old_ :: arc.0 !in fresh_ && arc.1 !in fresh_
    requires Walk(old_ + added, p) && k < |p| && p[k] !in fresh_
    ensures forall m | k <= m < |p| :: p[m] !in fresh_
    decreases |p| - k
  {
    if k + 1 < |p| {
      assert (p[k], p[k + 1]) in old_ + added;
      StaysOld(old_, added, fresh_, p, k + 1);
    }
  }
}
