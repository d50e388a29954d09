/** The queue-driven topological sort. */
module Kahn {
  import opened Names
  import opened Sequences
  import opened Digraph

  // Both the workflow compiler and the runtime use it.  A node leaves the queue only when its
  // indegree has been counted down to zero.

  datatype Sort = Sort(queue: seq<Name>, degree: map<Name, int>, ordered: seq<Name>)

  /** The part of `children` whose indegree is zero, in order. */
  function Freed(children: seq<Name>, degree: map<Name, int>): seq<Name> {
    if children == [] then []
    else
      var c := children[0];
      var rest := Freed(children[1..], degree);
      if c in degree && degree[c] == 0 then [c] + rest else rest
  }

  /** One turn of the loop: pop a node, count its dependants down, queue the freed ones. */
  function Turn(arcs: Arcs, s: Sort): Sort
    requires s.queue != []
  {
    var node := s.queue[0];
    var children := NeededBy(arcs, node);
    var degree := map x | x in s.degree :: if x in children then s.degree[x] - 1 else s.degree[x];
    Sort(s.queue[1..] + Freed(Sorted(children), degree), degree, s.ordered + [node])
  }

  ghost predicate Tidy(s: Sort) {
    Distinct(s.ordered) && Distinct(s.queue) && (forall x | x in s.queue :: x !in s.ordered)
  }

  /** Zero indegree means: queued, or already emitted. */
  ghost predicate Zeroes(start: map<Name, int>, s: Sort) {
    forall x :: x in s.ordered || x in s.queue <==> x in start && x in s.degree && s.degree[x] == 0
  }

  ghost predicate Degrees(arcs: Arcs, start: map<Name, int>, s: Sort) {
    && s.degree.Keys == start.Keys
    && forall x | x in start :: s.degree[x] == start[x] - |Needs(arcs, x) * Elements(s.ordered)|
  }

  /** The counting invariant.  `start` holds the initial indegrees, each at least the number of
      distinct needs (a repeated edge makes it larger). */
  ghost predicate Counting(arcs: Arcs, start: map<Name, int>, s: Sort) {
    && Tidy(s) && Zeroes(start, s) && Degrees(arcs, start, s) && Supported(arcs, s.ordered)
    && (forall x | x in start :: start[x] >= |Needs(arcs, x)|)
    && (forall arc | arc in arcs :: arc.0 in start)
  }

  /** What the two callers set up before the loop. */
  ghost predicate Startable(arcs: Arcs, nodes: seq<Name>, start: map<Name, int>) {
    && (forall x :: x in nodes <==> x in start)
    && (forall x | x in start :: start[x] >= |Needs(arcs, x)|)
    && (forall arc | arc in arcs :: arc.0 in start)
  }

  function Initial(nodes: seq<Name>, start: map<Name, int>): Sort {
    Sort(Freed(nodes, start), start, [])
  }

  lemma {:induction false} FreedMember(children: seq<Name>, degree: map<Name, int>, x: Name)
    ensures x in Freed(children, degree) <==> x in children && x in degree && degree[x] == 0
  {
    if children != [] {
      FreedMember(children[1..], degree, x);
      assert children == [children[0]] + children[1..];
    }
  }

  lemma FreedMembers(children: seq<Name>, degree: map<Name, int>)
    ensures forall x :: x in Freed(children, degree) <==> x in children && x in degree && degree[x] == 0
  {
    forall x ensures x in Freed(children, degree) <==> x in children && x in degree && degree[x] == 0 {
      FreedMember(children, degree, x);
    }
  }

  lemma {:induction false} FreedDistinct(nodes: seq<Name>, degree: map<Name, int>)
    requires Distinct(nodes)
    ensures Distinct(Freed(nodes, degree))
  {
    if nodes != [] {
      FreedDistinct(nodes[1..], degree);
      FreedMember(nodes[1..], degree, nodes[0]);
    }
  }

  lemma InitialZeroes(arcs: Arcs, nodes: seq<Name>, start: map<Name, int>)
    requires Startable(arcs, nodes, start)
    ensures Zeroes(start, Initial(nodes, start))
  {
    FreedMembers(nodes, start);
  }

  lemma InitialDegrees(arcs: Arcs, nodes: seq<Name>, start: map<Name, int>)
    ensures Degrees(arcs, start, Initial(nodes, start))
  {
    forall x | x in start ensures start[x] == start[x] - |Needs(arcs, x) * Elements([])| {
      assert Needs(arcs, x) * Elements([]) == {};
    }
  }

  lemma InitialCounting(arcs: Arcs, nodes: seq<Name>, start: map<Name, int>)
    requires Startable(arcs, nodes, start) && Distinct(nodes)
    ensures Counting(arcs, start, Initial(nodes, start))
  {
    FreedDistinct(nodes, start);
    InitialZeroes(arcs, nodes, start);
    InitialDegrees(arcs, nodes, start);
  }

  /** A node counted down to zero has every need already in the output. */
  lemma ZeroMeansServed(arcs: Arcs, start: map<Name, int>, s: Sort, x: Name)
    requires Counting(arcs, start, s) && x in start && s.degree[x] == 0
    ensures Needs(arcs, x) <= Elements(s.ordered)
    ensures start[x] == |Needs(arcs, x)|
  {
    SubsetSize(Needs(arcs, x) * Elements(s.ordered), Needs(arcs, x));
  }

  lemma ServedGrows(arcs: Arcs, ordered: seq<Name>, node: Name, x: Name)
    requires node !in ordered
    ensures |Needs(arcs, x) * Elements(ordered + [node])|
         == |Needs(arcs, x) * Elements(ordered)| + (if (x, node) in arcs then 1 else 0)
  {
    var before := Needs(arcs, x) * Elements(ordered);
    var after := Needs(arcs, x) * Elements(ordered + [node]);
    if (x, node) in arcs {
      assert after == before + {node};
    } else {
      assert after == before;
    }
  }

  lemma TurnSupported(arcs: Arcs, start: map<Name, int>, s: Sort)
    requires Counting(arcs, start, s) && s.queue != []
    ensures Supported(arcs, s.ordered + [s.queue[0]])
  {
    var node := s.queue[0];
    var ordered := s.ordered + [node];
    ZeroMeansServed(arcs, start, s, node);
    forall i, y | 0 <= i < |ordered| && (ordered[i], y) in arcs ensures Before(ordered, y, i) {
      if i < |s.ordered| {
        var j :| 0 <= j < i && s.ordered[j] == y;
        assert ordered[j] == y;
      } else {
        assert y in Needs(arcs, node);
        var j :| 0 <= j < |s.ordered| && s.ordered[j] == y;
        assert ordered[j] == y;
      }
    }
  }

  /** A node waiting in the queue or already emitted is nobody's unserved dependant. */
  lemma ZeroesAreNoDependants(arcs: Arcs, start: map<Name, int>, s: Sort, x: Name)
    requires Counting(arcs, start, s) && s.queue != []
    requires x in start && s.degree[x] == 0
    ensures (x, s.queue[0]) !in arcs
  {
    ZeroMeansServed(arcs, start, s, x);
    assert s.queue[0] in s.queue;
    assert s.queue[0] !in Elements(s.ordered);
  }

  lemma TurnDegrees(arcs: Arcs, start: map<Name, int>, s: Sort)
    requires Counting(arcs, start, s) && s.queue != []
    ensures Degrees(arcs, start, Turn(arcs, s))
  {
    assert s.queue[0] in s.queue;
    var t := Turn(arcs, s);
    forall x | x in start ensures t.degree[x] == start[x] - |Needs(arcs, x) * Elements(t.ordered)| {
      ServedGrows(arcs, s.ordered, s.queue[0], x);
    }
  }

  lemma FreedAreNew(arcs: Arcs, start: map<Name, int>, s: Sort, x: Name)
    requires Counting(arcs, start, s) && s.queue != []
    requires x in s.ordered || x in s.queue
    ensures x !in Freed(Sorted(NeededBy(arcs, s.queue[0])), Turn(arcs, s).degree)
  {
    ZeroesAreNoDependants(arcs, start, s, x);
    FreedMember(Sorted(NeededBy(arcs, s.queue[0])), Turn(arcs, s).degree, x);
  }

  lemma TurnTidy(arcs: Arcs, start: map<Name, int>, s: Sort)
    requires Counting(arcs, start, s) && s.queue != []
    ensures Tidy(Turn(arcs, s))
  {
    var node, rest := s.queue[0], s.queue[1..];
    var degree := Turn(arcs, s).degree;
    var children := Sorted(NeededBy(arcs, node));
    forall x | x in s.ordered || x in s.queue ensures x !in Freed(children, degree) {
      FreedAreNew(arcs, start, s, x);
    }
    FreedDistinct(children, degree);
    DistinctAppend(rest, Freed(children, degree));
    DistinctAppend(s.ordered, [node]);
  }

  lemma TurnZeroes(arcs: Arcs, start: map<Name, int>, s: Sort)
    requires Counting(arcs, start, s) && s.queue != []
    ensures Zeroes(start, Turn(arcs, s))
  {
    var node, rest := s.queue[0], s.queue[1..];
    var t := Turn(arcs, s);
    var children := Sorted(NeededBy(arcs, node));
    assert s.queue == [node] + rest;
    forall x ensures x in t.ordered || x in t.queue <==> x in start && x in t.degree && t.degree[x] == 0 {
      FreedMember(children, t.degree, x);
      if x in start && s.degree[x] == 0 {
        ZeroesAreNoDependants(arcs, start, s, x);
      }
    }
  }

  lemma TurnCounting(arcs: Arcs, start: map<Name, int>, s: Sort)
    requires Counting(arcs, start, s) && s.queue != []
    ensures Counting(arcs, start, Turn(arcs, s))
  {
    TurnTidy(arcs, start, s);
    TurnZeroes(arcs, start, s);
    TurnDegrees(arcs, start, s);
    TurnSupported(arcs, start, s);
  }

  /** The output of the loop started in `s`. */
  ghost function Drain(arcs: Arcs, start: map<Name, int>, s: Sort): (r: seq<Name>)
    requires Counting(arcs, start, s)
    decreases |start| - |s.ordered|
  {
    if s.queue == [] then s.ordered
    else
      TurnCounting(arcs, start, s);
      Bounded(arcs, start, s);
      Drain(arcs, start, Turn(arcs, s))
  }

  lemma Bounded(arcs: Arcs, start: map<Name, int>, s: Sort)
    requires Counting(arcs, start, s)
    ensures |s.ordered| + |s.queue| <= |start|
  {
    DistinctAppend(s.ordered, s.queue);
    DistinctSize(s.ordered + s.queue);
    SubsetSize(Elements(s.ordered + s.queue), start.Keys);
    assert |start.Keys| == |start|;
  }

  lemma {:induction false} DrainCounting(arcs: Arcs, start: map<Name, int>, s: Sort) returns (degree: map<Name, int>)
    requires Counting(arcs, start, s)
    ensures Counting(arcs, start, Sort([], degree, Drain(arcs, start, s)))
    decreases |start| - |s.ordered|
  {
    if s.queue == [] {
      degree := s.degree;
    } else {
      TurnCounting(arcs, start, s);
      Bounded(arcs, start, s);
      degree := DrainCounting(arcs, start, Turn(arcs, s));
    }
  }

  /** Every output, complete or not, is duplicate-free, in dependency order, and drawn from the
      nodes. */
  lemma DrainOrder(arcs: Arcs, start: map<Name, int>, s: Sort)
    requires Counting(arcs, start, s)
    ensures Distinct(Drain(arcs, start, s)) && Supported(arcs, Drain(arcs, start, s))
    ensures Elements(Drain(arcs, start, s)) <= start.Keys
  {
    var degree := DrainCounting(arcs, start, s);
  }

  /** The sort emits every node exactly when no indegree was inflated, every need is a node,
      and the needs are acyclic. */
  lemma DrainCompleteIff(arcs: Arcs, start: map<Name, int>, s: Sort)
    requires Counting(arcs, start, s)
    ensures |Drain(arcs, start, s)| == |start| <==>
              && (forall x | x in start :: start[x] == |Needs(arcs, x)|)
              && (forall arc | arc in arcs :: arc.1 in start)
              && Acyclic(arcs)
  {
    var degree := DrainCounting(arcs, start, s);
    var r := Drain(arcs, start, s);
    var done := Sort([], degree, r);
    DistinctSize(r);
    SubsetSize(Elements(r), start.Keys);
    assert |start.Keys| == |start|;
    if |r| == |start| {
      forall x | x in start ensures start[x] == |Needs(arcs, x)| && Needs(arcs, x) <= start.Keys {
        ZeroMeansServed(arcs, start, done, x);
      }
      forall arc | arc in arcs ensures arc.1 in start {
        assert arc.1 in Needs(arcs, arc.0);
      }
      SupportedAcyclic(arcs, r);
    } else if && (forall x | x in start :: start[x] == |Needs(arcs, x)|)
              && (forall arc | arc in arcs :: arc.1 in start) {
      StuckCycle(arcs, start, done);
    }
  }

  lemma StuckCycle(arcs: Arcs, start: map<Name, int>, done: Sort)
    requires Counting(arcs, start, done) && done.queue == []
    requires forall x | x in start :: start[x] == |Needs(arcs, x)|
    requires forall arc | arc in arcs :: arc.1 in start
    requires Elements(done.ordered) != start.Keys
    ensures !Acyclic(arcs)
  {
    var stuck := start.Keys - Elements(done.ordered);
    forall x | x in stuck ensures Needs(arcs, x) * stuck != {} {
      var served := Needs(arcs, x) * Elements(done.ordered);
      assert done.degree[x] != 0;
      assert served == Needs(arcs, x) || !(Needs(arcs, x) <= Elements(done.ordered));
      var y :| y in Needs(arcs, x) && y !in Elements(done.ordered);
      assert (x, y) in arcs;
      assert y in Needs(arcs, x) * stuck;
    }
    NoSinkCycle(arcs, stuck);
  }

  lemma TurnShape(arcs: Arcs, start: map<Name, int>, s: Sort)
    requires Counting(arcs, start, s) && s.queue != []
    ensures var t, children := Turn(arcs, s), Sorted(NeededBy(arcs, s.queue[0]));
            && t.ordered == s.ordered + [s.queue[0]] && t.queue == s.queue[1..] + Freed(children, t.degree)
            && t.degree == (map x | x in s.degree :: if x in children then s.degree[x] - 1 else s.degree[x])
            && forall x | x in children :: x in s.degree
  {
    hide Supported, Tidy, Zeroes, Freed, Ascending;
    forall x | x in Sorted(NeededBy(arcs, s.queue[0])) ensures x in s.degree {
      assert (x, s.queue[0]) in arcs;
    }
  }

  lemma DrainAdvances(arcs: Arcs, start: map<Name, int>, s: Sort)
    requires Counting(arcs, start, s) && s.queue != []
    ensures |s.ordered| < |start|
    ensures Counting(arcs, start, Turn(arcs, s))
    ensures Drain(arcs, start, Turn(arcs, s)) == Drain(arcs, start, s)
  {
    TurnCounting(arcs, start, s);
    Bounded(arcs, start, s);
  }

  /** The inner loop: one pass over the sorted dependants of the popped node. */
  method CountDown(children: seq<Name>, degree0: map<Name, int>, queue0: seq<Name>, ghost after: map<Name, int>)
    returns (degree: map<Name, int>, queue: seq<Name>)
    requires Ascending(children)
    requires forall x | x in children :: x in degree0
    requires after == map x | x in degree0 :: if x in children then degree0[x] - 1 else degree0[x]
    ensures degree == after
    ensures queue == queue0 + Freed(children, after)
  {
    degree, queue := degree0, queue0;
    var i := 0;
    while i < |children|
      invariant 0 <= i <= |children|
      invariant degree.Keys == degree0.Keys
      invariant forall k | 0 <= k < i :: degree[children[k]] == degree0[children[k]] - 1
      invariant forall x | x in degree0 && degree[x] != degree0[x] :: x in children
      invariant forall k | i <= k < |children| :: degree[children[k]] == degree0[children[k]]
      invariant queue == queue0 + Freed(children[..i], after)
    {
      var child := children[i];
      degree := degree[child := degree[child] - 1];
      assert children[..i + 1] == children[..i] + [child];
      FreedAppend(children[..i], [child], after);
      if degree[child] == 0 {
        queue := queue + [child];
      }
      i := i + 1;
    }
    assert children[..i] == children;
  }

  /** The loop itself, shared by both callers.  `arcs` is only the specification's name for the
      dependency relation; the code sees its inverse, the successor table. */
  method RunQueue(ghost arcs: Arcs, ghost nodes: seq<Name>, start: map<Name, int>, successors: map<Name, set<Name>>,
                  queued: seq<Name>)
    returns (ordered: seq<Name>)
    requires Startable(arcs, nodes, start) && Distinct(nodes)
    requires queued == Freed(nodes, start)
    requires forall y :: (if y in successors then successors[y] else {}) == NeededBy(arcs, y)
    ensures Counting(arcs, start, Initial(nodes, start))
    ensures ordered == Drain(arcs, start, Initial(nodes, start))
  {
    InitialCounting(arcs, nodes, start);
    var degree, queue := start, queued;
    ordered := [];
    ghost var s := Initial(nodes, start);
    while queue != []
      invariant s == Sort(queue, degree, ordered)
      invariant Counting(arcs, start, s)
      invariant Drain(arcs, start, s) == Drain(arcs, start, Initial(nodes, start))
      decreases |start| - |ordered|
    {
      TurnShape(arcs, start, s);
      DrainAdvances(arcs, start, s);
      s := Turn(arcs, s);
      var node := queue[0];
      ordered := ordered + [node];
      var children := Sorted(if node in successors then successors[node] else {});
      degree, queue := CountDown(children, degree, queue[1..], s.degree);
    }
  }

  lemma {:induction false} FreedAppend(a: seq<Name>, b: seq<Name>, degree: map<Name, int>)
    ensures Freed(a + b, degree) == Freed(a, degree) + Freed(b, degree)
  {
    if a == [] {
      assert a + b == b;
    } else {
      var ab := a + b;
      assert ab[0] == a[0] && ab[1..] == a[1..] + b;
      FreedAppend(a[1..], b, degree);
      var rest, whole := Freed(a[1..], degree), Freed(ab[1..], degree);
      assert whole == rest + Freed(b, degree);
      assert [a[0]] + whole == [a[0]] + rest + Freed(b, degree);
    }
  }

  // ---------------------------------------------------------------- which order, exactly

  /** One past the place in `order` of the last thing `x` needs; 0 if it needs nothing there. */
  function LastNeed(arcs: Arcs, order: seq<Name>, x: Name): nat {
    if order == [] then 0
    else if (x, order[|order| - 1]) in arcs then |order|
    else LastNeed(arcs, order[..|order| - 1], x)
  }

  /** `x` comes before `y`: its last need comes earlier; or the two have the same last need and `x` the
      smaller name; or neither needs anything and `x` is listed first. */
  ghost predicate GoesFirst(arcs: Arcs, nodes: seq<Name>, order: seq<Name>, x: Name, y: Name) {
    var a, b := LastNeed(arcs, order, x), LastNeed(arcs, order, y);
    a < b || (a == b && if a == 0 then Precedes(nodes, x, y) else Leq(x, y))
  }

  ghost predicate Settled(arcs: Arcs, nodes: seq<Name>, order: seq<Name>, list: seq<Name>) {
    forall i, j | 0 <= i < j < |list| :: GoesFirst(arcs, nodes, order, list[i], list[j])
  }

  lemma {:induction false} LastNeedBound(arcs: Arcs, order: seq<Name>, x: Name)
    ensures LastNeed(arcs, order, x) <= |order|
    ensures LastNeed(arcs, order, x) == 0 <==> forall i | 0 <= i < |order| :: (x, order[i]) !in arcs
  {
    if order != [] {
      LastNeedBound(arcs, order[..|order| - 1], x);
    }
  }

  lemma LastNeedPush(arcs: Arcs, order: seq<Name>, node: Name, x: Name)
    ensures LastNeed(arcs, order + [node], x) == if (x, node) in arcs then |order| + 1 else LastNeed(arcs, order, x)
  {
    assert (order + [node])[..|order|] == order;
  }

  lemma {:induction false} FreedAscending(children: seq<Name>, degree: map<Name, int>)
    requires Ascending(children)
    ensures Ascending(Freed(children, degree))
  {
    hide Leq;
    if children != [] {
      var rest, all := Freed(children[1..], degree), Freed(children, degree);
      FreedAscending(children[1..], degree);
      forall x | x in rest ensures children[0] != x && Leq(children[0], x) {
        FreedMember(children[1..], degree, x);
        var j :| 0 <= j < |children| - 1 && children[1..][j] == x;
        assert children[j + 1] == x;
      }
      AscendingCons(children[0], rest);
      assert all == rest || all == [children[0]] + rest;
    }
  }

  lemma AscendingCons(c: Name, rest: seq<Name>)
    requires Ascending(rest) && forall x | x in rest :: c != x && Leq(c, x)
    ensures Ascending([c] + rest)
  {
    hide Leq;
    forall j | 0 <= j < |rest| ensures c != rest[j] && Leq(c, rest[j]) {
      assert rest[j] in rest;
    }
  }

  lemma {:induction false} FreedPrecedes(nodes: seq<Name>, degree: map<Name, int>)
    ensures forall i, j | 0 <= i < j < |Freed(nodes, degree)| :: Precedes(nodes, Freed(nodes, degree)[i], Freed(nodes, degree)[j])
  {
    if nodes != [] {
      var rest, all := Freed(nodes[1..], degree), Freed(nodes, degree);
      FreedPrecedes(nodes[1..], degree);
      assert nodes == [nodes[0]] + nodes[1..];
      forall i, j | 0 <= i < j < |all| ensures Precedes(nodes, all[i], all[j]) {
        FreedMember(nodes[1..], degree, all[j]);
        PrecedesCons(nodes[0], nodes[1..], all[i], all[j]);
      }
    }
  }

  lemma PrecedesCons(z: Name, order: seq<Name>, x: Name, y: Name)
    ensures Precedes(order, x, y) ==> Precedes([z] + order, x, y)
    ensures x == z && y in order ==> Precedes([z] + order, x, y)
  {
    var more := [z] + order;
    if Precedes(order, x, y) {
      var a, b :| 0 <= a < b < |order| && order[a] == x && order[b] == y;
      assert more[a + 1] == x && more[b + 1] == y;
    }
    if x == z && y in order {
      var b :| 0 <= b < |order| && order[b] == y;
      assert more[0] == x && more[b + 1] == y;
    }
  }

  /** Everything emitted or queued stands in the order that is final for it. */
  lemma InitialSettled(arcs: Arcs, nodes: seq<Name>, start: map<Name, int>)
    ensures Settled(arcs, nodes, [], Initial(nodes, start).ordered + Initial(nodes, start).queue)
  {
    FreedPrecedes(nodes, start);
  }

  /** A turn moves nothing that stands, and the nodes it frees all have the emitted node as their last
      need. */
  lemma TurnSettled(arcs: Arcs, nodes: seq<Name>, start: map<Name, int>, s: Sort)
    requires Counting(arcs, start, s) && s.queue != [] && Settled(arcs, nodes, s.ordered, s.ordered + s.queue)
    ensures Settled(arcs, nodes, Turn(arcs, s).ordered, Turn(arcs, s).ordered + Turn(arcs, s).queue)
  {
    hide Counting, Turn, Settled, Freed, Ascending;
    var node, t := s.queue[0], Turn(arcs, s);
    var freed := Freed(Sorted(NeededBy(arcs, node)), t.degree);
    TurnShape(arcs, start, s);
    FreedAscending(Sorted(NeededBy(arcs, node)), t.degree);
    forall i | 0 <= i < |s.ordered + s.queue| ensures ((s.ordered + s.queue)[i], node) !in arcs {
      StandingIsServed(arcs, start, s, i);
    }
    forall i | 0 <= i < |freed| ensures (freed[i], node) in arcs {
      FreedMember(Sorted(NeededBy(arcs, node)), t.degree, freed[i]);
    }
    SettledGrows(arcs, nodes, s.ordered, node, s.ordered + s.queue, freed);
    assert t.ordered + t.queue == s.ordered + s.queue + freed;
  }

  lemma SettledGrows(arcs: Arcs, nodes: seq<Name>, ordered: seq<Name>, node: Name, standing: seq<Name>, freed: seq<Name>)
    requires Settled(arcs, nodes, ordered, standing) && Ascending(freed)
    requires forall i | 0 <= i < |standing| :: (standing[i], node) !in arcs
    requires forall i | 0 <= i < |freed| :: (freed[i], node) in arcs
    ensures Settled(arcs, nodes, ordered + [node], standing + freed)
  {
    hide LastNeed, Leq, Precedes;
    var all := standing + freed;
    forall i, j | 0 <= i < j < |all| ensures GoesFirst(arcs, nodes, ordered + [node], all[i], all[j]) {
      LastNeedPush(arcs, ordered, node, all[i]);
      LastNeedPush(arcs, ordered, node, all[j]);
      LastNeedBound(arcs, ordered, all[i]);
      if j < |standing| {
        assert GoesFirst(arcs, nodes, ordered, standing[i], standing[j]);
      }
    }
  }

  lemma StandingIsServed(arcs: Arcs, start: map<Name, int>, s: Sort, i: nat)
    requires Counting(arcs, start, s) && s.queue != [] && i < |s.ordered + s.queue|
    ensures ((s.ordered + s.queue)[i], s.queue[0]) !in arcs
  {
    var x := (s.ordered + s.queue)[i];
    assert x in s.ordered || x in s.queue;
    ZeroesAreNoDependants(arcs, start, s, x);
  }

  lemma {:induction false} DrainSettled(arcs: Arcs, nodes: seq<Name>, start: map<Name, int>, s: Sort)
    requires Counting(arcs, start, s) && Settled(arcs, nodes, s.ordered, s.ordered + s.queue)
    ensures Settled(arcs, nodes, Drain(arcs, start, s), Drain(arcs, start, s))
    decreases |start| - |s.ordered|
  {
    hide Settled, Counting, Turn;
    if s.queue == [] {
      assert s.ordered + s.queue == s.ordered;
    } else {
      DrainAdvances(arcs, start, s);
      TurnSettled(arcs, nodes, start, s);
      TurnShape(arcs, start, s);
      DrainSettled(arcs, nodes, start, Turn(arcs, s));
    }
  }

  /** What is emitted stands by last need, then by name; what needs nothing stands first, as listed. */
  lemma DrainTies(arcs: Arcs, nodes: seq<Name>, start: map<Name, int>)
    requires Startable(arcs, nodes, start) && Distinct(nodes)
    ensures Counting(arcs, start, Initial(nodes, start))
    ensures var r := Drain(arcs, start, Initial(nodes, start)); Settled(arcs, nodes, r, r)
  {
    hide Settled, Counting, Drain;
    InitialCounting(arcs, nodes, start);
    InitialSettled(arcs, nodes, start);
    DrainSettled(arcs, nodes, start, Initial(nodes, start));
  }

  /** Needs that all stand among the first `k` are found there. */
  lemma {:induction false} LastNeedWithin(arcs: Arcs, order: seq<Name>, k: nat, x: Name)
    requires k <= |order| && forall i | k <= i < |order| :: (x, order[i]) !in arcs
    ensures LastNeed(arcs, order, x) == LastNeed(arcs, order[..k], x)
    decreases |order|
  {
    if k < |order| {
      LastNeedWithin(arcs, order[..|order| - 1], k, x);
      assert order[..|order| - 1][..k] == order[..k];
    } else {
      assert order[..k] == order;
    }
  }

  /** In a supported order nothing that stands at `k` or later needs itself or anything after it; so a
      node whose needs are all among the first `k` has its last need there. */
  lemma NeedsStand(arcs: Arcs, r: seq<Name>, q: seq<Name>, k: nat, x: Name)
    requires Distinct(r) && Supported(arcs, q) && k < |q| && k <= |r| && r[..k] == q[..k] && q[k] == x
    ensures LastNeed(arcs, r, x) == LastNeed(arcs, r[..k], x)
  {
    forall i | k <= i < |r| ensures (x, r[i]) !in arcs {
      NeededBefore(arcs, r, q, k, r[i]);
    }
    LastNeedWithin(arcs, r, k, x);
  }

  lemma NeededBefore(arcs: Arcs, r: seq<Name>, q: seq<Name>, k: nat, y: Name)
    requires Supported(arcs, q) && k < |q| && k <= |r| && r[..k] == q[..k]
    ensures (q[k], y) in arcs ==> exists j :: 0 <= j < k && r[j] == y
  {
    if (q[k], y) in arcs {
      assert Before(q, y, k);
      var j :| 0 <= j < k && q[j] == y;
      assert r[..k][j] == q[..k][j];
      assert r[j] == y;
    }
  }

  /** There is only one such order: any two supported orders of the same nodes that stand by last need,
      then by name, and by the list, are equal. */
  lemma {:induction false} OnlyOneOrder(arcs: Arcs, nodes: seq<Name>, r: seq<Name>, q: seq<Name>, k: nat)
    requires Distinct(nodes) && Distinct(r) && Distinct(q) && Elements(r) == Elements(q) && k <= |r|
    requires Supported(arcs, r) && Supported(arcs, q) && Settled(arcs, nodes, r, r) && Settled(arcs, nodes, q, q)
    ensures |r| == |q| && r[..k] == q[..k]
    decreases k
  {
    DistinctSize(r);
    DistinctSize(q);
    if k > 0 {
      OnlyOneOrder(arcs, nodes, r, q, k - 1);
      var n := k - 1;
      SameNext(arcs, nodes, r, q, n);
      assert r[..k] == r[..n] + [r[n]] && q[..k] == q[..n] + [q[n]];
    }
  }

  lemma SameNext(arcs: Arcs, nodes: seq<Name>, r: seq<Name>, q: seq<Name>, n: nat)
    requires Distinct(nodes) && Distinct(r) && Distinct(q) && Elements(r) == Elements(q) && |r| == |q| && n < |r| && r[..n] == q[..n]
    requires Supported(arcs, r) && Supported(arcs, q) && Settled(arcs, nodes, r, r) && Settled(arcs, nodes, q, q)
    ensures r[n] == q[n]
  {
    hide Supported, Leq, GoesFirst;
    var x, y := r[n], q[n];
    assert x in Elements(q) && y in Elements(r);
    var i :| 0 <= i < |q| && q[i] == x;
    var j :| 0 <= j < |r| && r[j] == y;
    assert i >= n by { Elsewhere(r, q, n, i); }
    assert j >= n by { Elsewhere(q, r, n, j); }
    if x != y {
      NeedsStand(arcs, r, r, n, x);
      NeedsStand(arcs, q, r, n, x);
      NeedsStand(arcs, r, q, n, y);
      NeedsStand(arcs, q, q, n, y);
      assert GoesFirst(arcs, nodes, r, x, y) && GoesFirst(arcs, nodes, q, y, x);
      NotBothFirst(arcs, nodes, r, q, x, y);
    }
  }

  lemma Elsewhere(r: seq<Name>, q: seq<Name>, n: nat, i: nat)
    requires n < |r| && n <= |q| && r[..n] == q[..n] && Distinct(r) && i < |q| && q[i] == r[n]
    ensures i >= n
  {
    assert forall t | 0 <= t < n :: r[..n][t] == r[t] && q[..n][t] == q[t];
  }

  lemma NotBothFirst(arcs: Arcs, nodes: seq<Name>, r: seq<Name>, q: seq<Name>, x: Name, y: Name)
    requires Distinct(nodes) && GoesFirst(arcs, nodes, r, x, y) && GoesFirst(arcs, nodes, q, y, x)
    requires LastNeed(arcs, r, x) == LastNeed(arcs, q, x) && LastNeed(arcs, r, y) == LastNeed(arcs, q, y)
    ensures x == y
  {
    hide Leq;
    if LastNeed(arcs, r, x) > 0 {
      LeqAntisymmetric(x, y);
    }
  }

  lemma LeqAntisymmetric(x: Name, y: Name)
    ensures Leq(x, y) && Leq(y, x) ==> x == y
  {
    if Leq(x, y) && Leq(y, x) {
      TextLeqAntisymmetric(x.text, y.text);
    }
  }
}
