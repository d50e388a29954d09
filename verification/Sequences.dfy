/** Facts about finite sequences that the graph and table proofs share: the set of a sequence's
    elements, sequences without repetition, and the pigeonhole principle that turns a walk longer
    than the number of nodes into a cycle. */
module Sequences {
  predicate Distinct<T(==,!new)>(s: seq<T>) {
    forall i, j | 0 <= i < j < |s| :: s[i] != s[j]
  }

  ghost function Elements<T(!new)>(s: seq<T>): set<T> {
    set x | x in s
  }

  lemma ElementsAppend<T(!new)>(a: seq<T>, b: seq<T>)
    ensures Elements(a + b) == Elements(a) + Elements(b)
  {
  }

  lemma ElementsPush<T(!new)>(a: seq<T>, x: T)
    ensures Elements(a + [x]) == Elements(a) + {x}
  {
  }

  lemma ElementsTake<T(!new)>(a: seq<T>, i: nat)
    requires i < |a|
    ensures Elements(a[..i + 1]) == Elements(a[..i]) + {a[i]}
  {
    assert a[..i + 1] == a[..i] + [a[i]];
  }

  lemma {:induction false} DistinctSize<T(!new)>(s: seq<T>)
    requires Distinct(s)
    ensures |Elements(s)| == |s|
  {
    if s == [] {
      assert Elements(s) == {};
    } else {
      var last := s[|s| - 1];
      var front := s[..|s| - 1];
      DistinctSize(front);
      assert last !in front;
      assert Elements(s) == Elements(front) + {last} by {
        assert s == front + [last];
      }
    }
  }

  lemma SubsetSize<T>(a: set<T>, b: set<T>)
    requires a <= b
    ensures |a| <= |b|
    ensures |a| == |b| ==> a == b
  {
    var rest := b - a;
    assert b == a + rest && a !! rest;
    assert |b| == |a| + |rest|;
    if |a| == |b| {
      assert rest == {};
    }
  }

  /** More positions than values: some value is repeated. */
  lemma {:induction false} Pigeonhole<T(!new)>(s: seq<T>, values: set<T>) returns (i: nat, j: nat)
    requires forall k | 0 <= k < |s| :: s[k] in values
    requires |s| > |values|
    ensures i < j < |s| && s[i] == s[j]
  {
    if Distinct(s) {
      DistinctSize(s);
      SubsetSize(Elements(s), values);
      assert false;
    }
    i, j :| 0 <= i < j < |s| && s[i] == s[j];
  }

  lemma {:induction false} DistinctAppend<T(!new)>(a: seq<T>, b: seq<T>)
    requires Distinct(a) && Distinct(b)
    requires forall x | x in a :: x !in b
    ensures Distinct(a + b)
  {
    forall i, j | 0 <= i < j < |a + b| ensures (a + b)[i] != (a + b)[j] {
      if i < |a| <= j {
        assert (a + b)[i] in a && (a + b)[j] in b;
      }
    }
  }

  predicate Precedes<T(==)>(order: seq<T>, x: T, y: T) {
    exists a, b :: 0 <= a < b < |order| && order[a] == x && order[b] == y
  }

  lemma PrecedesMore<T>(order: seq<T>, z: T, x: T, y: T)
    ensures Precedes(order, x, y) ==> Precedes(order + [z], x, y)
    ensures x in order && y == z ==> Precedes(order + [z], x, y)
  {
    var more := order + [z];
    if Precedes(order, x, y) {
      var a, b :| 0 <= a < b < |order| && order[a] == x && order[b] == y;
      assert more[a] == x && more[b] == y;
    }
    if x in order && y == z {
      var a :| 0 <= a < |order| && order[a] == x;
      assert more[a] == x && more[|order|] == y;
    }
  }
}
