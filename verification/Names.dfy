/** Identifiers.  Task ids, task keys, edge ids and so on are all strings in the program, and
    `task()` looks one string up first as a key and then as an id, so they share one type.  The
    code sorts them by code point, which `Sorted` reproduces. */
module Names {
  datatype Name = Name(text: string)

  /** Code-point order on strings, the order `sorted` uses. */
  predicate TextLeq(a: string, b: string)
    decreases |a|
  {
    a == [] || (b != [] && (a[0] < b[0] || (a[0] == b[0] && TextLeq(a[1..], b[1..]))))
  }

  predicate Leq(a: Name, b: Name) {
    TextLeq(a.text, b.text)
  }

  lemma {:induction false} TextLeqTotal(a: string, b: string)
    ensures TextLeq(a, b) || TextLeq(b, a)
    decreases |a|
  {
    if a != [] && b != [] && a[0] == b[0] {
      TextLeqTotal(a[1..], b[1..]);
    }
  }

  lemma {:induction false} TextLeqAntisymmetric(a: string, b: string)
    requires TextLeq(a, b) && TextLeq(b, a)
    ensures a == b
    decreases |a|
  {
    if a != [] {
      TextLeqAntisymmetric(a[1..], b[1..]);
      assert a == [a[0]] + a[1..] && b == [b[0]] + b[1..];
    }
  }

  lemma {:induction false} TextLeqTransitive(a: string, b: string, c: string)
    requires TextLeq(a, b) && TextLeq(b, c)
    ensures TextLeq(a, c)
    decreases |a|
  {
    if a != [] && a[0] == b[0] && b[0] == c[0] {
      TextLeqTransitive(a[1..], b[1..], c[1..]);
    }
  }

  lemma LeastExists(s: set<Name>)
    requires s != {}
    ensures exists m :: m in s && forall y | y in s :: Leq(m, y)
    decreases s
  {
    var x :| x in s;
    TextLeqTotal(x.text, x.text);
    var rest := s - {x};
    assert forall y | y in s :: y == x || y in rest;
    if rest == {} {
      assert x in s && forall y | y in s :: Leq(x, y);
    } else {
      LeastExists(rest);
      var l :| l in rest && forall y | y in rest :: Leq(l, y);
      TextLeqTotal(l.text, x.text);
      var m := if Leq(l, x) then l else x;
      forall y | y in s ensures Leq(m, y) {
        if y != x && m == x {
          TextLeqTransitive(x.text, l.text, y.text);
        }
      }
    }
  }

  function Least(s: set<Name>): (m: Name)
    requires s != {}
    ensures m in s && forall y | y in s :: Leq(m, y)
  {
    LeastExists(s);
    assert forall a, b | a in s && b in s && Leq(a, b) && Leq(b, a) :: a == b by {
      forall a, b | a in s && b in s && Leq(a, b) && Leq(b, a) ensures a == b {
        TextLeqAntisymmetric(a.text, b.text);
      }
    }
    var m :| m in s && forall y | y in s :: Leq(m, y);
    m
  }

  predicate Ascending(r: seq<Name>) {
    forall i, j | 0 <= i < j < |r| :: r[i] != r[j] && Leq(r[i], r[j])
  }

  /** The list `sorted(s)`. */
  function Sorted(s: set<Name>): (r: seq<Name>)
    ensures forall x :: x in r <==> x in s
    ensures Ascending(r)
  {
    if s == {} then []
    else
      var m := Least(s);
      var rest := Sorted(s - {m});
      [m] + rest
  }
}
