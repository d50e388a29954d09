/** Database tables as rows in insertion (rowid) order, and the two statements the store uses:
    insert-or-update on the id, which keeps the place of an existing row, and delete by run; with
    what they do to the rows of one run and to those of every other run. */
module Tables {
  import opened Names
  import opened Sequences

  datatype Row<T> = Row(id: Name, run: Name, revision: int, value: T)

  ghost function RowIds<T>(rows: seq<Row<T>>): (r: seq<Name>)
    ensures |r| == |rows|
  {
    seq(|rows|, i requires 0 <= i < |rows| => rows[i].id)
  }

  /** `INSERT ... ON CONFLICT(id) DO UPDATE`: an existing row keeps its rowid. */
  function Upsert<T>(rows: seq<Row<T>>, r: Row<T>): seq<Row<T>> {
    if rows == [] then [r]
    else if rows[0].id == r.id then [r] + rows[1..]
    else [rows[0]] + Upsert(rows[1..], r)
  }

  /** `DELETE ... WHERE workflow_run_id = run` */
  function DeleteRun<T>(rows: seq<Row<T>>, run: Name): seq<Row<T>> {
    if rows == [] then []
    else if rows[0].run == run then DeleteRun(rows[1..], run)
    else [rows[0]] + DeleteRun(rows[1..], run)
  }

  /** `SELECT ... WHERE workflow_run_id = run ORDER BY rowid` */
  function OfRun<T>(rows: seq<Row<T>>, run: Name): seq<Row<T>> {
    if rows == [] then []
    else if rows[0].run == run then [rows[0]] + OfRun(rows[1..], run)
    else OfRun(rows[1..], run)
  }

  /** The values among `rows` with the given revision. */
  function AtRevision<T>(rows: seq<Row<T>>, revision: int): seq<T> {
    if rows == [] then []
    else if rows[0].revision == revision then [rows[0].value] + AtRevision(rows[1..], revision)
    else AtRevision(rows[1..], revision)
  }

  // ---------------------------------------------------------------- facts

  lemma {:induction false} DeleteRunGone<T>(rows: seq<Row<T>>, run: Name)
    ensures OfRun(DeleteRun(rows, run), run) == []
  {
    if rows != [] {
      DeleteRunGone(rows[1..], run);
    }
  }

  lemma {:induction false} DeleteRunOthers<T>(rows: seq<Row<T>>, run: Name, other: Name)
    requires other != run
    ensures OfRun(DeleteRun(rows, run), other) == OfRun(rows, other)
  {
    if rows != [] {
      DeleteRunOthers(rows[1..], run, other);
    }
  }

  lemma {:induction false} DeleteRunIds<T>(rows: seq<Row<T>>, run: Name, id: Name)
    ensures id in RowIds(DeleteRun(rows, run)) ==> exists i :: 0 <= i < |rows| && rows[i].id == id && rows[i].run != run
  {
    if rows != [] {
      DeleteRunIds(rows[1..], run, id);
      if rows[0].run != run {
        assert RowIds(DeleteRun(rows, run)) == [rows[0].id] + RowIds(DeleteRun(rows[1..], run));
      }
    }
  }

  /** The row with this id, if there is one, belongs to this run. */
  ghost predicate Mine<T>(rows: seq<Row<T>>, id: Name, run: Name) {
    forall i | 0 <= i < |rows| && rows[i].id == id :: rows[i].run == run
  }

  lemma {:induction false} UpsertOthers<T>(rows: seq<Row<T>>, r: Row<T>, other: Name)
    requires Mine(rows, r.id, r.run) && other != r.run
    ensures OfRun(Upsert(rows, r), other) == OfRun(rows, other)
  {
    if rows != [] && rows[0].id != r.id {
      UpsertOthers(rows[1..], r, other);
    }
  }

  /** Within its run an upsert is an upsert of that run's rows. */
  lemma {:induction false} UpsertOfRun<T>(rows: seq<Row<T>>, r: Row<T>)
    requires Mine(rows, r.id, r.run)
    ensures OfRun(Upsert(rows, r), r.run) == Upsert(OfRun(rows, r.run), r)
  {
    if rows != [] && rows[0].id != r.id {
      UpsertOfRun(rows[1..], r);
    }
  }

  lemma {:induction false} UpsertRows<T>(rows: seq<Row<T>>, r: Row<T>, i: nat)
    requires i < |Upsert(rows, r)|
    ensures Upsert(rows, r)[i] == r || (i < |rows| && Upsert(rows, r)[i] == rows[i])
  {
    if rows != [] && rows[0].id != r.id && i > 0 {
      UpsertRows(rows[1..], r, i - 1);
    }
  }

  lemma UpsertMine<T>(rows: seq<Row<T>>, r: Row<T>, id: Name, run: Name)
    requires Mine(rows, id, run) && (r.id == id ==> r.run == run)
    ensures Mine(Upsert(rows, r), id, run)
  {
    forall i | 0 <= i < |Upsert(rows, r)| && Upsert(rows, r)[i].id == id ensures Upsert(rows, r)[i].run == run {
      UpsertRows(rows, r, i);
    }
  }

  lemma {:induction false} UpsertAppends<T>(rows: seq<Row<T>>, r: Row<T>)
    requires forall i | 0 <= i < |rows| :: rows[i].id != r.id
    ensures Upsert(rows, r) == rows + [r]
  {
    if rows != [] {
      UpsertAppends(rows[1..], r);
    }
  }

  lemma {:induction false} UpsertReplaces<T>(rows: seq<Row<T>>, r: Row<T>, k: nat)
    requires k < |rows| && rows[k].id == r.id && forall i | 0 <= i < k :: rows[i].id != r.id
    ensures Upsert(rows, r) == rows[k := r]
  {
    if k > 0 {
      UpsertReplaces(rows[1..], r, k - 1);
    }
  }

  ghost function Values<T>(rows: seq<Row<T>>): (r: seq<T>)
    ensures |r| == |rows|
  {
    seq(|rows|, i requires 0 <= i < |rows| => rows[i].value)
  }

  lemma {:induction false} AllAtRevision<T>(rows: seq<Row<T>>, revision: int)
    requires forall i | 0 <= i < |rows| :: rows[i].revision == revision
    ensures AtRevision(rows, revision) == Values(rows)
  {
    if rows != [] {
      AllAtRevision(rows[1..], revision);
      assert Values(rows) == [rows[0].value] + Values(rows[1..]);
    }
  }

  // ---------------------------------------------------------------- saving a list of rows

  function UpsertAll<T>(rows: seq<Row<T>>, items: seq<Row<T>>): seq<Row<T>> {
    if items == [] then rows
    else Upsert(UpsertAll(rows, items[..|items| - 1]), items[|items| - 1])
  }

  ghost predicate AllOf<T>(items: seq<Row<T>>, run: Name) {
    forall i | 0 <= i < |items| :: items[i].run == run
  }

  ghost predicate AllMine<T>(rows: seq<Row<T>>, items: seq<Row<T>>, run: Name) {
    AllOf(items, run) && forall i | 0 <= i < |items| :: Mine(rows, items[i].id, run)
  }

  lemma {:induction false} UpsertAllMine<T>(rows: seq<Row<T>>, items: seq<Row<T>>, id: Name, run: Name)
    requires Mine(rows, id, run) && AllOf(items, run)
    ensures Mine(UpsertAll(rows, items), id, run)
  {
    if items != [] {
      UpsertAllMine(rows, items[..|items| - 1], id, run);
      UpsertMine(UpsertAll(rows, items[..|items| - 1]), items[|items| - 1], id, run);
    }
  }

  /** Saving rows of one run leaves the rows of every other run as they were. */
  lemma {:induction false} UpsertAllOthers<T>(rows: seq<Row<T>>, items: seq<Row<T>>, run: Name, other: Name)
    requires AllMine(rows, items, run) && other != run
    ensures OfRun(UpsertAll(rows, items), other) == OfRun(rows, other)
  {
    if items != [] {
      var n := |items| - 1;
      UpsertAllOthers(rows, items[..n], run, other);
      UpsertAllMine(rows, items[..n], items[n].id, run);
      UpsertOthers(UpsertAll(rows, items[..n]), items[n], other);
    }
  }

  lemma {:induction false} UpsertAllOfRun<T>(rows: seq<Row<T>>, items: seq<Row<T>>, run: Name)
    requires AllMine(rows, items, run)
    ensures OfRun(UpsertAll(rows, items), run) == UpsertAll(OfRun(rows, run), items)
  {
    if items != [] {
      var n := |items| - 1;
      UpsertAllOfRun(rows, items[..n], run);
      UpsertAllMine(rows, items[..n], items[n].id, run);
      UpsertOfRun(UpsertAll(rows, items[..n]), items[n]);
    }
  }

  /** Into an empty run: exactly the items, in order. */
  lemma {:induction false} UpsertAllFresh<T>(items: seq<Row<T>>)
    requires Distinct(RowIds(items))
    ensures UpsertAll([], items) == items
  {
    if items != [] {
      var n := |items| - 1;
      assert RowIds(items[..n]) == RowIds(items)[..n];
      UpsertAllFresh(items[..n]);
      forall i | 0 <= i < n ensures items[..n][i].id != items[n].id {
        assert RowIds(items)[i] != RowIds(items)[n];
      }
      UpsertAppends(items[..n], items[n]);
      assert items[..n] + [items[n]] == items;
    }
  }

  /** Any order of saves stores every item, provided ids are not repeated. */
  lemma {:induction false} UpsertAllHas<T>(rows: seq<Row<T>>, items: seq<Row<T>>, k: nat)
    requires Distinct(RowIds(items)) && k < |items|
    ensures items[k] in UpsertAll(rows, items)
  {
    var n := |items| - 1;
    assert RowIds(items[..n]) == RowIds(items)[..n];
    if k < n {
      UpsertAllHas(rows, items[..n], k);
      assert RowIds(items)[k] != RowIds(items)[n];
      UpsertKeeps(UpsertAll(rows, items[..n]), items[n], items[k]);
    } else {
      UpsertHas(UpsertAll(rows, items[..n]), items[n]);
    }
  }

  lemma {:induction false} UpsertHas<T>(rows: seq<Row<T>>, r: Row<T>)
    ensures r in Upsert(rows, r)
  {
    if rows != [] && rows[0].id != r.id {
      UpsertHas(rows[1..], r);
    }
  }

  lemma {:induction false} UpsertKeeps<T>(rows: seq<Row<T>>, r: Row<T>, old_: Row<T>)
    requires old_ in rows && old_.id != r.id
    ensures old_ in Upsert(rows, r)
  {
    if rows[0].id == r.id {
      assert rows == [rows[0]] + rows[1..];
    } else if rows[0] != old_ {
      assert rows == [rows[0]] + rows[1..];
      UpsertKeeps(rows[1..], r, old_);
    }
  }

  lemma {:induction false} UpsertDistinct<T>(rows: seq<Row<T>>, r: Row<T>)
    requires Distinct(RowIds(rows))
    ensures Distinct(RowIds(Upsert(rows, r)))
    ensures Elements(RowIds(Upsert(rows, r))) == Elements(RowIds(rows)) + {r.id}
  {
    if rows == [] {
      assert RowIds([r]) == [r.id];
    } else {
      var rest := rows[1..];
      assert RowIds(rows) == [rows[0].id] + RowIds(rest);
      assert RowIds(rest) == RowIds(rows)[1..];
      if rows[0].id == r.id {
        assert RowIds(Upsert(rows, r)) == RowIds(rows);
        assert RowIds(rows)[0] in Elements(RowIds(rows));
      } else {
        UpsertDistinct(rest, r);
        assert RowIds(Upsert(rows, r)) == [rows[0].id] + RowIds(Upsert(rest, r));
        forall k | 0 <= k < |RowIds(rest)| ensures RowIds(rest)[k] != rows[0].id {
          assert RowIds(rows)[k + 1] != RowIds(rows)[0];
        }
        assert rows[0].id !in Elements(RowIds(Upsert(rest, r)));
        DistinctAppend([rows[0].id], RowIds(Upsert(rest, r)));
        ElementsAppend([rows[0].id], RowIds(rest));
        ElementsAppend([rows[0].id], RowIds(Upsert(rest, r)));
      }
    }
  }

  lemma {:induction false} UpsertAllDistinct<T>(rows: seq<Row<T>>, items: seq<Row<T>>)
    requires Distinct(RowIds(rows))
    ensures Distinct(RowIds(UpsertAll(rows, items)))
    ensures Elements(RowIds(UpsertAll(rows, items))) == Elements(RowIds(rows)) + Elements(RowIds(items))
  {
    if items != [] {
      var n := |items| - 1;
      UpsertAllDistinct(rows, items[..n]);
      UpsertDistinct(UpsertAll(rows, items[..n]), items[n]);
      assert RowIds(items) == RowIds(items[..n]) + [items[n].id];
    } else {
      assert Elements(RowIds(items)) == {};
    }
  }

  /** Saving every row of a set whose ids cover the run leaves exactly that set. */
  lemma UpsertAllExact<T(!new)>(rows: seq<Row<T>>, items: seq<Row<T>>)
    requires Distinct(RowIds(rows)) && Distinct(RowIds(items)) && Elements(RowIds(rows)) <= Elements(RowIds(items))
    ensures Distinct(RowIds(UpsertAll(rows, items)))
    ensures Elements(UpsertAll(rows, items)) == Elements(items)
  {
    UpsertAllDistinct(rows, items);
    var after := UpsertAll(rows, items);
    forall r | r in items ensures r in after {
      var k :| 0 <= k < |items| && items[k] == r;
      UpsertAllHas(rows, items, k);
    }
    forall r | r in after ensures r in items {
      var i :| 0 <= i < |after| && after[i] == r;
      assert RowIds(after)[i] == r.id;
      assert r.id in Elements(RowIds(after));
      var k :| 0 <= k < |items| && RowIds(items)[k] == r.id;
      assert items[k] in after;
      var j :| 0 <= j < |after| && after[j] == items[k];
      assert RowIds(after)[j] == RowIds(after)[i];
    }
  }

  /** Saving a run's rows in any order replaces each of them where it stands. */
  lemma {:induction false} UpsertAllReplaces<T>(rows: seq<Row<T>>, finals: seq<Row<T>>, items: seq<Row<T>>)
    requires Distinct(RowIds(rows)) && |finals| == |rows|
    requires forall k | 0 <= k < |rows| :: finals[k].id == rows[k].id
    requires forall i | 0 <= i < |items| :: items[i] in finals
    ensures |UpsertAll(rows, items)| == |rows|
    ensures forall k | 0 <= k < |rows| :: UpsertAll(rows, items)[k] == if finals[k] in items then finals[k] else rows[k]
  {
    if items != [] {
      var n := |items| - 1;
      UpsertAllReplaces(rows, finals, items[..n]);
      var mid := UpsertAll(rows, items[..n]);
      var at :| 0 <= at < |finals| && finals[at] == items[n];
      forall i | 0 <= i < at ensures mid[i].id != items[n].id {
        assert RowIds(rows)[i] != RowIds(rows)[at];
      }
      UpsertReplaces(mid, items[n], at);
      assert items == items[..n] + [items[n]];
      forall k | 0 <= k < |rows| && k != at ensures finals[k] != items[n] {
        assert RowIds(rows)[k] != RowIds(rows)[at];
      }
    }
  }

  lemma {:induction false} OfRunHas<T>(rows: seq<Row<T>>, run: Name, k: nat) returns (j: nat)
    requires k < |rows| && rows[k].run == run
    ensures j < |OfRun(rows, run)| && OfRun(rows, run)[j] == rows[k]
  {
    if k == 0 {
      j := 0;
    } else {
      var i := OfRunHas(rows[1..], run, k - 1);
      j := if rows[0].run == run then i + 1 else i;
    }
  }

  lemma {:induction false} OfRunFrom<T>(rows: seq<Row<T>>, run: Name, j: nat) returns (k: nat)
    requires j < |OfRun(rows, run)|
    ensures k < |rows| && rows[k] == OfRun(rows, run)[j] && rows[k].run == run
  {
    if rows[0].run == run && j == 0 {
      k := 0;
    } else {
      var i := OfRunFrom(rows[1..], run, if rows[0].run == run then j - 1 else j);
      k := i + 1;
    }
  }

  /** The rows are exactly the entries of a dictionary, in some order. */
  ghost predicate RowsMatch<T>(rows: seq<Row<T>>, m: map<Name, T>) {
    && Distinct(RowIds(rows)) && Elements(RowIds(rows)) == m.Keys
    && forall i | 0 <= i < |rows| :: rows[i].id in m && rows[i].value == m[rows[i].id]
  }

  /** Saving every entry of a dictionary over rows with only its keys leaves exactly its entries. */
  lemma UpsertAllMatch<T(!new)>(rows: seq<Row<T>>, items: seq<Row<T>>, m: map<Name, T>)
    requires Distinct(RowIds(rows)) && Elements(RowIds(rows)) <= m.Keys && RowsMatch(items, m)
    ensures RowsMatch(UpsertAll(rows, items), m)
  {
    UpsertAllExact(rows, items);
    UpsertAllDistinct(rows, items);
    var after := UpsertAll(rows, items);
    forall i | 0 <= i < |after| ensures after[i].id in m && after[i].value == m[after[i].id] {
      assert after[i] in Elements(items);
    }
  }
}
