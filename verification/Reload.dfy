/** Loading a run back from the durable store: replaying `record_attempt` over the stored attempts
    in attempt-number order (local_runtime.py, storage/durable.py). */
module Reload {
  import opened Names
  import opened Wrappers
  import opened Sequences
  import opened Digraph
  import opened Records
  import opened DependencyGraph
  import opened RunModel
  import opened RunInvariant
  import opened RunHistory
  import opened Tables
  import opened DurableStore
  import opened CanonicalSync

  // ---------------------------------------------------------------- ORDER BY attempt_number, rowid

  /** Insert behind every attempt with the same or a smaller number. */
  function Insert(sorted: seq<Attempt>, a: Attempt): seq<Attempt> {
    if sorted == [] || sorted[|sorted| - 1].number <= a.number then sorted + [a]
    else Insert(sorted[..|sorted| - 1], a) + [sorted[|sorted| - 1]]
  }

  function ByNumber(rows: seq<Row<Attempt>>): seq<Attempt> {
    if rows == [] then [] else Insert(ByNumber(rows[..|rows| - 1]), rows[|rows| - 1].value)
  }

  /** `list_attempts_for_run` */
  function ListAttempts(db: Store, run: Name): seq<Attempt> {
    ByNumber(OfRun(db.attempts, run))
  }

  ghost predicate Ordered(list: seq<Attempt>) {
    forall i, j | 0 <= i < j < |list| :: list[i].number <= list[j].number
  }

  lemma {:induction false} InsertOrdered(sorted: seq<Attempt>, a: Attempt)
    requires Ordered(sorted)
    ensures Ordered(Insert(sorted, a))
    ensures forall x :: x in Insert(sorted, a) <==> x == a || x in sorted
  {
    if sorted != [] && sorted[|sorted| - 1].number > a.number {
      var n := |sorted| - 1;
      InsertOrdered(sorted[..n], a);
      assert sorted == sorted[..n] + [sorted[n]];
      var front := Insert(sorted[..n], a);
      forall i | 0 <= i < |front| ensures front[i].number <= sorted[n].number {
        assert front[i] in front;
      }
    }
  }

  lemma {:induction false} ByNumberOrdered(rows: seq<Row<Attempt>>)
    ensures Ordered(ByNumber(rows))
    ensures forall x :: x in ByNumber(rows) <==> exists i :: 0 <= i < |rows| && rows[i].value == x
  {
    if rows != [] {
      var n := |rows| - 1;
      ByNumberOrdered(rows[..n]);
      InsertOrdered(ByNumber(rows[..n]), rows[n].value);
    }
  }

  /** The attempts with this number, in list order. */
  function Numbering(list: seq<Attempt>, number: int): seq<Attempt> {
    if list == [] then []
    else
      var last := list[|list| - 1];
      Numbering(list[..|list| - 1], number) + if last.number == number then [last] else []
  }

  lemma {:induction false} NumberingAppend(list: seq<Attempt>, a: Attempt, number: int)
    ensures Numbering(list + [a], number) == Numbering(list, number) + if a.number == number then [a] else []
  {
    assert (list + [a])[..|list|] == list;
  }

  lemma {:induction false} InsertStable(list: seq<Attempt>, a: Attempt, number: int)
    ensures Numbering(Insert(list, a), number) == Numbering(list, number) + if a.number == number then [a] else []
  {
    hide Numbering;
    if list == [] || list[|list| - 1].number <= a.number {
      NumberingAppend(list, a, number);
    } else {
      var front, last := list[..|list| - 1], list[|list| - 1];
      InsertStable(front, a, number);
      assert list == front + [last];
      NumberingAppend(front, last, number);
      NumberingAppend(Insert(front, a), last, number);
    }
  }

  function Values(rows: seq<Row<Attempt>>): (r: seq<Attempt>)
    ensures |r| == |rows|
  {
    seq(|rows|, i requires 0 <= i < |rows| => rows[i].value)
  }

  lemma ValuesSplit(rows: seq<Row<Attempt>>)
    requires rows != []
    ensures Values(rows) == Values(rows[..|rows| - 1]) + [rows[|rows| - 1].value]
  {
  }

  /** Attempts of equal number stay in rowid order. */
  lemma {:induction false} ByNumberStable(rows: seq<Row<Attempt>>, number: int)
    ensures Numbering(ByNumber(rows), number) == Numbering(Values(rows), number)
  {
    hide Values, Insert;
    if rows != [] {
      var front, last := rows[..|rows| - 1], rows[|rows| - 1].value;
      ByNumberStable(front, number);
      InsertStable(ByNumber(front), last, number);
      ValuesSplit(rows);
      NumberingAppend(Values(front), last, number);
    }
  }

  // ---------------------------------------------------------------- replay

  function Replay(u: RunState, list: seq<Attempt>): RunState {
    if list == [] then u else RecordAttempt(Replay(u, list[..|list| - 1]), list[|list| - 1])
  }

  function AddRows<T>(m: map<Name, T>, rows: seq<Row<T>>): map<Name, T> {
    if rows == [] then m else AddRows(m, rows[..|rows| - 1])[rows[|rows| - 1].id := rows[|rows| - 1].value]
  }

  /** `load_workflow_run`, up to the recovery of stale attempts. */
  function Reloaded(db: Store, run: Name): Result<RunState> {
    var g := GetGraph(db, run);
    if g.Err? then Err(g.error)
    else
      var u := Replay(FromGraph(g.value), ListAttempts(db, run));
      Ok(u.(humanRequests := AddRows(map[], OfRun(db.humans, run)), approvalRequests := AddRows(map[], OfRun(db.approvals, run))))
  }

  /** Part of the way through the replay: the attempts seen so far are those the lists reach. */
  ghost predicate Underway(s: RunState, u: RunState) {
    && (forall x | x in u.attemptsById :: x in s.attemptsById && u.attemptsById[x] == s.attemptsById[x])
    && (forall t :: AttemptList(u, t) <= AttemptList(s, t))
    && (forall x | x in s.attemptsById :: x in u.attemptsById <==> s.attemptsById[x].number <= |AttemptList(u, s.attemptsById[x].taskId)|)
  }

  /** The attempt's place in its task's list. */
  lemma Place(s: RunState, a: Name)
    requires Inv(s) && a in s.attemptsById
    ensures var r := s.attemptsById[a];
            r.id == a && 1 <= r.number <= |AttemptList(s, r.taskId)| && AttemptList(s, r.taskId)[r.number - 1] == a
  {
    hide GraphOk, Indexed, Safe, OneActive, HumanOk, ApprovalsOk, StatusOk;
    assert Entry(s.tasksById.Keys, s.attemptsById, s.attemptsByTask, a);
  }

  lemma Occupant(s: RunState, t: Name, i: nat)
    requires Inv(s) && i < |AttemptList(s, t)|
    ensures var a := AttemptList(s, t)[i];
            a in s.attemptsById && s.attemptsById[a].taskId == t && s.attemptsById[a].number == i + 1
  {
    hide GraphOk, Indexed, Safe, OneActive, HumanOk, ApprovalsOk, StatusOk;
    assert Slot(s.attemptsById, t, i, s.attemptsByTask[t][i]);
  }

  ghost predicate Replayable(s: RunState, list: seq<Attempt>) {
    && Ordered(list)
    && (forall k | 0 <= k < |list| :: list[k].id in s.attemptsById && s.attemptsById[list[k].id] == list[k])
    && (forall x | x in s.attemptsById :: exists k :: 0 <= k < |list| && list[k].id == x)
  }

  /** Attempts with smaller numbers stand earlier in the list. */
  lemma EarlierSeen(s: RunState, u: RunState, list: seq<Attempt>, k: nat, i: nat)
    requires Inv(s) && Replayable(s, list) && k < |list|
    requires forall j | 0 <= j < k :: list[j].id in u.attemptsById
    requires i < list[k].number - 1 && i < |AttemptList(s, list[k].taskId)|
    ensures AttemptList(s, list[k].taskId)[i] in u.attemptsById
  {
    hide Inv;
    Occupant(s, list[k].taskId, i);
    var j :| 0 <= j < |list| && list[j].id == AttemptList(s, list[k].taskId)[i];
    assert list[j].number < list[k].number;
    assert j < k;
  }

  /** The list is filled up to just below the next new attempt. */
  lemma NextSlot(s: RunState, u: RunState, list: seq<Attempt>, k: nat)
    requires Inv(s) && Replayable(s, list) && k < |list| && Underway(s, u)
    requires forall j | 0 <= j < k :: list[j].id in u.attemptsById
    requires list[k].id !in u.attemptsById
    ensures |AttemptList(u, list[k].taskId)| == list[k].number - 1
  {
    hide Inv, Ordered;
    Place(s, list[k].id);
    if list[k].number >= 2 {
      EarlierSeen(s, u, list, k, list[k].number - 2);
      Occupant(s, list[k].taskId, list[k].number - 2);
    }
  }

  lemma ReplayStep(s: RunState, u: RunState, list: seq<Attempt>, k: nat)
    requires Inv(s) && Replayable(s, list) && k < |list| && Underway(s, u)
    requires forall j | 0 <= j < k :: list[j].id in u.attemptsById
    ensures Underway(s, RecordAttempt(u, list[k]))
    ensures forall j | 0 <= j <= k :: list[j].id in RecordAttempt(u, list[k]).attemptsById
  {
    hide Inv, Underway, Ordered, AttemptList;
    var a := list[k];
    if a.id in u.attemptsById {
      SeenAgain(s, u, a);
    } else {
      NextSlot(s, u, list, k);
      FreshOne(s, u, a);
    }
  }

  lemma SeenAgain(s: RunState, u: RunState, a: Attempt)
    requires Inv(s) && a.id in s.attemptsById && s.attemptsById[a.id] == a && Underway(s, u) && a.id in u.attemptsById
    ensures Underway(s, RecordAttempt(u, a))
  {
    hide Inv;
    Place(s, a.id);
    var ids := AttemptList(u, a.taskId);
    assert ids[a.number - 1] == a.id;
    var v := RecordAttempt(u, a);
    assert forall t :: AttemptList(v, t) == AttemptList(u, t);
    assert v.attemptsById == u.attemptsById;
  }

  /** A list holds only earlier attempts of its task. */
  lemma NotListed(s: RunState, u: RunState, a: Attempt)
    requires Inv(s) && Underway(s, u) && a.id in s.attemptsById && s.attemptsById[a.id] == a
    requires |AttemptList(u, a.taskId)| < a.number
    ensures a.id !in AttemptList(u, a.taskId)
  {
    hide Inv;
    var ids := AttemptList(u, a.taskId);
    forall p | 0 <= p < |ids| ensures ids[p] != a.id {
      Occupant(s, a.taskId, p);
    }
  }

  lemma FreshLists(u: RunState, a: Attempt, t: Name)
    requires a.id !in AttemptList(u, a.taskId)
    ensures AttemptList(RecordAttempt(u, a), t) == if t == a.taskId then AttemptList(u, t) + [a.id] else AttemptList(u, t)
  {
  }

  lemma FreshOne(s: RunState, u: RunState, a: Attempt)
    requires Inv(s) && a.id in s.attemptsById && s.attemptsById[a.id] == a && Underway(s, u) && a.id !in u.attemptsById
    requires |AttemptList(u, a.taskId)| == a.number - 1
    ensures Underway(s, RecordAttempt(u, a))
  {
    hide Inv, AttemptList;
    Place(s, a.id);
    NotListed(s, u, a);
    var v := RecordAttempt(u, a);
    assert v.attemptsById == u.attemptsById[a.id := a];
    forall t ensures AttemptList(v, t) <= AttemptList(s, t) {
      FreshLists(u, a, t);
    }
    forall x | x in s.attemptsById
      ensures x in v.attemptsById <==> s.attemptsById[x].number <= |AttemptList(v, s.attemptsById[x].taskId)|
    {
      Place(s, x);
      FreshLists(u, a, s.attemptsById[x].taskId);
    }
  }

  lemma {:induction false} ReplayUnderway(s: RunState, base: RunState, list: seq<Attempt>, k: nat)
    requires Inv(s) && Replayable(s, list) && k <= |list| && Underway(s, base)
    ensures Underway(s, Replay(base, list[..k]))
    ensures forall j | 0 <= j < k :: list[j].id in Replay(base, list[..k]).attemptsById
  {
    hide Inv, Underway, Replayable, RecordAttempt;
    if k > 0 {
      ReplayUnderway(s, base, list, k - 1);
      assert list[..k][..k - 1] == list[..k - 1];
      ReplayStep(s, Replay(base, list[..k - 1]), list, k - 1);
    }
  }

  /** The replay reproduces the attempts and every task's list in its original order. */
  lemma ReplayExact(s: RunState, base: RunState, list: seq<Attempt>)
    requires Inv(s) && Replayable(s, list)
    requires base.attemptsById == map[] && base.attemptsByTask == map[]
    ensures var u := Replay(base, list); u.attemptsById == s.attemptsById && forall t :: AttemptList(u, t) == AttemptList(s, t)
  {
    hide Inv, Replay;
    forall x | x in s.attemptsById ensures s.attemptsById[x].number > |AttemptList(base, s.attemptsById[x].taskId)| {
      Place(s, x);
    }
    assert Underway(s, base);
    ReplayUnderway(s, base, list, |list|);
    assert list[..|list|] == list;
    var u := Replay(base, list);
    forall x | x in s.attemptsById ensures x in u.attemptsById {
      var k :| 0 <= k < |list| && list[k].id == x;
    }
    assert u.attemptsById == s.attemptsById;
    forall t ensures AttemptList(u, t) == AttemptList(s, t) {
      var n := |AttemptList(s, t)|;
      if |AttemptList(u, t)| < n {
        Occupant(s, t, n - 1);
      }
    }
  }

  lemma {:induction false} ReplayNonempty(u: RunState, list: seq<Attempt>)
    requires u.attemptsByTask == map[]
    ensures forall t | t in Replay(u, list).attemptsByTask :: Replay(u, list).attemptsByTask[t] != []
  {
    if list != [] {
      ReplayNonempty(u, list[..|list| - 1]);
    }
  }

  lemma {:induction false} ReplayRest(u: RunState, list: seq<Attempt>)
    ensures Replay(u, list).(attemptsById := u.attemptsById, attemptsByTask := u.attemptsByTask) == u
  {
    if list != [] {
      ReplayRest(u, list[..|list| - 1]);
    }
  }

  lemma {:induction false} AddRowsFacts<T>(rows: seq<Row<T>>, m: map<Name, T>)
    requires forall i | 0 <= i < |rows| :: rows[i].id in m && rows[i].value == m[rows[i].id]
    ensures AddRows(map[], rows).Keys == Elements(RowIds(rows))
    ensures forall x | x in AddRows(map[], rows) && x in m :: AddRows(map[], rows)[x] == m[x]
  {
    if rows != [] {
      var n := |rows| - 1;
      AddRowsFacts(rows[..n], m);
      assert RowIds(rows) == RowIds(rows[..n]) + [rows[n].id];
    } else {
      assert Elements(RowIds(rows)) == {};
    }
  }

  lemma AddRowsMatch<T>(rows: seq<Row<T>>, m: map<Name, T>)
    requires RowsMatch(rows, m)
    ensures AddRows(map[], rows) == m
  {
    AddRowsFacts(rows, m);
  }

  // ---------------------------------------------------------------- save, then reload

  /** Equal in everything a caller can observe; a task without attempts may or may not have an
      empty list. */
  ghost predicate SameState(u: RunState, s: RunState) {
    && u == s.(attemptsByTask := u.attemptsByTask) && u.attemptsByTask.Keys <= s.attemptsByTask.Keys
    && forall t :: AttemptList(u, t) == AttemptList(s, t)
  }

  lemma StoredReplayable(s: RunState, db: Store)
    requires Inv(s) && RowsMatch(OfRun(db.attempts, s.graph.run.id), s.attemptsById)
    ensures Replayable(s, ListAttempts(db, s.graph.run.id))
  {
    hide Inv, OfRun, Insert, ByNumber;
    var rows, list := OfRun(db.attempts, s.graph.run.id), ListAttempts(db, s.graph.run.id);
    ByNumberOrdered(rows);
    forall k | 0 <= k < |list| ensures list[k].id in s.attemptsById && s.attemptsById[list[k].id] == list[k] {
      assert list[k] in list;
      var i :| 0 <= i < |rows| && rows[i].value == list[k];
      Place(s, rows[i].id);
    }
    forall x | x in s.attemptsById ensures exists k :: 0 <= k < |list| && list[k].id == x {
      assert x in Elements(RowIds(rows));
      var i :| 0 <= i < |rows| && RowIds(rows)[i] == x;
      assert rows[i].value in list;
      Place(s, x);
    }
  }

  lemma FromStoredGraph(s: RunState)
    requires Inv(s)
    ensures FromGraph(s.graph) == RunState(s.graph, s.tasksById, s.tasksByKey, map[], map[], map[], map[], s.graphRevision)
  {
    hide Safe, Numbered, OneActive, HumanOk, ApprovalsOk, StatusOk, Acyclic, Unrepeated, NoAlias;
    IndexesOf(s.graph.tasks);
    SameIndexes(s.graph.tasks, s.tasksById, s.tasksByKey, AddById(map[], s.graph.tasks), AddByKey(map[], s.graph.tasks));
  }

  lemma SameIndexes(tasks: seq<Task>, byId: map<Name, Task>, byKey: map<Name, Name>, byId': map<Name, Task>, byKey': map<Name, Name>)
    requires Indexed(tasks, byId, byKey) && Indexed(tasks, byId', byKey')
    ensures byId == byId' && byKey == byKey'
  {
    forall x | x in byId ensures byId[x] == byId'[x] {
      assert x in Elements(TaskIds(tasks));
      var i :| 0 <= i < |tasks| && TaskIds(tasks)[i] == x;
    }
    forall x | x in byKey ensures byKey[x] == byKey'[x] {
      assert x in Elements(TaskKeys(tasks));
      var i :| 0 <= i < |tasks| && TaskKeys(tasks)[i] == x;
    }
  }

  /** A run that was saved and is loaded again is the same run: same tasks, same attempts in the
      same order, same requests. */
  lemma SaveThenReload(s: RunState, db: Store)
    requires Inv(s) && Mirrored(db, s)
    ensures Reloaded(db, s.graph.run.id).Ok? && SameState(Reloaded(db, s.graph.run.id).value, s)
  {
    hide Inv, GetGraph, OfRun, AddRows, RowsMatch, FromGraph, Replayable, Replay, ListAttempts;
    var run := s.graph.run.id;
    RefinesRewrite(s, db);
    FromStoredGraph(s);
    StoredReplayable(s, db);
    ReplayExact(s, FromGraph(s.graph), ListAttempts(db, run));
    ReplayNonempty(FromGraph(s.graph), ListAttempts(db, run));
    ReplayRest(FromGraph(s.graph), ListAttempts(db, run));
    AddRowsMatch(OfRun(db.humans, run), s.humanRequests);
    AddRowsMatch(OfRun(db.approvals, run), s.approvalRequests);
    var u := Replay(FromGraph(s.graph), ListAttempts(db, run));
    forall t | t in u.attemptsByTask ensures t in s.attemptsByTask {
      assert AttemptList(u, t) == AttemptList(s, t);
    }
    forall t ensures AttemptList(Reloaded(db, run).value, t) == AttemptList(s, t) {
      assert AttemptList(Reloaded(db, run).value, t) == AttemptList(u, t);
    }
  }

  /** Hence the same latest active attempt and the same next attempt number for every task. */
  lemma ReloadKeepsAttempts(s: RunState, db: Store, t: Name)
    requires Inv(s) && Mirrored(db, s)
    ensures Reloaded(db, s.graph.run.id).Ok?
    ensures var u := Reloaded(db, s.graph.run.id).value;
            LatestActive(u, t) == LatestActive(s, t) && |AttemptList(u, t)| + 1 == |AttemptList(s, t)| + 1
  {
    SaveThenReload(s, db);
  }

  lemma SameStateInv(u: RunState, s: RunState)
    requires Inv(s) && SameState(u, s)
    ensures Inv(u)
  {
    hide GraphOk, Indexed, Safe, OneActive, HumanOk, ApprovalsOk, StatusOk;
    var ids := s.tasksById.Keys;
    forall a | a in u.attemptsById ensures Entry(ids, u.attemptsById, u.attemptsByTask, a) {
      assert Entry(ids, s.attemptsById, s.attemptsByTask, a);
      assert AttemptList(u, s.attemptsById[a].taskId) == AttemptList(s, s.attemptsById[a].taskId);
    }
    forall t, i: nat | t in u.attemptsByTask && i < |u.attemptsByTask[t]| ensures Slot(u.attemptsById, t, i, u.attemptsByTask[t][i]) {
      assert AttemptList(u, t) == AttemptList(s, t);
      assert Slot(s.attemptsById, t, i, s.attemptsByTask[t][i]);
    }
  }

  lemma MatchedAttemptsKnown(rows: seq<Row<Attempt>>, m: map<Name, Attempt>)
    requires RowsMatch(rows, m)
    ensures AttemptsKnown(rows, m)
  {
  }

  /** A reloaded runtime is again one whose syncs are exact. */
  lemma ReloadedRuntime(ids: iset<Name>, s: RunState, db: Store)
    requires Inv(s) && IdsWithin(ids, s) && OwnRows(ids, s.graph.run.id, db) && Mirrored(db, s)
    ensures Reloaded(db, s.graph.run.id).Ok?
    ensures var u := Reloaded(db, s.graph.run.id).value; SysInv(ids, System(u, db, Some(SignatureOf(u.graph))))
  {
    hide Inv, OwnRows, Reloaded, RowsMatch, AttemptsKnown, KeysKnown, GraphGrows;
    SaveThenReload(s, db);
    var u := Reloaded(db, s.graph.run.id).value;
    SameStateInv(u, s);
    MatchedAttemptsKnown(OfRun(db.attempts, s.graph.run.id), s.attemptsById);
    MatchIsKnown(OfRun(db.humans, s.graph.run.id), s.humanRequests);
    MatchIsKnown(OfRun(db.approvals, s.graph.run.id), s.approvalRequests);
    GraphGrowsRefl(u.graph);
    assert PersistedAs(System(u, db, Some(SignatureOf(u.graph))), u.graph);
  }

  lemma GraphGrowsRefl(g: Graph)
    ensures GraphGrows(g, {}, g)
  {
  }
}
