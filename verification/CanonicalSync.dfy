/** Keeping the durable store in step with a run. */
module CanonicalSync {
  import opened Names
  import opened Wrappers
  import opened Sequences
  import opened Records
  import opened Digraph
  import opened DependencyGraph
  import opened RunModel
  import opened RunInvariant
  import opened RunHistory
  import opened Tables
  import opened DurableStore

  // Full rewrites and incremental saves, chosen by the graph signature (local_runtime.py),
  // interleaved with calls on the run and with other runs' writes.

  /** `_graph_structure_signature` */
  datatype Signature = Signature(run: Name, revision: int, tasks: seq<Name>, edges: seq<Name>)

  function SignatureOf(g: Graph): Signature {
    Signature(g.run.id, g.run.revision, TaskIds(g.tasks), EdgeIds(g.edges))
  }

  /** The orders in which the run's dictionaries are listed. */
  datatype DictOrders = DictOrders(tasks: seq<Name>, attempts: seq<Name>, humans: seq<Name>, approvals: seq<Name>)

  ghost predicate OrderOf<T>(keys: seq<Name>, m: map<Name, T>) {
    Distinct(keys) && Elements(keys) == m.Keys
  }

  ghost predicate OrdersOf(s: RunState, o: DictOrders) {
    && OrderOf(o.tasks, s.tasksById) && OrderOf(o.attempts, s.attemptsById)
    && OrderOf(o.humans, s.humanRequests) && OrderOf(o.approvals, s.approvalRequests)
  }

  /** `list(m.values())` */
  function Listed<T>(m: map<Name, T>, keys: seq<Name>): (r: seq<T>)
    requires forall i | 0 <= i < |keys| :: keys[i] in m
    ensures |r| == |keys|
  {
    seq(|keys|, i requires 0 <= i < |keys| => m[keys[i]])
  }

  lemma OrderKnown<T>(keys: seq<Name>, m: map<Name, T>)
    requires OrderOf(keys, m)
    ensures forall i | 0 <= i < |keys| :: keys[i] in m
  {
    assert forall i | 0 <= i < |keys| :: keys[i] in Elements(keys);
  }

  /** A runtime: the run in memory, the database, and the signature persisted last. */
  datatype System = System(state: RunState, db: Store, signature: Option<Signature>)

  /** The transaction `_sync_canonical_state` asks for. */
  ghost function SyncTransaction(sys: System, o: DictOrders): Result<Store>
    requires OrdersOf(sys.state, o)
  {
    OrderKnown(o.tasks, sys.state.tasksById);
    OrderKnown(o.attempts, sys.state.attemptsById);
    OrderKnown(o.humans, sys.state.humanRequests);
    OrderKnown(o.approvals, sys.state.approvalRequests);
    var g := sys.state.graph;
    Transaction(sys.db, g.run, Listed(sys.state.tasksById, o.tasks), Listed(sys.state.attemptsById, o.attempts),
                Listed(sys.state.humanRequests, o.humans), Listed(sys.state.approvalRequests, o.approvals),
                if sys.signature == Some(SignatureOf(g)) then None else Some(g))
  }

  ghost function AfterSync(sys: System, o: DictOrders): System
    requires OrdersOf(sys.state, o)
  {
    var r := SyncTransaction(sys, o);
    if r.Err? then sys else System(sys.state, r.value, Some(SignatureOf(sys.state.graph)))
  }

  // ---------------------------------------------------------------- what holds between syncs

  /** Ids are drawn from a space of this run's own, as uuid4 ids are. */
  ghost predicate IdsWithin(ids: iset<Name>, s: RunState) {
    && (forall x | x in s.tasksById :: x in ids)
    && (forall i | 0 <= i < |s.graph.edges| :: s.graph.edges[i].id in ids)
    && (forall x | x in s.attemptsById :: x in ids)
    && (forall x | x in s.humanRequests :: x in ids)
    && (forall x | x in s.approvalRequests :: x in ids)
  }

  ghost predicate OwnTable<T>(ids: iset<Name>, run: Name, rows: seq<Row<T>>) {
    forall x | x in ids :: Mine(rows, x, run)
  }

  ghost predicate OwnSlots(ids: iset<Name>, run: Name, rows: seq<Row<Attempt>>) {
    forall k | 0 <= k < |rows| && rows[k].value.taskId in ids :: rows[k].run == run
  }

  /** No other run's row carries one of this run's ids. */
  ghost predicate OwnRows(ids: iset<Name>, run: Name, db: Store) {
    && OwnTable(ids, run, db.tasks) && OwnTable(ids, run, db.edges) && OwnTable(ids, run, db.attempts)
    && OwnTable(ids, run, db.humans) && OwnTable(ids, run, db.approvals)
    && OwnSlots(ids, run, db.attempts)
  }

  /** The stored attempts are known to the run, under the same task and number. */
  ghost predicate AttemptsKnown(rows: seq<Row<Attempt>>, m: map<Name, Attempt>) {
    && Distinct(RowIds(rows)) && Elements(RowIds(rows)) <= m.Keys
    && forall k | 0 <= k < |rows| && rows[k].id in m ::
         m[rows[k].id].taskId == rows[k].value.taskId && m[rows[k].id].number == rows[k].value.number
  }

  ghost predicate KeysKnown<T>(rows: seq<Row<T>>, m: map<Name, T>) {
    Distinct(RowIds(rows)) && Elements(RowIds(rows)) <= m.Keys
  }

  /** The store holds this graph, every row at the graph's revision. */
  ghost predicate Stored(db: Store, g: Graph) {
    && g.run.id in db.runs && db.runs[g.run.id] == g.run
    && OfRun(db.tasks, g.run.id) == TaskRows(g.tasks, g.run.revision)
    && OfRun(db.edges, g.run.id) == EdgeRows(g.edges, g.run.revision)
  }

  /** The graph persisted last, from which the run's graph has only grown. */
  ghost predicate PersistedAs(sys: System, g: Graph) {
    && Stored(sys.db, g) && sys.signature == Some(SignatureOf(g))
    && GraphGrows(g, {}, sys.state.graph)
  }

  ghost predicate SysInv(ids: iset<Name>, sys: System) {
    var sound :=
      && Inv(sys.state) && IdsWithin(ids, sys.state) && OwnRows(ids, sys.state.graph.run.id, sys.db)
      && AttemptsKnown(OfRun(sys.db.attempts, sys.state.graph.run.id), sys.state.attemptsById)
      && KeysKnown(OfRun(sys.db.humans, sys.state.graph.run.id), sys.state.humanRequests)
      && KeysKnown(OfRun(sys.db.approvals, sys.state.graph.run.id), sys.state.approvalRequests)
      && (sys.signature.None? || exists g :: PersistedAs(sys, g));
    sound
  }

  /** After a sync the store holds the run: graph, attempts and requests, nothing more or less. */
  ghost predicate Mirrored(db: Store, s: RunState) {
    && Stored(db, s.graph)
    && RowsMatch(OfRun(db.attempts, s.graph.run.id), s.attemptsById)
    && RowsMatch(OfRun(db.humans, s.graph.run.id), s.humanRequests)
    && RowsMatch(OfRun(db.approvals, s.graph.run.id), s.approvalRequests)
  }

  ghost predicate SameRun(a: Store, b: Store, run: Name) {
    && (run in a.runs <==> run in b.runs) && (run in a.runs ==> a.runs[run] == b.runs[run])
    && OfRun(a.tasks, run) == OfRun(b.tasks, run) && OfRun(a.edges, run) == OfRun(b.edges, run)
    && OfRun(a.attempts, run) == OfRun(b.attempts, run)
    && OfRun(a.humans, run) == OfRun(b.humans, run) && OfRun(a.approvals, run) == OfRun(b.approvals, run)
  }

  // ---------------------------------------------------------------- reading back a stored graph

  lemma StoredReadsBack(db: Store, g: Graph)
    requires Stored(db, g) && ValidEdges(g.tasks, g.edges)
    ensures GetGraph(db, g.run.id) == Ok(g)
  {
    AllAtRevision(TaskRows(g.tasks, g.run.revision), g.run.revision);
    AllAtRevision(EdgeRows(g.edges, g.run.revision), g.run.revision);
    assert Values(TaskRows(g.tasks, g.run.revision)) == g.tasks;
    assert Values(EdgeRows(g.edges, g.run.revision)) == g.edges;
  }

  lemma InvValidEdges(s: RunState)
    requires Inv(s)
    ensures ValidEdges(s.graph.tasks, s.graph.edges)
  {
    hide Indexed, Safe, Numbered, OneActive, HumanOk, ApprovalsOk, StatusOk;
    forall i | 0 <= i < |s.graph.edges|
      ensures s.graph.edges[i].from in TaskIds(s.graph.tasks) && s.graph.edges[i].to in TaskIds(s.graph.tasks)
    {
      assert s.graph.edges[i].from in Elements(TaskIds(s.graph.tasks)) && s.graph.edges[i].to in Elements(TaskIds(s.graph.tasks));
    }
  }

  // ---------------------------------------------------------------- saving tasks and edges

  /** The first half of the transaction: run, tasks and edges are the run's own, attempts and
      requests and every other run untouched. */
  ghost predicate GraphSaved(ids: iset<Name>, before: Store, after: Store, g: Graph) {
    && Stored(after, g)
    && after.runs == before.runs[g.run.id := g.run]
    && after.attempts == before.attempts && after.humans == before.humans && after.approvals == before.approvals
    && OwnTable(ids, g.run.id, after.tasks) && OwnTable(ids, g.run.id, after.edges)
    && (forall x | x != g.run.id :: OfRun(after.tasks, x) == OfRun(before.tasks, x) && OfRun(after.edges, x) == OfRun(before.edges, x))
  }

  lemma TaskRowIds(tasks: seq<Task>, revision: int)
    ensures RowIds(TaskRows(tasks, revision)) == TaskIds(tasks)
  {
  }

  lemma EdgeRowIds(edges: seq<Edge>, revision: int)
    ensures RowIds(EdgeRows(edges, revision)) == EdgeIds(edges)
  {
  }

  lemma DeleteRunMine<T>(rows: seq<Row<T>>, run: Name, x: Name)
    ensures Mine(rows, x, run) ==> Mine(DeleteRun(rows, run), x, run)
    ensures Mine(rows, x, run) ==> forall i | 0 <= i < |DeleteRun(rows, run)| :: DeleteRun(rows, run)[i].id != x
  {
    if Mine(rows, x, run) {
      forall i | 0 <= i < |DeleteRun(rows, run)| ensures DeleteRun(rows, run)[i].id != x {
        DeleteRunIds(rows, run, DeleteRun(rows, run)[i].id);
        assert RowIds(DeleteRun(rows, run))[i] == DeleteRun(rows, run)[i].id;
      }
    }
  }

  /** Delete and save again: exactly the new rows, and no other run's. */
  lemma RewriteTable<T(!new)>(ids: iset<Name>, rows: seq<Row<T>>, items: seq<Row<T>>, run: Name)
    requires OwnTable(ids, run, rows) && AllOf(items, run) && Distinct(RowIds(items))
    requires forall i | 0 <= i < |items| :: items[i].id in ids
    ensures var after := UpsertAll(DeleteRun(rows, run), items);
            && OfRun(after, run) == items && OwnTable(ids, run, after)
            && forall x | x != run :: OfRun(after, x) == OfRun(rows, x)
  {
    var cleared := DeleteRun(rows, run);
    var after := UpsertAll(cleared, items);
    forall x | x in ids ensures Mine(cleared, x, run) && Mine(after, x, run) {
      DeleteRunMine(rows, run, x);
      UpsertAllMine(cleared, items, x, run);
    }
    assert AllMine(cleared, items, run);
    UpsertAllOfRun(cleared, items, run);
    DeleteRunGone(rows, run);
    UpsertAllFresh(items);
    forall x | x != run ensures OfRun(after, x) == OfRun(rows, x) {
      UpsertAllOthers(cleared, items, run, x);
      DeleteRunOthers(rows, run, x);
    }
  }

  lemma FullSaveTables(ids: iset<Name>, db: Store, g: Graph)
    requires Distinct(TaskIds(g.tasks)) && Distinct(TaskKeys(g.tasks)) && Distinct(EdgeIds(g.edges))
    requires Owned(g.run.id, g.tasks, g.edges)
    requires OwnTable(ids, g.run.id, db.tasks) && OwnTable(ids, g.run.id, db.edges)
    requires forall i | 0 <= i < |g.tasks| :: g.tasks[i].id in ids
    requires forall i | 0 <= i < |g.edges| :: g.edges[i].id in ids
    ensures RewriteGraph(db, g).Ok? && GraphSaved(ids, db, RewriteGraph(db, g).value, g)
  {
    hide OwnTable, Distinct, DeleteRun, UpsertAll, OfRun;
    var run := g.run.id;
    TaskRowIds(g.tasks, g.run.revision);
    EdgeRowIds(g.edges, g.run.revision);
    RewriteTable(ids, db.tasks, TaskRows(g.tasks, g.run.revision), run);
    RewriteTable(ids, db.edges, EdgeRows(g.edges, g.run.revision), run);
    var cleared := db.(runs := db.runs[run := g.run], tasks := DeleteRun(db.tasks, run));
    ClearedKeysFree(db.tasks, g.tasks, run, g.run.revision);
    SaveTasksIs(cleared, g.tasks, run);
  }

  lemma FullSave(ids: iset<Name>, db: Store, s: RunState)
    requires Inv(s) && IdsWithin(ids, s) && OwnRows(ids, s.graph.run.id, db)
    ensures RewriteGraph(db, s.graph).Ok? && GraphSaved(ids, db, RewriteGraph(db, s.graph).value, s.graph)
  {
    hide Safe, Numbered, OneActive, HumanOk, ApprovalsOk, StatusOk, Acyclic, Unrepeated, RewriteGraph, GraphSaved;
    forall i | 0 <= i < |s.graph.tasks| ensures s.graph.tasks[i].id in ids {
      assert s.graph.tasks[i].id in s.tasksById;
    }
    FullSaveTables(ids, db, s.graph);
  }

  lemma ClearedKeysFree(rows: seq<Row<Task>>, tasks: seq<Task>, run: Name, revision: int)
    requires Distinct(TaskIds(tasks)) && Distinct(TaskKeys(tasks))
    ensures KeysFree(DeleteRun(rows, run), tasks, run, revision)
  {
    forall i, j | 0 <= i < j < |tasks| ensures tasks[i].key != tasks[j].key && tasks[i].id != tasks[j].id {
      assert TaskKeys(tasks)[i] != TaskKeys(tasks)[j] && TaskIds(tasks)[i] != TaskIds(tasks)[j];
    }
    var cleared := DeleteRun(rows, run);
    forall k | 0 <= k < |cleared| ensures cleared[k].run != run {
      if cleared[k].run == run {
        var j := OfRunHas(cleared, run, k);
        DeleteRunGone(rows, run);
      }
    }
  }

  /** Incremental: the same tasks at the same revision, each replaced where it stands. */
  lemma TasksInPlace(s: RunState, earlier: seq<Task>, keys: seq<Name>)
    requires Indexed(s.graph.tasks, s.tasksById, s.tasksByKey) && Distinct(TaskIds(s.graph.tasks))
    requires OrderOf(keys, s.tasksById) && TaskIds(earlier) == TaskIds(s.graph.tasks)
    requires forall i | 0 <= i < |keys| :: keys[i] in s.tasksById
    ensures var revision := s.graph.run.revision;
            UpsertAll(TaskRows(earlier, revision), TaskRows(Listed(s.tasksById, keys), revision)) == TaskRows(s.graph.tasks, revision)
  {
    hide Indexed, OrderOf, Listed, UpsertAll;
    var revision := s.graph.run.revision;
    var rows, finals, items := TaskRows(earlier, revision), TaskRows(s.graph.tasks, revision), TaskRows(Listed(s.tasksById, keys), revision);
    TaskRowIds(earlier, revision);
    TaskRowIds(s.graph.tasks, revision);
    assert |TaskIds(earlier)| == |earlier| && |TaskIds(s.graph.tasks)| == |s.graph.tasks|;
    forall k | 0 <= k < |rows| ensures finals[k].id == rows[k].id {
      assert RowIds(rows)[k] == RowIds(finals)[k];
    }
    ListedAmong(s, keys, revision);
    UpsertAllReplaces(rows, finals, items);
    assert UpsertAll(rows, items) == finals;
  }

  /** Listing the dictionary gives exactly the rows of the graph's tasks. */
  lemma ListedAmong(s: RunState, keys: seq<Name>, revision: int)
    requires Indexed(s.graph.tasks, s.tasksById, s.tasksByKey) && OrderOf(keys, s.tasksById)
    requires forall i | 0 <= i < |keys| :: keys[i] in s.tasksById
    ensures var finals, items := TaskRows(s.graph.tasks, revision), TaskRows(Listed(s.tasksById, keys), revision);
            && (forall i | 0 <= i < |items| :: items[i] in finals) && (forall k | 0 <= k < |finals| :: finals[k] in items)
  {
    hide Distinct;
    var finals, items := TaskRows(s.graph.tasks, revision), TaskRows(Listed(s.tasksById, keys), revision);
    forall i | 0 <= i < |items| ensures items[i] in finals {
      var at := TaskAt(s, keys[i]);
      assert finals[at] == items[i];
    }
    forall k | 0 <= k < |finals| ensures finals[k] in items {
      assert s.graph.tasks[k].id in s.tasksById;
      assert s.graph.tasks[k].id in Elements(keys);
      var i :| 0 <= i < |keys| && keys[i] == s.graph.tasks[k].id;
      assert items[i] == finals[k];
    }
  }

  lemma StoredKeysFree(db: Store, s: RunState, earlier: seq<Task>, tasks: seq<Task>)
    requires Inv(s)
    requires OfRun(db.tasks, s.graph.run.id) == TaskRows(earlier, s.graph.run.revision)
    requires TaskIds(earlier) == TaskIds(s.graph.tasks) && TaskKeys(earlier) == TaskKeys(s.graph.tasks)
    requires forall i | 0 <= i < |tasks| :: tasks[i].id in s.tasksById && s.tasksById[tasks[i].id] == tasks[i]
    requires Distinct(TaskIds(tasks))
    ensures KeysFree(db.tasks, tasks, s.graph.run.id, s.graph.run.revision)
  {
    hide Safe, Numbered, OneActive, HumanOk, ApprovalsOk, StatusOk, NoAlias, Acyclic, Unrepeated;
    assert |TaskIds(earlier)| == |earlier| && |TaskIds(s.graph.tasks)| == |s.graph.tasks|;
    forall i, j | 0 <= i < j < |tasks| ensures tasks[i].key != tasks[j].key && tasks[i].id != tasks[j].id {
      assert TaskIds(tasks)[i] != TaskIds(tasks)[j];
      if tasks[i].key == tasks[j].key {
        SameKeySameTask(s, tasks[i].id, tasks[j].id);
      }
    }
    forall k, i | 0 <= k < |db.tasks| && 0 <= i < |tasks| && db.tasks[k].run == s.graph.run.id
      && db.tasks[k].revision == s.graph.run.revision && db.tasks[k].value.key == tasks[i].key
      ensures db.tasks[k].id == tasks[i].id
    {
      var j := OfRunHas(db.tasks, s.graph.run.id, k);
      assert TaskIds(earlier)[j] == TaskIds(s.graph.tasks)[j] && TaskKeys(earlier)[j] == TaskKeys(s.graph.tasks)[j];
      assert db.tasks[k].id == s.graph.tasks[j].id;
      SameKeySameTask(s, s.graph.tasks[j].id, tasks[i].id);
    }
  }

  lemma SameKeySameTask(s: RunState, a: Name, b: Name)
    requires Inv(s) && a in s.tasksById && b in s.tasksById && s.tasksById[a].key == s.tasksById[b].key
    ensures a == b
  {
    hide Safe, Numbered, OneActive, HumanOk, ApprovalsOk, StatusOk, NoAlias, Acyclic, Unrepeated;
    var i := TaskAt(s, a);
    var j := TaskAt(s, b);
    assert TaskKeys(s.graph.tasks)[i] == TaskKeys(s.graph.tasks)[j];
  }

  /** Saving over a run's rows, in any order. */
  lemma SaveOverTable<T(!new)>(ids: iset<Name>, rows: seq<Row<T>>, items: seq<Row<T>>, run: Name)
    requires OwnTable(ids, run, rows) && AllOf(items, run)
    requires forall i | 0 <= i < |items| :: items[i].id in ids
    ensures var after := UpsertAll(rows, items);
            && OfRun(after, run) == UpsertAll(OfRun(rows, run), items) && OwnTable(ids, run, after)
            && forall x | x != run :: OfRun(after, x) == OfRun(rows, x)
  {
    var after := UpsertAll(rows, items);
    forall x | x in ids ensures Mine(after, x, run) {
      UpsertAllMine(rows, items, x, run);
    }
    UpsertAllOfRun(rows, items, run);
    forall x | x != run ensures OfRun(after, x) == OfRun(rows, x) {
      UpsertAllOthers(rows, items, run, x);
    }
  }

  /** An unchanged signature means the store already has these edges, and these tasks by id and key. */
  lemma SameSignature(sys: System, g: Graph)
    requires PersistedAs(sys, g) && sys.signature == Some(SignatureOf(sys.state.graph))
    ensures TaskIds(g.tasks) == TaskIds(sys.state.graph.tasks) && TaskKeys(g.tasks) == TaskKeys(sys.state.graph.tasks)
    ensures g.edges == sys.state.graph.edges && g.run.id == sys.state.graph.run.id && g.run.revision == sys.state.graph.run.revision
  {
    hide Stored;
    var now := sys.state.graph;
    assert |TaskIds(g.tasks)| == |TaskKeys(g.tasks)| && |TaskIds(now.tasks)| == |TaskKeys(now.tasks)|;
  }

  lemma IncrementalTables(ids: iset<Name>, db: Store, s: RunState, earlier: seq<Task>, keys: seq<Name>)
    requires Inv(s) && IdsWithin(ids, s) && OwnTable(ids, s.graph.run.id, db.tasks) && OrderOf(keys, s.tasksById)
    requires forall i | 0 <= i < |keys| :: keys[i] in s.tasksById
    requires OfRun(db.tasks, s.graph.run.id) == TaskRows(earlier, s.graph.run.revision)
    requires TaskIds(earlier) == TaskIds(s.graph.tasks) && TaskKeys(earlier) == TaskKeys(s.graph.tasks)
    ensures var tasks := Listed(s.tasksById, keys);
            var after := UpsertAll(db.tasks, TaskRows(tasks, s.graph.run.revision));
            && (forall i | 0 <= i < |tasks| :: tasks[i].runId == s.graph.run.id)
            && KeysFree(db.tasks, tasks, s.graph.run.id, s.graph.run.revision)
            && OfRun(after, s.graph.run.id) == TaskRows(s.graph.tasks, s.graph.run.revision)
            && OwnTable(ids, s.graph.run.id, after)
            && forall x | x != s.graph.run.id :: OfRun(after, x) == OfRun(db.tasks, x)
  {
    hide Safe, Numbered, OneActive, HumanOk, ApprovalsOk, StatusOk, Acyclic, Unrepeated, OwnTable, NoAlias, KeysFree, UpsertAll, OfRun;
    var tasks := Listed(s.tasksById, keys);
    forall i | 0 <= i < |tasks| ensures tasks[i].id == keys[i] && tasks[i].runId == s.graph.run.id {
      var at := TaskAt(s, keys[i]);
    }
    assert TaskIds(tasks) == keys;
    StoredKeysFree(db, s, earlier, tasks);
    TasksInPlace(s, earlier, keys);
    SaveOverTable(ids, db.tasks, TaskRows(tasks, s.graph.run.revision), s.graph.run.id);
  }

  lemma IncrementalSave(ids: iset<Name>, sys: System, g: Graph, keys: seq<Name>)
    requires Inv(sys.state) && IdsWithin(ids, sys.state) && OwnRows(ids, sys.state.graph.run.id, sys.db)
    requires PersistedAs(sys, g) && sys.signature == Some(SignatureOf(sys.state.graph))
    requires OrderOf(keys, sys.state.tasksById) && forall i | 0 <= i < |keys| :: keys[i] in sys.state.tasksById
    ensures var r := UpdateRun(sys.db, sys.state.graph.run, Listed(sys.state.tasksById, keys));
            r.Ok? && GraphSaved(ids, sys.db, r.value, sys.state.graph)
  {
    hide Inv, IdsWithin, OwnTable, OwnSlots, OrderOf, GraphGrows, KeysFree, UpsertAll, OfRun;
    var s := sys.state;
    SameSignature(sys, g);
    IncrementalTables(ids, sys.db, s, g.tasks, keys);
    SaveTasksIs(sys.db.(runs := sys.db.runs[s.graph.run.id := s.graph.run]), Listed(s.tasksById, keys), s.graph.run.id);
  }

  // ---------------------------------------------------------------- saving attempts and requests

  lemma AttemptTaskStored(ids: iset<Name>, db: Store, s: RunState, a: Name)
    requires Inv(s) && IdsWithin(ids, s) && a in s.attemptsById
    requires OwnTable(ids, s.graph.run.id, db.tasks)
    requires OfRun(db.tasks, s.graph.run.id) == TaskRows(s.graph.tasks, s.graph.run.revision)
    ensures RunOfTask(db.tasks, s.attemptsById[a].taskId) == Some(s.graph.run.id)
  {
    hide GraphOk, Safe, OneActive, HumanOk, ApprovalsOk, StatusOk, RunOfTask;
    assert Entry(s.tasksById.Keys, s.attemptsById, s.attemptsByTask, a);
    var t := s.attemptsById[a].taskId;
    var at := TaskAt(s, t);
    var k := OfRunFrom(db.tasks, s.graph.run.id, at);
    assert db.tasks[k].id == t;
    RunOfTaskIs(db.tasks, t, s.graph.run.id);
  }

  /** Two attempts of one task with one number are the same attempt. */
  lemma SlotUnique(s: RunState, a: Name, b: Name)
    requires Inv(s) && a in s.attemptsById && b in s.attemptsById
    requires s.attemptsById[a].taskId == s.attemptsById[b].taskId && s.attemptsById[a].number == s.attemptsById[b].number
    ensures a == b
  {
    hide GraphOk, Indexed, Safe, OneActive, HumanOk, ApprovalsOk, StatusOk;
    assert Entry(s.tasksById.Keys, s.attemptsById, s.attemptsByTask, a);
    assert Entry(s.tasksById.Keys, s.attemptsById, s.attemptsByTask, b);
  }

  lemma AttemptIds(s: RunState, keys: seq<Name>)
    requires Inv(s) && forall i | 0 <= i < |keys| :: keys[i] in s.attemptsById
    ensures forall i | 0 <= i < |keys| :: Listed(s.attemptsById, keys)[i].id == keys[i]
  {
    hide GraphOk, Indexed, Safe, OneActive, HumanOk, ApprovalsOk, StatusOk;
    forall i | 0 <= i < |keys| ensures s.attemptsById[keys[i]].id == keys[i] {
      assert Entry(s.tasksById.Keys, s.attemptsById, s.attemptsByTask, keys[i]);
    }
  }

  /** A stored attempt in one of the run's slots is the run's attempt of that slot. */
  lemma StoredSlot(ids: iset<Name>, rows: seq<Row<Attempt>>, s: RunState, k: nat, a: Name)
    requires Inv(s) && IdsWithin(ids, s) && OwnSlots(ids, s.graph.run.id, rows)
    requires AttemptsKnown(OfRun(rows, s.graph.run.id), s.attemptsById)
    requires k < |rows| && a in s.attemptsById
    requires rows[k].value.taskId == s.attemptsById[a].taskId && rows[k].value.number == s.attemptsById[a].number
    ensures rows[k].id == a
  {
    hide GraphOk, Indexed, Safe, OneActive, HumanOk, ApprovalsOk, StatusOk, Distinct;
    assert Entry(s.tasksById.Keys, s.attemptsById, s.attemptsByTask, a);
    var j := OfRunHas(rows, s.graph.run.id, k);
    assert RowIds(OfRun(rows, s.graph.run.id))[j] in Elements(RowIds(OfRun(rows, s.graph.run.id)));
    SlotUnique(s, rows[k].id, a);
  }

  lemma AttemptSlotsFree(ids: iset<Name>, db: Store, s: RunState, keys: seq<Name>)
    requires Inv(s) && IdsWithin(ids, s) && OrderOf(keys, s.attemptsById)
    requires forall i | 0 <= i < |keys| :: keys[i] in s.attemptsById
    requires OwnTable(ids, s.graph.run.id, db.tasks) && OwnSlots(ids, s.graph.run.id, db.attempts)
    requires OfRun(db.tasks, s.graph.run.id) == TaskRows(s.graph.tasks, s.graph.run.revision)
    requires AttemptsKnown(OfRun(db.attempts, s.graph.run.id), s.attemptsById)
    ensures SlotsFree(db, Listed(s.attemptsById, keys), s.graph.run.id)
  {
    hide Inv, IdsWithin, OwnTable, OwnSlots, AttemptsKnown, OfRun, RunOfTask;
    var attempts := Listed(s.attemptsById, keys);
    AttemptIds(s, keys);
    forall i | 0 <= i < |attempts| ensures RunOfTask(db.tasks, attempts[i].taskId) == Some(s.graph.run.id) {
      AttemptTaskStored(ids, db, s, keys[i]);
    }
    forall i, j | 0 <= i < j < |attempts| ensures attempts[i].taskId != attempts[j].taskId || attempts[i].number != attempts[j].number {
      assert keys[i] != keys[j];
      if attempts[i].taskId == attempts[j].taskId && attempts[i].number == attempts[j].number {
        SlotUnique(s, keys[i], keys[j]);
      }
    }
    forall k, i | 0 <= k < |db.attempts| && 0 <= i < |attempts| && db.attempts[k].value.taskId == attempts[i].taskId
      && db.attempts[k].value.number == attempts[i].number ensures db.attempts[k].id == attempts[i].id
    {
      StoredSlot(ids, db.attempts, s, k, keys[i]);
    }
  }

  /** Rows listing a dictionary under its keys. */
  lemma ListedRowsMatch<T>(items: seq<Row<T>>, keys: seq<Name>, m: map<Name, T>)
    requires OrderOf(keys, m) && |items| == |keys|
    requires forall i | 0 <= i < |keys| :: items[i].id == keys[i] && keys[i] in m && items[i].value == m[keys[i]]
    ensures RowsMatch(items, m)
  {
    assert RowIds(items) == keys;
  }

  /** Saving a whole dictionary over a table that only holds its keys for this run. */
  lemma SaveDictionary<T(!new)>(ids: iset<Name>, rows: seq<Row<T>>, items: seq<Row<T>>, keys: seq<Name>, m: map<Name, T>, run: Name)
    requires OwnTable(ids, run, rows) && AllOf(items, run) && OrderOf(keys, m) && |items| == |keys|
    requires forall i | 0 <= i < |keys| :: items[i].id == keys[i] && keys[i] in m && items[i].value == m[keys[i]] && keys[i] in ids
    requires KeysKnown(OfRun(rows, run), m)
    ensures var after := UpsertAll(rows, items);
            && RowsMatch(OfRun(after, run), m) && OwnTable(ids, run, after)
            && forall x | x != run :: OfRun(after, x) == OfRun(rows, x)
  {
    ListedRowsMatch(items, keys, m);
    SaveOverTable(ids, rows, items, run);
    UpsertAllMatch(OfRun(rows, run), items, m);
  }

  lemma SlotsStayOwn(ids: iset<Name>, run: Name, rows: seq<Row<Attempt>>, items: seq<Row<Attempt>>)
    requires OwnSlots(ids, run, rows) && AllOf(items, run)
    ensures OwnSlots(ids, run, UpsertAll(rows, items))
  {
    var after := UpsertAll(rows, items);
    forall k | 0 <= k < |after| && after[k].value.taskId in ids ensures after[k].run == run {
      UpsertAllRows(rows, items, k);
    }
  }

  // ---------------------------------------------------------------- one sync

  ghost predicate OtherRunsSame(a: Store, b: Store, run: Name) {
    forall x | x != run :: SameRun(a, b, x)
  }

  /** The second half of the transaction, after tasks and edges are in place. */
  lemma SaveRest(ids: iset<Name>, db: Store, mid: Store, s: RunState, o: DictOrders)
    requires Inv(s) && IdsWithin(ids, s) && OwnRows(ids, s.graph.run.id, db) && GraphSaved(ids, db, mid, s.graph)
    requires AttemptsKnown(OfRun(db.attempts, s.graph.run.id), s.attemptsById)
    requires KeysKnown(OfRun(db.humans, s.graph.run.id), s.humanRequests)
    requires KeysKnown(OfRun(db.approvals, s.graph.run.id), s.approvalRequests)
    requires OrdersOf(s, o)
    requires forall i | 0 <= i < |o.attempts| :: o.attempts[i] in s.attemptsById
    requires forall i | 0 <= i < |o.humans| :: o.humans[i] in s.humanRequests
    requires forall i | 0 <= i < |o.approvals| :: o.approvals[i] in s.approvalRequests
    ensures SaveAttempts(mid, Listed(s.attemptsById, o.attempts)).Ok?
    ensures var second := SaveAttempts(mid, Listed(s.attemptsById, o.attempts)).value;
            var after := second.(humans := UpsertAll(second.humans, HumanRows(Listed(s.humanRequests, o.humans))),
                                 approvals := UpsertAll(second.approvals, ApprovalRows(Listed(s.approvalRequests, o.approvals))));
            Mirrored(after, s) && OwnRows(ids, s.graph.run.id, after) && OtherRunsSame(db, after, s.graph.run.id)
  {
    hide GraphOk, Indexed, Safe, Numbered, OneActive, StatusOk, OwnTable, OwnSlots, OrderOf, RowsMatch, OfRun, UpsertAll, SlotsFree, SaveAttempts;
    var run := s.graph.run.id;
    var attempts := Listed(s.attemptsById, o.attempts);
    AttemptIds(s, o.attempts);
    AttemptSlotsFree(ids, mid, s, o.attempts);
    SaveAttemptsIs(mid, attempts, run);
    SaveDictionary(ids, db.attempts, AttemptRows(attempts, run, RevisionOf(mid, run)), o.attempts, s.attemptsById, run);
    SlotsStayOwn(ids, run, db.attempts, AttemptRows(attempts, run, RevisionOf(mid, run)));
    SaveDictionary(ids, db.humans, HumanRows(Listed(s.humanRequests, o.humans)), o.humans, s.humanRequests, run);
    SaveDictionary(ids, db.approvals, ApprovalRows(Listed(s.approvalRequests, o.approvals)), o.approvals, s.approvalRequests, run);
  }

  /** Whichever path the signature selects, a sync succeeds, leaves the store an exact image of the
      run, and leaves every other run's rows alone. */
  lemma SyncExact(ids: iset<Name>, sys: System, o: DictOrders)
    requires SysInv(ids, sys) && OrdersOf(sys.state, o)
    ensures SyncTransaction(sys, o).Ok?
    ensures var db := SyncTransaction(sys, o).value;
            && Mirrored(db, sys.state) && OwnRows(ids, sys.state.graph.run.id, db)
            && OtherRunsSame(sys.db, db, sys.state.graph.run.id)
  {
    hide Inv, IdsWithin, OwnRows, OrderOf, RewriteGraph, UpdateRun, SaveAttempts, UpsertAll, Mirrored, OtherRunsSame, GraphSaved,
      AttemptsKnown, KeysKnown, PersistedAs;
    OrderKnown(o.tasks, sys.state.tasksById);
    OrderKnown(o.attempts, sys.state.attemptsById);
    OrderKnown(o.humans, sys.state.humanRequests);
    OrderKnown(o.approvals, sys.state.approvalRequests);
    var s := sys.state;
    var first: Store;
    if sys.signature == Some(SignatureOf(s.graph)) {
      var g :| PersistedAs(sys, g);
      IncrementalSave(ids, sys, g, o.tasks);
      first := UpdateRun(sys.db, s.graph.run, Listed(s.tasksById, o.tasks)).value;
    } else {
      FullSave(ids, sys.db, s);
      first := RewriteGraph(sys.db, s.graph).value;
    }
    SaveRest(ids, sys.db, first, s, o);
  }

  lemma RefinesRewrite(s: RunState, db: Store)
    requires Inv(s) && Mirrored(db, s)
    ensures GetGraph(db, s.graph.run.id) == Ok(s.graph)
  {
    hide Inv, RowsMatch, GetGraph;
    InvValidEdges(s);
    StoredReadsBack(db, s.graph);
  }

  lemma MatchIsKnown<T>(rows: seq<Row<T>>, m: map<Name, T>)
    requires RowsMatch(rows, m)
    ensures KeysKnown(rows, m)
  {
  }

  lemma AfterSyncInv(ids: iset<Name>, sys: System, o: DictOrders)
    requires SysInv(ids, sys) && OrdersOf(sys.state, o)
    ensures SysInv(ids, AfterSync(sys, o))
  {
    hide Inv, IdsWithin, OwnRows, SyncTransaction, OtherRunsSame;
    SyncExact(ids, sys, o);
    assert PersistedAs(AfterSync(sys, o), sys.state.graph);
  }

  // ---------------------------------------------------------------- histories

  datatype Step =
    | Call(op: Op)
    | Sync(orders: DictOrders)
    | Elsewhere(db: Store)

  /** The ids a call brings in. */
  ghost predicate DrawnFrom(ids: iset<Name>, op: Op) {
    match op
    case AddDynamic(tasks, edges) =>
      && (forall i | 0 <= i < |tasks| :: tasks[i].id in ids) && (forall i | 0 <= i < |edges| :: edges[i].id in ids)
    case OpenOp(_, freshId, _, _) => freshId in ids
    case AskHuman(_, _, _, _, freshId) => freshId in ids
    case AskApproval(_, _, _, _, freshId) => freshId in ids
    case _ => true
  }

  ghost predicate StepLegal(ids: iset<Name>, sys: System, step: Step) {
    match step
    case Call(op) => Legal(sys.state, op) && DrawnFrom(ids, op)
    case Sync(o) => OrdersOf(sys.state, o)
    case Elsewhere(db) => SameRun(sys.db, db, sys.state.graph.run.id) && OwnRows(ids, sys.state.graph.run.id, db)
  }

  ghost function Advance(sys: System, step: Step): System {
    match step
    case Call(op) => sys.(state := Apply(sys.state, op))
    case Sync(o) => if OrdersOf(sys.state, o) then AfterSync(sys, o) else sys
    case Elsewhere(db) => sys.(db := db)
  }

  ghost predicate HistoryLegal(ids: iset<Name>, sys: System, steps: seq<Step>)
    decreases |steps|
  {
    steps == [] || (StepLegal(ids, sys, steps[0]) && HistoryLegal(ids, Advance(sys, steps[0]), steps[1..]))
  }

  ghost function History(sys: System, steps: seq<Step>): System
    decreases |steps|
  {
    if steps == [] then sys else History(Advance(sys, steps[0]), steps[1..])
  }

  /** What a call keeps of the dictionaries the store knows about. */
  ghost predicate Carried(s: RunState, u: RunState) {
    && (forall a | a in s.attemptsById ::
          a in u.attemptsById && u.attemptsById[a].taskId == s.attemptsById[a].taskId && u.attemptsById[a].number == s.attemptsById[a].number)
    && s.humanRequests.Keys <= u.humanRequests.Keys && s.approvalRequests.Keys <= u.approvalRequests.Keys
  }

  ghost predicate SameRecords(s: RunState, u: RunState) {
    u.attemptsById == s.attemptsById && u.humanRequests == s.humanRequests && u.approvalRequests == s.approvalRequests
  }

  lemma MoveTaskRecords(s: RunState, id: Name, to: TaskState, reason: Option<string>)
    requires id in s.tasksById
    ensures SameRecords(s, MoveTask(s, id, to, reason).state)
  {
  }

  lemma SetTaskRecords(s: RunState, t: Task)
    ensures SameRecords(s, SetTask(s, t))
  {
  }

  lemma StartTaskRecords(s: RunState, ref: Name)
    ensures SameRecords(s, StartTask(s, ref).state)
  {
    hide Done, SetTask;
    if StartTask(s, ref).reply.Ok? {
      SetTaskRecords(MarkRunning(s), StartTask(s, ref).reply.value);
    }
  }

  lemma CompleteTaskRecords(s: RunState, ref: Name)
    ensures SameRecords(s, CompleteTask(s, ref).state)
  {
    hide Done, AllCompleted, SetTask;
    if CompleteTask(s, ref).reply.Ok? {
      SetTaskRecords(s, CompleteTask(s, ref).reply.value);
    }
  }

  lemma FailTaskRecords(s: RunState, ref: Name, reason: string)
    ensures SameRecords(s, FailTask(s, ref, reason).state)
  {
    hide MoveTask;
    if Lookup(s, ref).Ok? {
      MoveTaskRecords(s, Lookup(s, ref).value, FAILED, Some(reason));
    }
  }

  lemma BlockTaskRecords(s: RunState, ref: Name, reason: string)
    ensures SameRecords(s, BlockTask(s, ref, reason).state) && SameRecords(s, UnblockTask(s, ref).state)
  {
    hide MoveTask;
    if Lookup(s, ref).Ok? {
      MoveTaskRecords(s, Lookup(s, ref).value, BLOCKED, Some(reason));
      MoveTaskRecords(s, Lookup(s, ref).value, READY, None);
    }
  }

  /** Task methods leave attempts and requests alone. */
  lemma TaskStepCarries(s: RunState, op: Op)
    requires op.AddDynamic? || op.UpdateTask? || op.PromoteReady? || op.StartTaskOp? || op.FailTaskOp? || op.Unblock? || op.Block? || op.Complete?
    ensures SameRecords(s, Apply(s, op))
  {
    hide StartTask, FailTask, UnblockTask, BlockTask, CompleteTask, Appendable, Promote, SetTask;
    match op
    case AddDynamic(tasks, edges) => assert SameRecords(s, AddDynamicTasks(s, tasks, edges).state);
    case UpdateTask(t) => SetTaskRecords(s, t);
    case PromoteReady => PromoteRecords(s);
    case StartTaskOp(ref) => StartTaskRecords(s, ref);
    case Complete(ref) => CompleteTaskRecords(s, ref);
    case FailTaskOp(ref, reason) => FailTaskRecords(s, ref, reason);
    case Unblock(ref) => BlockTaskRecords(s, ref, "");
    case Block(ref, reason) => BlockTaskRecords(s, ref, reason);
  }

  lemma PromoteRecords(s: RunState)
    ensures SameRecords(s, Promote(s))
  {
  }

  lemma KnowsItself(s: RunState, a: Name)
    requires Inv(s)
    ensures a in s.attemptsById ==> s.attemptsById[a].id == a
  {
    hide GraphOk, Indexed, Safe, OneActive, HumanOk, ApprovalsOk, StatusOk;
    if a in s.attemptsById {
      assert Entry(s.tasksById.Keys, s.attemptsById, s.attemptsByTask, a);
    }
  }

  ghost predicate SameRequests(s: RunState, u: RunState) {
    u.humanRequests == s.humanRequests && u.approvalRequests == s.approvalRequests
  }

  lemma MoveAttemptCarries(s: RunState, id: Name, to: AttemptState)
    requires Inv(s)
    ensures var u := MoveAttempt(s, id, to).state;
            Carried(s, u) && SameRequests(s, u) && u.attemptsById.Keys == s.attemptsById.Keys
  {
    hide Inv, AllowedAttempt, ActiveState;
    KnowsItself(s, id);
  }

  lemma MarkRunningRecords(s: RunState)
    ensures SameRecords(s, MarkRunning(s))
  {
  }

  lemma StartAttemptCarries(s: RunState, id: Name)
    requires Inv(s)
    ensures var u := StartAttempt(s, id).state;
            Carried(s, u) && SameRequests(s, u) && u.attemptsById.Keys == s.attemptsById.Keys
  {
    hide Inv, MarkRunning, ActiveState;
    KnowsItself(s, id);
    if StartAttempt(s, id).reply.Ok? {
      var a := StartAttempt(s, id).reply.value;
      MarkRunningRecords(s.(attemptsById := s.attemptsById[id := a]));
      assert a.taskId == s.attemptsById[id].taskId && a.number == s.attemptsById[id].number;
    }
  }

  lemma OpenAttemptCarries(s: RunState, ref: Name, freshId: Name, leaseKey: Option<Name>, payload: string)
    requires freshId !in s.attemptsById
    ensures var u := OpenAttempt(s, ref, freshId, leaseKey, payload).state;
            Carried(s, u) && SameRequests(s, u) && u.attemptsById.Keys <= s.attemptsById.Keys + {freshId}
  {
    hide LatestActive, Lookup;
  }

  lemma AttemptStepCarries(ids: iset<Name>, s: RunState, op: Op)
    requires Inv(s) && Legal(s, op) && DrawnFrom(ids, op)
    requires op.OpenOp? || op.Record? || op.Dispatch? || op.Start? || op.Move?
    ensures var u := Apply(s, op);
            && Carried(s, u) && SameRequests(s, u)
            && (forall a | a in u.attemptsById :: a in s.attemptsById || a in ids)
  {
    hide Inv, OpenAttempt, MoveAttempt, StartAttempt;
    match op
    case OpenOp(ref, freshId, leaseKey, payload) => OpenAttemptCarries(s, ref, freshId, leaseKey, payload);
    case Record(a) =>
    case Dispatch(id) => MoveAttemptCarries(s, id, DISPATCHING);
    case Start(id) => StartAttemptCarries(s, id);
    case Move(id, to) => MoveAttemptCarries(s, id, to);
  }

  /** A request call may add one request, drawn from `ids`, and touches no attempt. */
  ghost predicate RequestsAdded(ids: iset<Name>, s: RunState, u: RunState) {
    && u.attemptsById == s.attemptsById
    && s.humanRequests.Keys <= u.humanRequests.Keys && s.approvalRequests.Keys <= u.approvalRequests.Keys
    && (forall r | r in u.humanRequests :: r in s.humanRequests || r in ids)
    && (forall r | r in u.approvalRequests :: r in s.approvalRequests || r in ids)
  }

  lemma ParkRecords<T>(s: RunState, id: Name, to: TaskState, answer: T)
    requires id in s.tasksById
    ensures SameRecords(s, Park(s, id, to, answer).state)
  {
    hide MoveTask;
    MoveTaskRecords(s, id, to, None);
  }

  lemma ReleaseRecords(s: RunState, id: Name, parked: TaskState, attemptId: Name, to: TaskState, reason: Option<string>)
    requires id in s.tasksById
    ensures SameRecords(s, Release(s, id, parked, attemptId, to, reason))
  {
    hide MoveTask;
    MoveTaskRecords(s, id, to, reason);
  }

  lemma AskHumanCarries(ids: iset<Name>, s: RunState, ref: Name, attemptId: Name, question: string, context: string, freshId: Name)
    requires Inv(s) && freshId in ids
    ensures RequestsAdded(ids, s, RequestClarification(s, ref, attemptId, question, context, freshId).state)
  {
    hide GraphOk, Indexed, Safe, Numbered, OneActive, ApprovalsOk, StatusOk, Park;
    if Lookup(s, ref).Ok? {
      var id := Lookup(s, ref).value;
      var r := ClarificationToStore(s, id, attemptId, question, context, freshId);
      ParkRecords(StoreHuman(s, r), id, WAITING_FOR_HUMAN, r);
    }
  }

  lemma AskApprovalCarries(ids: iset<Name>, s: RunState, ref: Name, attemptId: Name, approvalType: string, reason: string, freshId: Name)
    requires Inv(s) && freshId in ids
    ensures RequestsAdded(ids, s, RequestApproval(s, ref, attemptId, approvalType, reason, freshId).state)
  {
    hide GraphOk, Indexed, Safe, Numbered, OneActive, HumanOk, StatusOk, Park;
    if Lookup(s, ref).Ok? {
      var id := Lookup(s, ref).value;
      var r := ApprovalToStore(s, id, attemptId, approvalType, reason, freshId);
      ParkRecords(StoreApproval(s, r), id, WAITING_FOR_APPROVAL, r);
    }
  }

  lemma AnswerCarries(ids: iset<Name>, s: RunState, requestId: Name, answer: string, who: string)
    requires Inv(s)
    ensures RequestsAdded(ids, s, AnswerHumanRequest(s, requestId, answer, who).state)
  {
    hide GraphOk, Indexed, Safe, Numbered, OneActive, ApprovalsOk, StatusOk, Release;
    if AnswerHumanRequest(s, requestId, answer, who).reply.Ok? {
      var r := AnswerHumanRequest(s, requestId, answer, who).reply.value;
      ReleaseRecords(StoreHuman(s, r), Lookup(s, r.taskId).value, WAITING_FOR_HUMAN, r.attemptId, READY, None);
    }
  }

  lemma ResolveCarries(ids: iset<Name>, s: RunState, requestId: Name, approved: bool, who: string)
    requires Inv(s)
    ensures RequestsAdded(ids, s, ResolveApproval(s, requestId, approved, who).state)
  {
    hide GraphOk, Indexed, Safe, Numbered, OneActive, HumanOk, StatusOk, Release;
    if ResolveApproval(s, requestId, approved, who).reply.Ok? {
      var r := ResolveApproval(s, requestId, approved, who).reply.value;
      var to, reason := if approved then READY else BLOCKED, if approved then None else Some("approval_rejected");
      ReleaseRecords(StoreApproval(s, r), Lookup(s, r.taskId).value, WAITING_FOR_APPROVAL, r.attemptId, to, reason);
    }
  }

  lemma RequestStepCarries(ids: iset<Name>, s: RunState, op: Op)
    requires Inv(s) && Legal(s, op) && DrawnFrom(ids, op)
    requires op.AskHuman? || op.AnswerHuman? || op.AskApproval? || op.Resolve?
    ensures RequestsAdded(ids, s, Apply(s, op))
  {
    hide Inv, RequestClarification, RequestApproval, AnswerHumanRequest, ResolveApproval, RequestsAdded;
    match op
    case AskHuman(ref, a, q, c, f) => AskHumanCarries(ids, s, ref, a, q, c, f);
    case AnswerHuman(r, a, w) => AnswerCarries(ids, s, r, a, w);
    case AskApproval(ref, a, t, r, f) => AskApprovalCarries(ids, s, ref, a, t, r, f);
    case Resolve(r, ok, w) => ResolveCarries(ids, s, r, ok, w);
  }

  // ---------------------------------------------------------------- ids of the graph

  lemma AppendedWithin(ids: iset<Name>, s: RunState, tasks: seq<Task>, edges: seq<Edge>)
    requires IdsWithin(ids, s)
    requires (forall i | 0 <= i < |tasks| :: tasks[i].id in ids) && (forall i | 0 <= i < |edges| :: edges[i].id in ids)
    ensures IdsWithin(ids, Appended(s, tasks, edges))
  {
    AddByIdFacts(s.tasksById, tasks);
    forall x | x in TaskIds(tasks) ensures x in ids {
      var i :| 0 <= i < |tasks| && TaskIds(tasks)[i] == x;
    }
  }

  /** Between appends the graph's ids stay what they are. */
  lemma SameGraphIds(s: RunState, u: RunState)
    requires Inv(s) && Inv(u) && Grows(s, u) && s.graphRevision == u.graphRevision
    ensures u.tasksById.Keys == s.tasksById.Keys && u.graph.edges == s.graph.edges
  {
    hide GraphOk, Safe, Numbered, OneActive, HumanOk, ApprovalsOk, StatusOk;
    assert |TaskIds(s.graph.tasks)| == |TaskIds(u.graph.tasks)|;
    assert TaskIds(s.graph.tasks) == TaskIds(u.graph.tasks);
  }

  ghost predicate GraphIdsWithin(ids: iset<Name>, s: RunState) {
    && (forall x | x in s.tasksById :: x in ids)
    && (forall i | 0 <= i < |s.graph.edges| :: s.graph.edges[i].id in ids)
  }

  lemma StepGraphWithin(ids: iset<Name>, s: RunState, op: Op)
    requires Inv(s) && Legal(s, op) && DrawnFrom(ids, op) && IdsWithin(ids, s)
    ensures GraphIdsWithin(ids, Apply(s, op))
  {
    hide Legal, Grows, Inv, Appended, Appendable;
    if op.AddDynamic? && op.tasks != [] && Appendable(s, op.tasks, op.edges) {
      AppendedWithin(ids, s, op.tasks, op.edges);
    } else {
      GraphUnmoved(s, op);
    }
  }

  lemma GraphUnmoved(s: RunState, op: Op)
    requires Inv(s) && Legal(s, op)
    requires !(op.AddDynamic? && op.tasks != [] && Appendable(s, op.tasks, op.edges))
    ensures Apply(s, op).tasksById.Keys == s.tasksById.Keys && Apply(s, op).graph.edges == s.graph.edges
  {
    hide GraphOk, Indexed, Safe, Numbered, OneActive, HumanOk, ApprovalsOk, StatusOk, Legal, Apply, Grows, Appendable;
    StepInv(s, op);
    StepGrows(s, op);
    RevisionStep(s, op);
    SameGraphIds(s, Apply(s, op));
  }

  lemma StepCarries(ids: iset<Name>, s: RunState, op: Op)
    requires Inv(s) && Legal(s, op) && DrawnFrom(ids, op) && IdsWithin(ids, s)
    ensures Carried(s, Apply(s, op)) && IdsWithin(ids, Apply(s, op))
  {
    hide Inv, Apply, Legal, DrawnFrom;
    StepGraphWithin(ids, s, op);
    if op.OpenOp? || op.Record? || op.Dispatch? || op.Start? || op.Move? {
      AttemptStepCarries(ids, s, op);
    } else if op.AskHuman? || op.AnswerHuman? || op.AskApproval? || op.Resolve? {
      RequestStepCarries(ids, s, op);
    } else {
      TaskStepCarries(s, op);
    }
  }

  lemma CallPersisted(sys: System, u: RunState, g: Graph)
    requires PersistedAs(sys, g) && Grows(sys.state, u)
    ensures PersistedAs(sys.(state := u), g)
  {
    hide Stored, TasksKept;
    GraphGrowsTrans(g, {}, sys.state.graph, sys.state.tasksById.Keys, u.graph);
  }

  lemma CallKnown(db: Store, s: RunState, u: RunState)
    requires u.graph.run.id == s.graph.run.id && Carried(s, u)
    requires AttemptsKnown(OfRun(db.attempts, s.graph.run.id), s.attemptsById)
    requires KeysKnown(OfRun(db.humans, s.graph.run.id), s.humanRequests)
    requires KeysKnown(OfRun(db.approvals, s.graph.run.id), s.approvalRequests)
    ensures AttemptsKnown(OfRun(db.attempts, u.graph.run.id), u.attemptsById)
    ensures KeysKnown(OfRun(db.humans, u.graph.run.id), u.humanRequests)
    ensures KeysKnown(OfRun(db.approvals, u.graph.run.id), u.approvalRequests)
  {
    hide Distinct, OfRun;
    var rows := OfRun(db.attempts, s.graph.run.id);
    forall k | 0 <= k < |rows| ensures rows[k].id in s.attemptsById {
      assert RowIds(rows)[k] in Elements(RowIds(rows));
    }
  }

  lemma CallInv(ids: iset<Name>, sys: System, op: Op)
    requires SysInv(ids, sys) && Legal(sys.state, op) && DrawnFrom(ids, op)
    ensures SysInv(ids, sys.(state := Apply(sys.state, op)))
  {
    hide Inv, Apply, Legal, DrawnFrom, IdsWithin, AttemptsKnown, KeysKnown, OwnRows, PersistedAs, Carried, TasksKept;
    var s, u := sys.state, Apply(sys.state, op);
    StepInv(s, op);
    StepGrows(s, op);
    StepCarries(ids, s, op);
    CallKnown(sys.db, s, u);
    if sys.signature.Some? {
      var g :| PersistedAs(sys, g);
      CallPersisted(sys, u, g);
    }
  }

  lemma ElsewhereInv(ids: iset<Name>, sys: System, db: Store)
    requires SysInv(ids, sys) && SameRun(sys.db, db, sys.state.graph.run.id) && OwnRows(ids, sys.state.graph.run.id, db)
    ensures SysInv(ids, sys.(db := db))
  {
    hide Inv, IdsWithin, AttemptsKnown, KeysKnown, OwnRows;
    if sys.signature.Some? {
      var g :| PersistedAs(sys, g);
      assert PersistedAs(sys.(db := db), g);
    }
  }

  lemma {:induction false} HistoryInv(ids: iset<Name>, sys: System, steps: seq<Step>)
    requires SysInv(ids, sys) && HistoryLegal(ids, sys, steps)
    ensures SysInv(ids, History(sys, steps))
    decreases |steps|
  {
    hide SysInv, AfterSync, Apply, SameRun, OwnRows, Legal, DrawnFrom;
    if steps != [] {
      match steps[0] {
        case Call(op) => CallInv(ids, sys, op);
        case Sync(o) => AfterSyncInv(ids, sys, o);
        case Elsewhere(db) => ElsewhereInv(ids, sys, db);
      }
      HistoryInv(ids, Advance(sys, steps[0]), steps[1..]);
    }
  }

  /** Incremental sync refines the full rewrite: after any run of calls, syncs and other runs'
      writes, a sync succeeds and `get_graph` then returns exactly the run in memory, whichever path
      the signature selected; attempts and requests are stored exactly, and no other run's rows
      change. */
  lemma SyncRefinesRewrite(ids: iset<Name>, start: System, steps: seq<Step>, o: DictOrders)
    requires SysInv(ids, start) && HistoryLegal(ids, start, steps)
    requires OrdersOf(History(start, steps).state, o)
    ensures var before := History(start, steps);
            var after := AfterSync(before, o);
            && SyncTransaction(before, o).Ok?
            && GetGraph(after.db, before.state.graph.run.id) == Ok(before.state.graph)
            && Mirrored(after.db, before.state)
            && OtherRunsSame(before.db, after.db, before.state.graph.run.id)
  {
    hide Mirrored, GetGraph, OtherRunsSame, SyncTransaction, OwnRows, Inv, IdsWithin;
    var before := History(start, steps);
    HistoryInv(ids, start, steps);
    SyncExact(ids, before, o);
    RefinesRewrite(before.state, AfterSync(before, o).db);
  }

  /** A runtime starts well on a graph it has just loaded or seeded. */
  lemma FreshRuntime(ids: iset<Name>, g: Graph, db: Store, loaded: bool)
    requires Startable(g) && IdsWithin(ids, FromGraph(g)) && OwnRows(ids, g.run.id, db)
    requires OfRun(db.attempts, g.run.id) == [] && OfRun(db.humans, g.run.id) == [] && OfRun(db.approvals, g.run.id) == []
    requires loaded ==> Stored(db, g)
    ensures SysInv(ids, System(FromGraph(g), db, if loaded then Some(SignatureOf(g)) else None))
  {
    hide Inv, IdsWithin, OwnRows;
    FromGraphInv(g);
    var sys := System(FromGraph(g), db, if loaded then Some(SignatureOf(g)) else None);
    assert RowIds(OfRun(db.attempts, g.run.id)) == [] && RowIds(OfRun(db.humans, g.run.id)) == [] && RowIds(OfRun(db.approvals, g.run.id)) == [];
    if loaded {
      assert PersistedAs(sys, g);
    }
  }
}