/** The durable repository (storage/durable.py) as operations on tables. */
module DurableStore {
  import opened Names
  import opened Wrappers
  import opened Sequences
  import opened Records
  import opened Tables

  /** The database.  A run's row carries its graph revision inside the record. */
  datatype Store = Store(
    runs: map<Name, Run>, tasks: seq<Row<Task>>, edges: seq<Row<Edge>>, attempts: seq<Row<Attempt>>,
    humans: seq<Row<HumanRequest>>, approvals: seq<Row<ApprovalRequest>>)

  function RevisionOf(st: Store, run: Name): int {
    if run in st.runs then st.runs[run].revision else 1
  }

  function TaskRow(t: Task, revision: int): Row<Task> {
    Row(t.id, t.runId, revision, t)
  }

  function TaskRows(tasks: seq<Task>, revision: int): (r: seq<Row<Task>>)
    ensures |r| == |tasks|
  {
    seq(|tasks|, i requires 0 <= i < |tasks| => TaskRow(tasks[i], revision))
  }

  function EdgeRows(edges: seq<Edge>, revision: int): (r: seq<Row<Edge>>)
    ensures |r| == |edges|
  {
    seq(|edges|, i requires 0 <= i < |edges| => Row(edges[i].id, edges[i].runId, revision, edges[i]))
  }

  function HumanRows(requests: seq<HumanRequest>): (r: seq<Row<HumanRequest>>)
    ensures |r| == |requests|
  {
    seq(|requests|, i requires 0 <= i < |requests| => Row(requests[i].id, requests[i].runId, 0, requests[i]))
  }

  function ApprovalRows(requests: seq<ApprovalRequest>): (r: seq<Row<ApprovalRequest>>)
    ensures |r| == |requests|
  {
    seq(|requests|, i requires 0 <= i < |requests| => Row(requests[i].id, requests[i].runId, 0, requests[i]))
  }

  // ---------------------------------------------------------------- reads

  /** `get_graph`: the run, and its tasks and edges at the run's revision, in rowid order. */
  function GetGraph(st: Store, run: Name): Result<Graph> {
    if run !in st.runs then Err(UnknownKey)
    else
      var revision := st.runs[run].revision;
      var tasks := AtRevision(OfRun(st.tasks, run), revision);
      var edges := AtRevision(OfRun(st.edges, run), revision);
      if !ValidEdges(tasks, edges) then Err(InvalidValue) else Ok(Graph(st.runs[run], tasks, edges))
  }

  // ---------------------------------------------------------------- single saves

  /** UNIQUE(workflow_run_id, graph_revision, task_key) */
  predicate TaskConflict(rows: seq<Row<Task>>, r: Row<Task>) {
    exists i :: 0 <= i < |rows| && rows[i].id != r.id && rows[i].run == r.run && rows[i].revision == r.revision && rows[i].value.key == r.value.key
  }

  /** UNIQUE(task_id, attempt_number) */
  predicate AttemptConflict(rows: seq<Row<Attempt>>, a: Attempt) {
    exists i :: 0 <= i < |rows| && rows[i].id != a.id && rows[i].value.taskId == a.taskId && rows[i].value.number == a.number
  }

  /** `save_task` */
  function SaveTask(st: Store, t: Task): Result<Store> {
    var r := TaskRow(t, RevisionOf(st, t.runId));
    if TaskConflict(st.tasks, r) then Err(InvalidValue) else Ok(st.(tasks := Upsert(st.tasks, r)))
  }

  function SaveTasks(st: Store, tasks: seq<Task>): Result<Store> {
    if tasks == [] then Ok(st)
    else
      var rest := SaveTasks(st, tasks[..|tasks| - 1]);
      if rest.Err? then rest else SaveTask(rest.value, tasks[|tasks| - 1])
  }

  /** The run a stored task belongs to. */
  function RunOfTask(rows: seq<Row<Task>>, taskId: Name): Option<Name> {
    if rows == [] then None else if rows[0].id == taskId then Some(rows[0].run) else RunOfTask(rows[1..], taskId)
  }

  /** `_save_attempt` */
  function SaveAttempt(st: Store, a: Attempt): Result<Store> {
    var run := RunOfTask(st.tasks, a.taskId);
    if run.None? then Err(UnknownKey)
    else if AttemptConflict(st.attempts, a) then Err(InvalidValue)
    else Ok(st.(attempts := Upsert(st.attempts, Row(a.id, run.value, RevisionOf(st, run.value), a))))
  }

  function SaveAttempts(st: Store, attempts: seq<Attempt>): Result<Store> {
    if attempts == [] then Ok(st)
    else
      var rest := SaveAttempts(st, attempts[..|attempts| - 1]);
      if rest.Err? then rest else SaveAttempt(rest.value, attempts[|attempts| - 1])
  }

  /** `save_graph`, and the full branch of `save_runtime_state`: run, tasks and edges rewritten. */
  function RewriteGraph(st: Store, g: Graph): Result<Store> {
    var cleared := st.(runs := st.runs[g.run.id := g.run], tasks := DeleteRun(st.tasks, g.run.id));
    var saved := SaveTasks(cleared, g.tasks);
    if saved.Err? then saved
    else
      var work := saved.value;
      Ok(work.(edges := UpsertAll(DeleteRun(work.edges, g.run.id), EdgeRows(g.edges, g.run.revision))))
  }

  /** The incremental branch: the run record and every task, nothing deleted. */
  function UpdateRun(st: Store, run: Run, tasks: seq<Task>): Result<Store> {
    SaveTasks(st.(runs := st.runs[run.id := run]), tasks)
  }

  /** `save_runtime_state`: one transaction, rolled back as a whole when a statement raises. */
  function Transaction(st: Store, run: Run, tasks: seq<Task>, attempts: seq<Attempt>, humans: seq<HumanRequest>,
                            approvals: seq<ApprovalRequest>, graph: Option<Graph>): Result<Store> {
    var first := if graph.Some? then RewriteGraph(st, graph.value) else UpdateRun(st, run, tasks);
    if first.Err? then first
    else
      var second := SaveAttempts(first.value, attempts);
      if second.Err? then second
      else Ok(second.value.(humans := UpsertAll(second.value.humans, HumanRows(humans)),
                            approvals := UpsertAll(second.value.approvals, ApprovalRows(approvals))))
  }

  /** The repository object; `db` is the database file, and each method runs on a connection whose
      work is committed only on success. */
  class SQLiteWorkflowRepository {
    var db: Store

    constructor (db: Store)
      ensures this.db == db
    {
      this.db := db;
    }

    method ApplyTasks(work0: Store, tasks: seq<Task>) returns (r: Result<Store>)
      ensures r == SaveTasks(work0, tasks)
    {
      var work := work0;
      var i := 0;
      while i < |tasks|
        invariant 0 <= i <= |tasks| && SaveTasks(work0, tasks[..i]) == Ok(work)
      {
        assert tasks[..i + 1][..i] == tasks[..i];
        var saved := SaveTask(work, tasks[i]);
        if saved.Err? {
          SaveTasksStops(work0, tasks, i + 1);
          return saved;
        }
        work := saved.value;
        i := i + 1;
      }
      assert tasks[..i] == tasks;
      return Ok(work);
    }

    method ApplyAttempts(work0: Store, attempts: seq<Attempt>) returns (r: Result<Store>)
      ensures r == SaveAttempts(work0, attempts)
    {
      var work := work0;
      var i := 0;
      while i < |attempts|
        invariant 0 <= i <= |attempts| && SaveAttempts(work0, attempts[..i]) == Ok(work)
      {
        assert attempts[..i + 1][..i] == attempts[..i];
        var saved := SaveAttempt(work, attempts[i]);
        if saved.Err? {
          SaveAttemptsStops(work0, attempts, i + 1);
          return saved;
        }
        work := saved.value;
        i := i + 1;
      }
      assert attempts[..i] == attempts;
      return Ok(work);
    }

    /** The statements `save_graph` and the full branch of `save_runtime_state` share. */
    method ApplyGraph(work0: Store, g: Graph) returns (r: Result<Store>)
      ensures r == RewriteGraph(work0, g)
    {
      r := ApplyTasks(work0.(runs := work0.runs[g.run.id := g.run], tasks := DeleteRun(work0.tasks, g.run.id)), g.tasks);
      if r.Err? {
        return;
      }
      var work := r.value;
      r := Ok(work.(edges := UpsertAll(DeleteRun(work.edges, g.run.id), EdgeRows(g.edges, g.run.revision))));
    }

    method SaveGraph(g: Graph) returns (ok: bool)
      modifies this
      ensures var r := RewriteGraph(old(db), g); ok == r.Ok? && db == if ok then r.value else old(db)
    {
      var work := ApplyGraph(db, g);
      if work.Err? {
        return false;
      }
      db := work.value;
      return true;
    }

    method SaveRuntimeState(run: Run, tasks: seq<Task>, attempts: seq<Attempt>, humans: seq<HumanRequest>,
                            approvals: seq<ApprovalRequest>, graph: Option<Graph>) returns (ok: bool)
      modifies this
      ensures var r := Transaction(old(db), run, tasks, attempts, humans, approvals, graph);
              ok == r.Ok? && db == if ok then r.value else old(db)
    {
      var work: Result<Store>;
      if graph.Some? {
        work := ApplyGraph(db, graph.value);
      } else {
        work := ApplyTasks(db.(runs := db.runs[run.id := run]), tasks);
      }
      if work.Err? {
        return false;
      }
      work := ApplyAttempts(work.value, attempts);
      if work.Err? {
        return false;
      }
      db := work.value.(humans := UpsertAll(work.value.humans, HumanRows(humans)),
                        approvals := UpsertAll(work.value.approvals, ApprovalRows(approvals)));
      return true;
    }
  }

  lemma {:induction false} SaveTasksStops(st: Store, tasks: seq<Task>, i: nat)
    requires i <= |tasks| && SaveTasks(st, tasks[..i]).Err?
    ensures SaveTasks(st, tasks) == SaveTasks(st, tasks[..i])
    decreases |tasks|
  {
    if i < |tasks| {
      assert tasks[..|tasks| - 1][..i] == tasks[..i];
      SaveTasksStops(st, tasks[..|tasks| - 1], i);
    } else {
      assert tasks[..i] == tasks;
    }
  }

  lemma {:induction false} SaveAttemptsStops(st: Store, attempts: seq<Attempt>, i: nat)
    requires i <= |attempts| && SaveAttempts(st, attempts[..i]).Err?
    ensures SaveAttempts(st, attempts) == SaveAttempts(st, attempts[..i])
    decreases |attempts|
  {
    if i < |attempts| {
      assert attempts[..|attempts| - 1][..i] == attempts[..i];
      SaveAttemptsStops(st, attempts[..|attempts| - 1], i);
    } else {
      assert attempts[..i] == attempts;
    }
  }

  // ---------------------------------------------------------------- saves that cannot conflict

  /** No two tasks of the batch share a key, and no other row of the run at this revision has one
      of their keys. */
  ghost predicate KeysFree(rows: seq<Row<Task>>, tasks: seq<Task>, run: Name, revision: int) {
    && (forall i, j | 0 <= i < j < |tasks| :: tasks[i].key != tasks[j].key && tasks[i].id != tasks[j].id)
    && (forall k, i | 0 <= k < |rows| && 0 <= i < |tasks| && rows[k].run == run && rows[k].revision == revision
          && rows[k].value.key == tasks[i].key :: rows[k].id == tasks[i].id)
  }

  lemma {:induction false} UpsertAllRows<T>(rows: seq<Row<T>>, items: seq<Row<T>>, i: nat)
    requires i < |UpsertAll(rows, items)|
    ensures UpsertAll(rows, items)[i] in rows || UpsertAll(rows, items)[i] in items
  {
    if items == [] {
    } else {
      var n := |items| - 1;
      UpsertRows(UpsertAll(rows, items[..n]), items[n], i);
      if UpsertAll(rows, items)[i] != items[n] {
        UpsertAllRows(rows, items[..n], i);
        if UpsertAll(rows, items)[i] in items[..n] {
          assert items == items[..n] + [items[n]];
        }
      } else {
        assert items[n] in items;
      }
    }
  }

  /** With free keys every `save_task` of a batch succeeds, and together they upsert the rows. */
  lemma {:induction false} SaveTasksIs(st: Store, tasks: seq<Task>, run: Name)
    requires forall i | 0 <= i < |tasks| :: tasks[i].runId == run
    requires KeysFree(st.tasks, tasks, run, RevisionOf(st, run))
    ensures SaveTasks(st, tasks) == Ok(st.(tasks := UpsertAll(st.tasks, TaskRows(tasks, RevisionOf(st, run)))))
  {
    if tasks != [] {
      var n := |tasks| - 1;
      var revision := RevisionOf(st, run);
      SaveTasksIs(st, tasks[..n], run);
      assert TaskRows(tasks, revision)[..n] == TaskRows(tasks[..n], revision);
      NoTaskConflict(st.tasks, tasks, run, revision);
    } else {
      assert TaskRows(tasks, RevisionOf(st, run)) == [];
    }
  }

  lemma NoTaskConflict(rows: seq<Row<Task>>, tasks: seq<Task>, run: Name, revision: int)
    requires tasks != [] && KeysFree(rows, tasks, run, revision) && forall i | 0 <= i < |tasks| :: tasks[i].runId == run
    ensures !TaskConflict(UpsertAll(rows, TaskRows(tasks[..|tasks| - 1], revision)), TaskRow(tasks[|tasks| - 1], revision))
  {
    var n := |tasks| - 1;
    var mid := UpsertAll(rows, TaskRows(tasks[..n], revision));
    forall k | 0 <= k < |mid| && mid[k].run == run && mid[k].revision == revision && mid[k].value.key == tasks[n].key
      ensures mid[k].id == tasks[n].id
    {
      UpsertAllRows(rows, TaskRows(tasks[..n], revision), k);
      if mid[k] in rows {
        var j :| 0 <= j < |rows| && rows[j] == mid[k];
      }
    }
  }

  function AttemptRows(attempts: seq<Attempt>, run: Name, revision: int): (r: seq<Row<Attempt>>)
    ensures |r| == |attempts|
  {
    seq(|attempts|, i requires 0 <= i < |attempts| => Row(attempts[i].id, run, revision, attempts[i]))
  }

  /** Every attempt of the batch belongs to a stored task of the run, and none takes the (task,
      number) of another attempt, stored or in the batch. */
  ghost predicate SlotsFree(st: Store, attempts: seq<Attempt>, run: Name) {
    && (forall i | 0 <= i < |attempts| :: RunOfTask(st.tasks, attempts[i].taskId) == Some(run))
    && (forall i, j | 0 <= i < j < |attempts| :: attempts[i].taskId != attempts[j].taskId || attempts[i].number != attempts[j].number)
    && (forall k, i | 0 <= k < |st.attempts| && 0 <= i < |attempts| && st.attempts[k].value.taskId == attempts[i].taskId
          && st.attempts[k].value.number == attempts[i].number :: st.attempts[k].id == attempts[i].id)
  }

  lemma {:induction false} SaveAttemptsIs(st: Store, attempts: seq<Attempt>, run: Name)
    requires SlotsFree(st, attempts, run)
    ensures SaveAttempts(st, attempts)
         == Ok(st.(attempts := UpsertAll(st.attempts, AttemptRows(attempts, run, RevisionOf(st, run)))))
  {
    if attempts != [] {
      var n := |attempts| - 1;
      var revision := RevisionOf(st, run);
      SaveAttemptsIs(st, attempts[..n], run);
      assert AttemptRows(attempts, run, revision)[..n] == AttemptRows(attempts[..n], run, revision);
      NoAttemptConflict(st, attempts, run, revision);
    } else {
      assert AttemptRows(attempts, run, RevisionOf(st, run)) == [];
    }
  }

  lemma NoAttemptConflict(st: Store, attempts: seq<Attempt>, run: Name, revision: int)
    requires attempts != [] && SlotsFree(st, attempts, run)
    ensures var n := |attempts| - 1;
            !AttemptConflict(UpsertAll(st.attempts, AttemptRows(attempts[..n], run, revision)), attempts[n])
  {
    var n := |attempts| - 1;
    var mid := UpsertAll(st.attempts, AttemptRows(attempts[..n], run, revision));
    forall k | 0 <= k < |mid| && mid[k].value.taskId == attempts[n].taskId && mid[k].value.number == attempts[n].number
      ensures mid[k].id == attempts[n].id
    {
      UpsertAllRows(st.attempts, AttemptRows(attempts[..n], run, revision), k);
      if mid[k] in st.attempts {
        var j :| 0 <= j < |st.attempts| && st.attempts[j] == mid[k];
      }
    }
  }

  lemma {:induction false} RunOfTaskIs(rows: seq<Row<Task>>, taskId: Name, run: Name)
    requires Mine(rows, taskId, run) && exists i :: 0 <= i < |rows| && rows[i].id == taskId
    ensures RunOfTask(rows, taskId) == Some(run)
  {
    if rows[0].id != taskId {
      var i :| 0 <= i < |rows| && rows[i].id == taskId;
      assert rows[1..][i - 1] == rows[i];
      RunOfTaskIs(rows[1..], taskId, run);
    }
  }
}
