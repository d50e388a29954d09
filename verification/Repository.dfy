/** `InMemoryWorkflowRepository` (storage/repositories.py): many index dictionaries that must tell
    one story. */
module Repository {
  import opened Names
  import opened Wrappers
  import opened Sequences
  import opened Digraph
  import opened Records
  import opened DependencyGraph

  // ---------------------------------------------------------------- records listed by run

  /** Records by id, and the ids filed under each run. */
  datatype Shelf<T> = Shelf(records: map<Name, T>, byRun: map<Name, seq<Name>>)

  function IdsUnder(index: map<Name, seq<Name>>, k: Name): seq<Name> {
    if k in index then index[k] else []
  }

  /** Append an id under a key unless it is there. */
  function File(index: map<Name, seq<Name>>, k: Name, id: Name): map<Name, seq<Name>> {
    index[k := if id in IdsUnder(index, k) then IdsUnder(index, k) else IdsUnder(index, k) + [id]]
  }

  /** The records a list of ids still leads to. */
  function Found<T>(records: map<Name, T>, ids: seq<Name>): seq<T> {
    if ids == [] then []
    else Found(records, ids[..|ids| - 1]) + if ids[|ids| - 1] in records then [records[ids[|ids| - 1]]] else []
  }

  function ListRun<T>(shelf: Shelf<T>, run: Name): seq<T> {
    Found(shelf.records, IdsUnder(shelf.byRun, run))
  }

  function Put<T>(shelf: Shelf<T>, run: Name, id: Name, record: T): Shelf<T> {
    Shelf(shelf.records[id := record], File(shelf.byRun, run, id))
  }

  function Members(ids: seq<Name>): (r: set<Name>)
    ensures r == Elements(ids)
  {
    set x | x in ids
  }

  function DropRun<T>(shelf: Shelf<T>, run: Name): Shelf<T> {
    Shelf(shelf.records - Members(IdsUnder(shelf.byRun, run)), shelf.byRun - {run})
  }

  /** No id is filed under two keys. */
  ghost predicate Exclusive(index: map<Name, seq<Name>>) {
    forall a, b, x | a in index && b in index && x in index[a] && x in index[b] :: a == b
  }

  lemma FileMembers(index: map<Name, seq<Name>>, k: Name, id: Name, a: Name, x: Name)
    ensures x in IdsUnder(File(index, k, id), a) <==> x in IdsUnder(index, a) || (a == k && x == id)
  {
  }

  /** Filing keeps the index exclusive exactly when the id is not filed elsewhere. */
  lemma FileExclusiveIff(index: map<Name, seq<Name>>, k: Name, id: Name)
    requires Exclusive(index)
    ensures Exclusive(File(index, k, id)) <==> forall a | a in index && id in index[a] :: a == k
  {
    var after := File(index, k, id);
    forall a, x ensures x in IdsUnder(after, a) <==> x in IdsUnder(index, a) || (a == k && x == id) {
      FileMembers(index, k, id, a, x);
    }
    if Exclusive(after) {
      forall a | a in index && id in index[a] ensures a == k {
        assert id in IdsUnder(after, a) && id in IdsUnder(after, k);
      }
    }
    if forall a | a in index && id in index[a] :: a == k {
      forall a, b, x | a in after && b in after && x in after[a] && x in after[b] ensures a == b {
        assert x in IdsUnder(after, a) && x in IdsUnder(after, b);
      }
    }
  }

  lemma {:induction false} FoundSame<T>(m: map<Name, T>, n: map<Name, T>, ids: seq<Name>)
    requires forall x | x in ids :: (x in m <==> x in n) && (x in m ==> m[x] == n[x])
    ensures Found(m, ids) == Found(n, ids)
  {
    if ids != [] {
      FoundSame(m, n, ids[..|ids| - 1]);
    }
  }

  /** Saving a record changes no other run's list, and puts the record on its own. */
  lemma PutReads<T>(shelf: Shelf<T>, run: Name, id: Name, record: T, other: Name)
    requires Exclusive(shelf.byRun) && (forall a | a in shelf.byRun && id in shelf.byRun[a] :: a == run)
    ensures other != run ==> ListRun(Put(shelf, run, id, record), other) == ListRun(shelf, other)
    ensures id in IdsUnder(Put(shelf, run, id, record).byRun, run) && Put(shelf, run, id, record).records[id] == record
  {
    if other != run {
      FoundSame(shelf.records, Put(shelf, run, id, record).records, IdsUnder(shelf.byRun, other));
    }
  }

  /** Dropping a run empties its list and leaves the others. */
  lemma DropReads<T>(shelf: Shelf<T>, run: Name, other: Name)
    requires Exclusive(shelf.byRun)
    ensures ListRun(DropRun(shelf, run), run) == []
    ensures other != run ==> ListRun(DropRun(shelf, run), other) == ListRun(shelf, other)
    ensures Exclusive(DropRun(shelf, run).byRun)
  {
    if other != run {
      FoundSame(shelf.records, DropRun(shelf, run).records, IdsUnder(shelf.byRun, other));
    }
  }

  // ---------------------------------------------------------------- the repository as a value

  datatype Repo = Repo(
    graphs: map<Name, Graph>, order: seq<Name>,
    tasks: map<Name, Task>, taskToRun: map<Name, Name>, keyIndex: map<(Name, Name), Name>,
    attempts: Shelf<Attempt>, humans: Shelf<HumanRequest>, approvals: Shelf<ApprovalRequest>, events: Shelf<Event>,
    artifacts: Shelf<Artifact>, artifactsByTask: map<Name, seq<Name>>)

  function GraphOf(s: Repo, run: Name): Result<Graph> {
    if run in s.graphs then Ok(s.graphs[run]) else Err(UnknownKey)
  }

  function TaskOf(s: Repo, id: Name): Result<Task> {
    if id in s.tasks then Ok(s.tasks[id]) else Err(UnknownKey)
  }

  function TaskByKey(s: Repo, run: Name, key: Name): Result<Task> {
    if (run, key) in s.keyIndex then TaskOf(s, s.keyIndex[(run, key)]) else Err(UnknownKey)
  }

  function Register(s: Repo, run: Name, t: Task): Repo {
    s.(tasks := s.tasks[t.id := t], taskToRun := s.taskToRun[t.id := run], keyIndex := s.keyIndex[(run, t.key) := t.id])
  }

  function RegisterAll(s: Repo, run: Name, tasks: seq<Task>): Repo {
    if tasks == [] then s else Register(RegisterAll(s, run, tasks[..|tasks| - 1]), run, tasks[|tasks| - 1])
  }

  /** `save_graph` */
  function SaveGraph(s: Repo, g: Graph): Repo {
    RegisterAll(s.(graphs := s.graphs[g.run.id := g],
                   order := if g.run.id in s.order then s.order else s.order + [g.run.id]), g.run.id, g.tasks)
  }

  function Replaced(tasks: seq<Task>, t: Task): (r: seq<Task>)
    ensures |r| == |tasks|
  {
    seq(|tasks|, i requires 0 <= i < |tasks| => if tasks[i].id != t.id then tasks[i] else t)
  }

  /** `save_task`: the run's graph follows when there is one. */
  function SaveTask(s: Repo, t: Task): Repo {
    var u := Register(s, t.runId, t);
    if t.runId !in s.graphs then u
    else
      var g := s.graphs[t.runId];
      var tasks := Replaced(g.tasks, t) + if t.id in TaskIds(g.tasks) then [] else [t];
      u.(graphs := u.graphs[t.runId := g.(tasks := tasks)])
  }

  // ---------------------------------------------------------------- agreement

  /** Every task is filed under its run and its key, and the key index holds nothing else. */
  ghost predicate KeysExact(tasks: map<Name, Task>, taskToRun: map<Name, Name>, keyIndex: map<(Name, Name), Name>) {
    && tasks.Keys == taskToRun.Keys
    && (forall x | x in tasks ::
          && tasks[x].id == x && tasks[x].runId == taskToRun[x]
          && (taskToRun[x], tasks[x].key) in keyIndex && keyIndex[(taskToRun[x], tasks[x].key)] == x)
    && (forall p | p in keyIndex :: keyIndex[p] in tasks && taskToRun[keyIndex[p]] == p.0 && tasks[keyIndex[p]].key == p.1)
  }

  /** A stored graph holds exactly the tasks registered to its run. */
  ghost predicate GraphExact(r: Name, g: Graph, tasks: map<Name, Task>, taskToRun: map<Name, Name>) {
    && g.run.id == r && Distinct(TaskIds(g.tasks))
    && (forall i | 0 <= i < |g.tasks| ::
          g.tasks[i].id in tasks && tasks[g.tasks[i].id] == g.tasks[i] && g.tasks[i].id in taskToRun && taskToRun[g.tasks[i].id] == r)
    && (forall x | x in taskToRun && taskToRun[x] == r :: x in TaskIds(g.tasks))
  }

  ghost predicate TasksAgree(s: Repo) {
    && KeysExact(s.tasks, s.taskToRun, s.keyIndex)
    && (forall r | r in s.graphs :: GraphExact(r, s.graphs[r], s.tasks, s.taskToRun))
  }

  /** A list of a run holds artifacts of that run, a list of a task artifacts of that task. */
  ghost predicate ArtifactsAgree(s: Repo) {
    && Exclusive(s.artifacts.byRun)
    && (forall r, x | r in s.artifacts.byRun && x in s.artifacts.byRun[r] :: x in s.artifacts.records && s.artifacts.records[x].runId == r)
    && (forall t, x | t in s.artifactsByTask && x in s.artifactsByTask[t] && x in s.artifacts.records :: s.artifacts.records[x].taskId == t)
    && (forall x | x in s.artifacts.records && s.artifacts.records[x].taskId in s.taskToRun ::
          s.taskToRun[s.artifacts.records[x].taskId] == s.artifacts.records[x].runId)
  }

  ghost predicate Agrees(s: Repo) {
    && TasksAgree(s) && Distinct(s.order) && Elements(s.order) == s.graphs.Keys
    && Exclusive(s.attempts.byRun) && Exclusive(s.humans.byRun) && Exclusive(s.approvals.byRun) && Exclusive(s.events.byRun)
    && ArtifactsAgree(s)
  }

  lemma KeyAt(tasks: seq<Task>, x: Name) returns (i: nat)
    requires x in TaskIds(tasks)
    ensures i < |tasks| && tasks[i].id == x
  {
    i :| 0 <= i < |tasks| && TaskIds(tasks)[i] == x;
  }

  /** The three ways to read a task tell the same story. */
  lemma ReadsAgree(s: Repo, run: Name, t: Task)
    requires TasksAgree(s) && run in s.graphs
    ensures t in s.graphs[run].tasks <==> TaskOf(s, t.id) == Ok(t) && s.taskToRun[t.id] == run
    ensures t in s.graphs[run].tasks <==> TaskByKey(s, run, t.key) == Ok(t)
  {
    assert GraphExact(run, s.graphs[run], s.tasks, s.taskToRun);
    if t.id in s.tasks && s.tasks[t.id] == t && s.taskToRun[t.id] == run {
      var i := KeyAt(s.graphs[run].tasks, t.id);
      assert s.graphs[run].tasks[i] == t;
    }
    if t in s.graphs[run].tasks {
      var i :| 0 <= i < |s.graphs[run].tasks| && s.graphs[run].tasks[i] == t;
    }
  }

  // ---------------------------------------------------------------- when saves keep agreement

  /** A task may be saved when its id and key are both new to the store, or already belong
      together in its run. */
  ghost predicate TaskFits(s: Repo, t: Task) {
    && (t.id in s.tasks ==> t.id in s.taskToRun && s.taskToRun[t.id] == t.runId && s.tasks[t.id].key == t.key)
    && ((t.runId, t.key) in s.keyIndex ==> s.keyIndex[(t.runId, t.key)] == t.id)
  }

  /** A task is filed under its run and its key, and its key leads back to it. */
  ghost predicate TaskEntry(s: Repo, x: Name) {
    && x in s.tasks && x in s.taskToRun && s.tasks[x].id == x && s.tasks[x].runId == s.taskToRun[x]
    && (s.taskToRun[x], s.tasks[x].key) in s.keyIndex && s.keyIndex[(s.taskToRun[x], s.tasks[x].key)] == x
  }

  lemma RegisteredEntry(s: Repo, t: Task, x: Name)
    requires TaskFits(s, t) && (x == t.id || TaskEntry(s, x))
    ensures TaskEntry(Register(s, t.runId, t), x)
  {
  }

  lemma RegisterKeeps(s: Repo, t: Task)
    requires KeysExact(s.tasks, s.taskToRun, s.keyIndex) && TaskFits(s, t)
    ensures var u := Register(s, t.runId, t); KeysExact(u.tasks, u.taskToRun, u.keyIndex)
  {
    var u := Register(s, t.runId, t);
    forall x | x in u.tasks ensures TaskEntry(u, x) {
      RegisteredEntry(s, t, x);
    }
    assert u.tasks.Keys == u.taskToRun.Keys;
  }

  lemma RegisterNeeds(s: Repo, t: Task)
    requires KeysExact(s.tasks, s.taskToRun, s.keyIndex)
    requires var u := Register(s, t.runId, t); KeysExact(u.tasks, u.taskToRun, u.keyIndex)
    ensures TaskFits(s, t)
  {
    var u := Register(s, t.runId, t);
    if t.id in s.tasks {
      var p := (s.taskToRun[t.id], s.tasks[t.id].key);
      assert p in u.keyIndex && u.keyIndex[p] == t.id;
    }
    if (t.runId, t.key) in s.keyIndex {
      var y := s.keyIndex[(t.runId, t.key)];
      assert u.taskToRun[y] == t.runId && u.tasks[y].key == t.key;
      assert u.keyIndex[(u.taskToRun[y], u.tasks[y].key)] == y;
    }
  }

  lemma ReplacedIds(tasks: seq<Task>, t: Task)
    ensures TaskIds(Replaced(tasks, t)) == TaskIds(tasks)
  {
  }

  lemma SavedTasks(tasks: seq<Task>, t: Task)
    requires Distinct(TaskIds(tasks))
    ensures var after := Replaced(tasks, t) + if t.id in TaskIds(tasks) then [] else [t];
            && Distinct(TaskIds(after)) && Elements(TaskIds(after)) == Elements(TaskIds(tasks)) + {t.id}
            && forall i | 0 <= i < |after| :: after[i] == t || (after[i].id != t.id && i < |tasks| && after[i] == tasks[i])
  {
    ReplacedIds(tasks, t);
    var after := Replaced(tasks, t) + if t.id in TaskIds(tasks) then [] else [t];
    if t.id in TaskIds(tasks) {
      assert after == Replaced(tasks, t);
    } else {
      assert TaskIds(after) == TaskIds(tasks) + [t.id];
      ElementsAppend(TaskIds(tasks), [t.id]);
      DistinctAppend(TaskIds(tasks), [t.id]);
    }
  }

  lemma SaveTaskGraph(s: Repo, t: Task)
    requires TasksAgree(s) && TaskFits(s, t) && t.runId in s.graphs
    ensures var u := SaveTask(s, t); GraphExact(t.runId, u.graphs[t.runId], u.tasks, u.taskToRun)
  {
    hide KeysExact, Distinct, Replaced;
    var g := s.graphs[t.runId];
    assert GraphExact(t.runId, g, s.tasks, s.taskToRun);
    SavedTasks(g.tasks, t);
    var u := SaveTask(s, t);
    var after := u.graphs[t.runId].tasks;
    forall i | 0 <= i < |after|
      ensures after[i].id in u.tasks && u.tasks[after[i].id] == after[i] && after[i].id in u.taskToRun && u.taskToRun[after[i].id] == t.runId
    {
      if after[i] != t {
        assert after[i] == g.tasks[i];
      }
    }
    forall x | x in u.taskToRun && u.taskToRun[x] == t.runId ensures x in TaskIds(u.graphs[t.runId].tasks) {
      assert x in Elements(TaskIds(g.tasks)) + {t.id};
      assert x in Elements(TaskIds(u.graphs[t.runId].tasks));
    }
  }

  lemma SaveTaskOther(s: Repo, t: Task, r: Name)
    requires TasksAgree(s) && TaskFits(s, t) && r in s.graphs && r != t.runId
    ensures var u := SaveTask(s, t); r in u.graphs && u.graphs[r] == s.graphs[r] && GraphExact(r, u.graphs[r], u.tasks, u.taskToRun)
  {
    assert GraphExact(r, s.graphs[r], s.tasks, s.taskToRun);
  }

  /** `save_task` keeps every index in agreement exactly when the task fits. */
  lemma SaveTaskAgreesIff(s: Repo, t: Task)
    requires TasksAgree(s)
    ensures TasksAgree(SaveTask(s, t)) <==> TaskFits(s, t)
  {
    hide KeysExact, GraphExact, TaskFits;
    var u := SaveTask(s, t);
    if KeysExact(u.tasks, u.taskToRun, u.keyIndex) {
      RegisterNeeds(s, t);
    }
    if TaskFits(s, t) {
      RegisterKeeps(s, t);
      forall r | r in u.graphs ensures GraphExact(r, u.graphs[r], u.tasks, u.taskToRun) {
        if r == t.runId {
          SaveTaskGraph(s, t);
        } else {
          SaveTaskOther(s, t, r);
        }
      }
    }
  }

  // ---------------------------------------------------------------- saving a whole graph

  lemma {:induction false} RegisterAllKeeps(s: Repo, run: Name, tasks: seq<Task>)
    ensures var u := RegisterAll(s, run, tasks);
            u == s.(tasks := u.tasks, taskToRun := u.taskToRun, keyIndex := u.keyIndex)
  {
    if tasks != [] {
      RegisterAllKeeps(s, run, tasks[..|tasks| - 1]);
    }
  }

  lemma {:induction false} RegisterAllIds(s: Repo, run: Name, tasks: seq<Task>, x: Name)
    ensures var u := RegisterAll(s, run, tasks);
            && (x in u.tasks <==> x in s.tasks || x in TaskIds(tasks))
            && (x in u.taskToRun <==> x in s.taskToRun || x in TaskIds(tasks))
            && (x in TaskIds(tasks) ==> u.taskToRun[x] == run && u.tasks[x] in tasks && u.tasks[x].id == x)
            && (x !in TaskIds(tasks) && x in s.taskToRun ==> u.taskToRun[x] == s.taskToRun[x])
            && (x !in TaskIds(tasks) && x in s.tasks ==> u.tasks[x] == s.tasks[x])
  {
    if tasks != [] {
      var n := |tasks| - 1;
      RegisterAllIds(s, run, tasks[..n], x);
      assert TaskIds(tasks) == TaskIds(tasks[..n]) + [tasks[n].id];
    }
  }

  lemma {:induction false} RegisterAllKeys(s: Repo, run: Name, tasks: seq<Task>, p: (Name, Name))
    ensures var u := RegisterAll(s, run, tasks);
            && (p in u.keyIndex <==> p in s.keyIndex || (p.0 == run && p.1 in TaskKeys(tasks)))
            && (p.0 == run && p.1 in TaskKeys(tasks) ==> exists t :: t in tasks && t.key == p.1 && t.id == u.keyIndex[p])
            && (!(p.0 == run && p.1 in TaskKeys(tasks)) && p in s.keyIndex ==> u.keyIndex[p] == s.keyIndex[p])
  {
    if tasks != [] {
      var n := |tasks| - 1;
      RegisterAllKeys(s, run, tasks[..n], p);
      assert TaskKeys(tasks) == TaskKeys(tasks[..n]) + [tasks[n].key];
      if p == (run, tasks[n].key) {
        assert tasks[n] in tasks;
      }
    }
  }

  /** A graph may be saved when its ids and keys are unique, its tasks are its own, none belongs to
      another run, and no task or key its run already has is dropped. */
  ghost predicate GraphFits(s: Repo, g: Graph) {
    && Distinct(TaskIds(g.tasks)) && Distinct(TaskKeys(g.tasks))
    && (forall i | 0 <= i < |g.tasks| :: g.tasks[i].runId == g.run.id)
    && (forall x | x in TaskIds(g.tasks) && x in s.taskToRun :: s.taskToRun[x] == g.run.id)
    && (forall x | x in s.taskToRun && s.taskToRun[x] == g.run.id :: x in TaskIds(g.tasks))
    && (forall p | p in s.keyIndex && p.0 == g.run.id :: p.1 in TaskKeys(g.tasks))
  }

  lemma UniqueId(tasks: seq<Task>, a: Task, b: Task)
    requires Distinct(TaskIds(tasks)) && a in tasks && b in tasks && a.id == b.id
    ensures a == b
  {
    var i :| 0 <= i < |tasks| && tasks[i] == a;
    var j :| 0 <= j < |tasks| && tasks[j] == b;
    assert TaskIds(tasks)[i] == TaskIds(tasks)[j];
  }

  lemma UniqueKey(tasks: seq<Task>, a: Task, b: Task)
    requires Distinct(TaskKeys(tasks)) && a in tasks && b in tasks && a.key == b.key
    ensures a == b
  {
    var i :| 0 <= i < |tasks| && tasks[i] == a;
    var j :| 0 <= j < |tasks| && tasks[j] == b;
    assert TaskKeys(tasks)[i] == TaskKeys(tasks)[j];
  }

  lemma HasIdAndKey(tasks: seq<Task>, t: Task)
    requires t in tasks
    ensures t.id in TaskIds(tasks) && t.key in TaskKeys(tasks)
  {
    var i :| 0 <= i < |tasks| && tasks[i] == t;
    assert TaskIds(tasks)[i] == t.id && TaskKeys(tasks)[i] == t.key;
  }

  lemma OwnRunId(g: Graph, t: Task)
    requires t in g.tasks && forall i | 0 <= i < |g.tasks| :: g.tasks[i].runId == g.run.id
    ensures t.runId == g.run.id
  {
  }

  /** A task of the saved graph is indexed under its own run and key. */
  lemma SavedTaskIndexed(s: Repo, g: Graph, x: Name)
    requires GraphFits(s, g) && x in TaskIds(g.tasks)
    ensures var u := RegisterAll(s, g.run.id, g.tasks);
            && x in u.tasks && x in u.taskToRun && u.tasks[x].runId == g.run.id && u.taskToRun[x] == g.run.id && u.tasks[x].id == x
            && u.tasks[x] in g.tasks
            && (g.run.id, u.tasks[x].key) in u.keyIndex && u.keyIndex[(g.run.id, u.tasks[x].key)] == x
  {
    hide Distinct, RegisterAll;
    var u := RegisterAll(s, g.run.id, g.tasks);
    RegisterAllIds(s, g.run.id, g.tasks, x);
    OwnRunId(g, u.tasks[x]);
    HasIdAndKey(g.tasks, u.tasks[x]);
    var p := (g.run.id, u.tasks[x].key);
    RegisterAllKeys(s, g.run.id, g.tasks, p);
    var t :| t in g.tasks && t.key == p.1 && t.id == u.keyIndex[p];
    UniqueKey(g.tasks, t, u.tasks[x]);
  }

  lemma SavedKeysExact(s: Repo, g: Graph)
    requires KeysExact(s.tasks, s.taskToRun, s.keyIndex) && GraphFits(s, g)
    ensures var u := RegisterAll(s, g.run.id, g.tasks); KeysExact(u.tasks, u.taskToRun, u.keyIndex)
  {
    hide Distinct, RegisterAll;
    var u := RegisterAll(s, g.run.id, g.tasks);
    forall x ensures x in u.tasks <==> x in u.taskToRun {
      RegisterAllIds(s, g.run.id, g.tasks, x);
    }
    assert u.tasks.Keys == u.taskToRun.Keys;
    forall x | x in u.tasks
      ensures && u.tasks[x].id == x && u.tasks[x].runId == u.taskToRun[x]
              && (u.taskToRun[x], u.tasks[x].key) in u.keyIndex && u.keyIndex[(u.taskToRun[x], u.tasks[x].key)] == x
    {
      RegisterAllIds(s, g.run.id, g.tasks, x);
      if x in TaskIds(g.tasks) {
        SavedTaskIndexed(s, g, x);
      } else {
        RegisterAllKeys(s, g.run.id, g.tasks, (s.taskToRun[x], s.tasks[x].key));
      }
    }
    forall p | p in u.keyIndex ensures u.keyIndex[p] in u.tasks && u.taskToRun[u.keyIndex[p]] == p.0 && u.tasks[u.keyIndex[p]].key == p.1 {
      SavedKey(s, g, p);
    }
  }

  lemma SavedKey(s: Repo, g: Graph, p: (Name, Name))
    requires KeysExact(s.tasks, s.taskToRun, s.keyIndex) && GraphFits(s, g)
    requires p in RegisterAll(s, g.run.id, g.tasks).keyIndex
    ensures var u := RegisterAll(s, g.run.id, g.tasks);
            && u.keyIndex[p] in u.tasks && u.keyIndex[p] in u.taskToRun
            && u.taskToRun[u.keyIndex[p]] == p.0 && u.tasks[u.keyIndex[p]].key == p.1
  {
    hide Distinct, RegisterAll;
    var u := RegisterAll(s, g.run.id, g.tasks);
    RegisterAllKeys(s, g.run.id, g.tasks, p);
    RegisterAllIds(s, g.run.id, g.tasks, u.keyIndex[p]);
    if p.0 == g.run.id && p.1 in TaskKeys(g.tasks) {
      var t :| t in g.tasks && t.key == p.1 && t.id == u.keyIndex[p];
      HasIdAndKey(g.tasks, t);
      UniqueId(g.tasks, t, u.tasks[t.id]);
    }
  }

  lemma SaveGraphKeeps(s: Repo, g: Graph)
    requires TasksAgree(s) && GraphFits(s, g)
    ensures TasksAgree(SaveGraph(s, g))
  {
    hide Distinct, RegisterAll, KeysExact;
    var base := s.(graphs := s.graphs[g.run.id := g], order := if g.run.id in s.order then s.order else s.order + [g.run.id]);
    var u := SaveGraph(s, g);
    RegisterAllKeeps(base, g.run.id, g.tasks);
    SavedKeysExact(base, g);
    forall r | r in u.graphs ensures GraphExact(r, u.graphs[r], u.tasks, u.taskToRun) {
      if r == g.run.id {
        SavedGraphExact(base, g);
      } else {
        OtherGraphExact(base, g, r);
      }
    }
  }

  lemma SavedGraphExact(s: Repo, g: Graph)
    requires GraphFits(s, g)
    ensures var u := RegisterAll(s, g.run.id, g.tasks); GraphExact(g.run.id, g, u.tasks, u.taskToRun)
  {
    hide RegisterAll;
    var u := RegisterAll(s, g.run.id, g.tasks);
    forall i | 0 <= i < |g.tasks|
      ensures g.tasks[i].id in u.tasks && u.tasks[g.tasks[i].id] == g.tasks[i] && g.tasks[i].id in u.taskToRun && u.taskToRun[g.tasks[i].id] == g.run.id
    {
      HasIdAndKey(g.tasks, g.tasks[i]);
      SavedTaskIndexed(s, g, g.tasks[i].id);
      UniqueId(g.tasks, g.tasks[i], u.tasks[g.tasks[i].id]);
    }
    forall x | x in u.taskToRun && u.taskToRun[x] == g.run.id ensures x in TaskIds(g.tasks) {
      RegisterAllIds(s, g.run.id, g.tasks, x);
    }
  }

  lemma OtherGraphExact(s: Repo, g: Graph, r: Name)
    requires GraphFits(s, g) && r in s.graphs && r != g.run.id && GraphExact(r, s.graphs[r], s.tasks, s.taskToRun)
    ensures var u := RegisterAll(s, g.run.id, g.tasks); GraphExact(r, s.graphs[r], u.tasks, u.taskToRun)
  {
    hide RegisterAll, Distinct;
    var u := RegisterAll(s, g.run.id, g.tasks);
    var h := s.graphs[r];
    forall i | 0 <= i < |h.tasks|
      ensures h.tasks[i].id in u.tasks && u.tasks[h.tasks[i].id] == h.tasks[i] && h.tasks[i].id in u.taskToRun && u.taskToRun[h.tasks[i].id] == r
    {
      RegisterAllIds(s, g.run.id, g.tasks, h.tasks[i].id);
    }
    forall x | x in u.taskToRun && u.taskToRun[x] == r ensures x in TaskIds(h.tasks) {
      RegisterAllIds(s, g.run.id, g.tasks, x);
    }
  }

  lemma SaveGraphNeeds(s: Repo, g: Graph)
    requires TasksAgree(s) && TasksAgree(SaveGraph(s, g))
    ensures GraphFits(s, g)
  {
    hide RegisterAll, Distinct;
    var base := s.(graphs := s.graphs[g.run.id := g], order := if g.run.id in s.order then s.order else s.order + [g.run.id]);
    var u := SaveGraph(s, g);
    RegisterAllKeeps(base, g.run.id, g.tasks);
    assert u.graphs == base.graphs;
    assert g.run.id in u.graphs && u.graphs[g.run.id] == g;
    assert GraphExact(g.run.id, g, u.tasks, u.taskToRun);
    forall x | x in TaskIds(g.tasks) && x in s.taskToRun ensures s.taskToRun[x] == g.run.id {
      RegisterAllIds(base, g.run.id, g.tasks, x);
      RegisterAllKeys(base, g.run.id, g.tasks, (s.taskToRun[x], s.tasks[x].key));
    }
    forall x | x in s.taskToRun && s.taskToRun[x] == g.run.id ensures x in TaskIds(g.tasks) {
      RegisterAllIds(base, g.run.id, g.tasks, x);
    }
    forall p | p in s.keyIndex && p.0 == g.run.id ensures p.1 in TaskKeys(g.tasks) {
      RegisterAllKeys(base, g.run.id, g.tasks, p);
      var i := KeyAt(g.tasks, u.keyIndex[p]);
      assert TaskKeys(g.tasks)[i] == p.1;
    }
    DistinctKeysNeeded(g, u);
  }

  lemma DistinctKeysNeeded(g: Graph, u: Repo)
    requires KeysExact(u.tasks, u.taskToRun, u.keyIndex) && GraphExact(g.run.id, g, u.tasks, u.taskToRun)
    ensures Distinct(TaskKeys(g.tasks)) && forall i | 0 <= i < |g.tasks| :: g.tasks[i].runId == g.run.id
  {
    forall i, j | 0 <= i < j < |TaskKeys(g.tasks)| ensures TaskKeys(g.tasks)[i] != TaskKeys(g.tasks)[j] {
      assert TaskIds(g.tasks)[i] != TaskIds(g.tasks)[j];
      assert u.keyIndex[(g.run.id, g.tasks[i].key)] == g.tasks[i].id && u.keyIndex[(g.run.id, g.tasks[j].key)] == g.tasks[j].id;
    }
  }

  /** `save_graph` keeps every index in agreement exactly when the graph fits. */
  lemma SaveGraphAgreesIff(s: Repo, g: Graph)
    requires TasksAgree(s)
    ensures TasksAgree(SaveGraph(s, g)) <==> GraphFits(s, g)
  {
    hide TasksAgree, SaveGraph, GraphFits;
    if GraphFits(s, g) {
      SaveGraphKeeps(s, g);
    }
    if TasksAgree(SaveGraph(s, g)) {
      SaveGraphNeeds(s, g);
    }
  }

  // ---------------------------------------------------------------- the other saves

  /** `save_attempt`: filed under the task's run, if the task is known. */
  function SaveAttempt(s: Repo, a: Attempt): Repo {
    if a.taskId in s.tasks then s.(attempts := Put(s.attempts, s.tasks[a.taskId].runId, a.id, a))
    else s.(attempts := s.attempts.(records := s.attempts.records[a.id := a]))
  }

  function SaveArtifact(s: Repo, a: Artifact): Repo {
    s.(artifacts := Put(s.artifacts, a.runId, a.id, a), artifactsByTask := File(s.artifactsByTask, a.taskId, a.id))
  }

  function ListTask(s: Repo, taskId: Name): seq<Artifact> {
    Found(s.artifacts.records, IdsUnder(s.artifactsByTask, taskId))
  }

  ghost predicate FiledOnlyUnder(index: map<Name, seq<Name>>, id: Name, k: Name) {
    forall a | a in index && id in index[a] :: a == k
  }

  /** An artifact may be saved when its id stays with one run and one task, and the task is not
      another run's. */
  ghost predicate ArtifactFits(s: Repo, a: Artifact) {
    && FiledOnlyUnder(s.artifacts.byRun, a.id, a.runId) && FiledOnlyUnder(s.artifactsByTask, a.id, a.taskId)
    && (a.taskId in s.taskToRun ==> s.taskToRun[a.taskId] == a.runId)
  }

  lemma SaveArtifactKeeps(s: Repo, a: Artifact)
    requires ArtifactsAgree(s) && ArtifactFits(s, a)
    ensures ArtifactsAgree(SaveArtifact(s, a))
  {
    hide Exclusive;
    FileExclusiveIff(s.artifacts.byRun, a.runId, a.id);
    var u := SaveArtifact(s, a);
    forall r, x | r in u.artifacts.byRun && x in u.artifacts.byRun[r] ensures x in u.artifacts.records && u.artifacts.records[x].runId == r {
      FileMembers(s.artifacts.byRun, a.runId, a.id, r, x);
    }
    forall t, x | t in u.artifactsByTask && x in u.artifactsByTask[t] && x in u.artifacts.records ensures u.artifacts.records[x].taskId == t {
      FileMembers(s.artifactsByTask, a.taskId, a.id, t, x);
    }
  }

  /** Saving an artifact keeps the three artifact indexes in agreement exactly when it fits. */
  lemma SaveArtifactAgreesIff(s: Repo, a: Artifact)
    requires ArtifactsAgree(s)
    ensures ArtifactsAgree(SaveArtifact(s, a)) <==> ArtifactFits(s, a)
  {
    if ArtifactFits(s, a) {
      SaveArtifactKeeps(s, a);
    }
    var u := SaveArtifact(s, a);
    if ArtifactsAgree(u) {
      FileExclusiveIff(s.artifacts.byRun, a.runId, a.id);
      forall t | t in s.artifactsByTask && a.id in s.artifactsByTask[t] ensures t == a.taskId {
        FileMembers(s.artifactsByTask, a.taskId, a.id, t, a.id);
        assert t in u.artifactsByTask && a.id in u.artifactsByTask[t] && a.id in u.artifacts.records;
      }
      assert a.id in u.artifacts.records && u.artifacts.records[a.id] == a;
    }
  }

  // ---------------------------------------------------------------- what was saved is read back

  /** A list whose ids are all known shows their records, place by place. */
  lemma {:induction false} FoundAll<T>(records: map<Name, T>, ids: seq<Name>)
    requires forall k | 0 <= k < |ids| :: ids[k] in records
    ensures |Found(records, ids)| == |ids| && forall k | 0 <= k < |ids| :: Found(records, ids)[k] == records[ids[k]]
  {
    if ids != [] {
      FoundAll(records, ids[..|ids| - 1]);
    }
  }

  /** On its run's own list a saved record takes its old place, or the last if it is new; the other
      records stay where they are. */
  lemma PutOwnList<T>(shelf: Shelf<T>, run: Name, id: Name, record: T)
    requires forall k | 0 <= k < |IdsUnder(shelf.byRun, run)| :: IdsUnder(shelf.byRun, run)[k] in shelf.records
    ensures var ids, before, after := IdsUnder(shelf.byRun, run), ListRun(shelf, run), ListRun(Put(shelf, run, id, record), run);
            && |before| == |ids| && |after| == |ids| + (if id in ids then 0 else 1)
            && (id !in ids ==> after == before + [record])
            && forall k | 0 <= k < |ids| :: after[k] == if ids[k] == id then record else before[k]
  {
    var ids := IdsUnder(shelf.byRun, run);
    FoundAll(shelf.records, ids);
    FoundAll(shelf.records[id := record], IdsUnder(File(shelf.byRun, run, id), run));
  }

  /** A saved task is read by its id and by its run and key; it takes its old place in its run's graph,
      or the last; no other task, and no other graph, reads differently. */
  lemma SaveTaskReads(s: Repo, t: Task)
    ensures var u := SaveTask(s, t);
            && TaskOf(u, t.id) == Ok(t) && TaskByKey(u, t.runId, t.key) == Ok(t)
            && (forall x | x != t.id :: TaskOf(u, x) == TaskOf(s, x))
            && (forall r | r != t.runId :: GraphOf(u, r) == GraphOf(s, r))
  {
  }

  lemma SaveTaskInGraph(s: Repo, t: Task)
    requires t.runId in s.graphs
    ensures var before, u := s.graphs[t.runId], SaveTask(s, t);
            && t.runId in u.graphs && u.graphs[t.runId] == before.(tasks := u.graphs[t.runId].tasks)
            && (forall k | 0 <= k < |before.tasks| ::
                  k < |u.graphs[t.runId].tasks| && u.graphs[t.runId].tasks[k] == if before.tasks[k].id == t.id then t else before.tasks[k])
            && (if exists k :: 0 <= k < |before.tasks| && before.tasks[k].id == t.id
                then |u.graphs[t.runId].tasks| == |before.tasks| else u.graphs[t.runId].tasks == before.tasks + [t])
  {
    var before := s.graphs[t.runId];
    assert forall k | 0 <= k < |before.tasks| :: TaskIds(before.tasks)[k] == before.tasks[k].id;
    if t.id !in TaskIds(before.tasks) {
      assert Replaced(before.tasks, t) == before.tasks;
    }
  }

  /** A saved graph is read back whole, its tasks by id and by key; nothing outside it reads
      differently. */
  lemma SaveGraphReads(s: Repo, g: Graph)
    requires Distinct(TaskIds(g.tasks)) && Distinct(TaskKeys(g.tasks))
    ensures var u := SaveGraph(s, g);
            && GraphOf(u, g.run.id) == Ok(g) && (forall r | r != g.run.id :: GraphOf(u, r) == GraphOf(s, r))
            && (forall t | t in g.tasks :: TaskOf(u, t.id) == Ok(t) && TaskByKey(u, g.run.id, t.key) == Ok(t))
            && (forall x | x !in TaskIds(g.tasks) :: TaskOf(u, x) == TaskOf(s, x))
  {
    hide RegisterAll, Distinct;
    var base := s.(graphs := s.graphs[g.run.id := g], order := if g.run.id in s.order then s.order else s.order + [g.run.id]);
    RegisterAllKeeps(base, g.run.id, g.tasks);
    forall t | t in g.tasks ensures TaskOf(SaveGraph(s, g), t.id) == Ok(t) && TaskByKey(SaveGraph(s, g), g.run.id, t.key) == Ok(t) {
      HasIdAndKey(g.tasks, t);
      RegisterAllIds(base, g.run.id, g.tasks, t.id);
      RegisterAllKeys(base, g.run.id, g.tasks, (g.run.id, t.key));
      UniqueTask(g.tasks, t);
    }
    forall x | x !in TaskIds(g.tasks) ensures TaskOf(SaveGraph(s, g), x) == TaskOf(s, x) {
      RegisterAllIds(base, g.run.id, g.tasks, x);
    }
  }

  lemma UniqueTask(tasks: seq<Task>, t: Task)
    requires Distinct(TaskIds(tasks)) && Distinct(TaskKeys(tasks)) && t in tasks
    ensures forall x | x in tasks && (x.id == t.id || x.key == t.key) :: x == t
  {
    forall x | x in tasks && (x.id == t.id || x.key == t.key) ensures x == t {
      var i :| 0 <= i < |tasks| && tasks[i] == x;
      var j :| 0 <= j < |tasks| && tasks[j] == t;
      assert TaskIds(tasks)[i] == x.id && TaskIds(tasks)[j] == t.id && TaskKeys(tasks)[i] == x.key && TaskKeys(tasks)[j] == t.key;
    }
  }

  /** A saved attempt is stored, and listed under its task's run if the task is known. */
  lemma SaveAttemptReads(s: Repo, a: Attempt)
    ensures var u := SaveAttempt(s, a);
            && u == s.(attempts := u.attempts) && u.attempts.records == s.attempts.records[a.id := a]
            && forall r, x :: x in IdsUnder(u.attempts.byRun, r) <==>
                 x in IdsUnder(s.attempts.byRun, r) || (x == a.id && a.taskId in s.tasks && r == s.tasks[a.taskId].runId)
  {
    hide File, IdsUnder;
    forall r, x ensures x in IdsUnder(SaveAttempt(s, a).attempts.byRun, r) <==>
                 x in IdsUnder(s.attempts.byRun, r) || (x == a.id && a.taskId in s.tasks && r == s.tasks[a.taskId].runId) {
      if a.taskId in s.tasks {
        FileMembers(s.attempts.byRun, s.tasks[a.taskId].runId, a.id, r, x);
      }
    }
  }

  /** A saved artifact is listed under its run and its task. */
  lemma SaveArtifactReads(s: Repo, f: Artifact)
    ensures var u := SaveArtifact(s, f);
            && u == s.(artifacts := u.artifacts, artifactsByTask := u.artifactsByTask)
            && u.artifacts.records == s.artifacts.records[f.id := f]
            && (forall r, x :: x in IdsUnder(u.artifacts.byRun, r) <==> x in IdsUnder(s.artifacts.byRun, r) || (x == f.id && r == f.runId))
            && (forall t, x :: x in IdsUnder(u.artifactsByTask, t) <==> x in IdsUnder(s.artifactsByTask, t) || (x == f.id && t == f.taskId))
  {
    hide File, IdsUnder;
    var u := SaveArtifact(s, f);
    forall r, x ensures x in IdsUnder(u.artifacts.byRun, r) <==> x in IdsUnder(s.artifacts.byRun, r) || (x == f.id && r == f.runId) {
      FileMembers(s.artifacts.byRun, f.runId, f.id, r, x);
    }
    forall t, x ensures x in IdsUnder(u.artifactsByTask, t) <==> x in IdsUnder(s.artifactsByTask, t) || (x == f.id && t == f.taskId) {
      FileMembers(s.artifactsByTask, f.taskId, f.id, t, x);
    }
  }

  // ---------------------------------------------------------------- deleting a run

  function Without(ids: seq<Name>, x: Name): seq<Name> {
    if ids == [] then []
    else Without(ids[..|ids| - 1], x) + if ids[|ids| - 1] != x then [ids[|ids| - 1]] else []
  }

  lemma {:induction false} WithoutMember(ids: seq<Name>, x: Name, y: Name)
    ensures y in Without(ids, x) <==> y in ids && y != x
  {
    if ids != [] {
      var n := |ids| - 1;
      WithoutMember(ids[..n], x, y);
      assert ids == ids[..n] + [ids[n]];
    }
  }

  lemma {:induction false} WithoutDistinct(ids: seq<Name>, x: Name)
    requires Distinct(ids)
    ensures Distinct(Without(ids, x))
  {
    if ids != [] {
      var n := |ids| - 1;
      WithoutDistinct(ids[..n], x);
      if ids[n] != x {
        WithoutMember(ids[..n], x, ids[n]);
        DistinctAppend(Without(ids[..n], x), [ids[n]]);
      }
    }
  }

  lemma WithoutFacts(ids: seq<Name>, x: Name)
    requires Distinct(ids)
    ensures Distinct(Without(ids, x)) && Elements(Without(ids, x)) == Elements(ids) - {x}
  {
    hide Distinct;
    WithoutDistinct(ids, x);
    forall y ensures y in Without(ids, x) <==> y in ids && y != x {
      WithoutMember(ids, x, y);
    }
  }

  /** Artifacts listed under the given tasks. */
  ghost function ArtifactsUnder(index: map<Name, seq<Name>>, taskIds: set<Name>): set<Name> {
    set t, a | t in taskIds && t in index && a in index[t] :: a
  }

  ghost function PairsOf(run: Name, tasks: seq<Task>): set<(Name, Name)> {
    set k | k in TaskKeys(tasks) :: (run, k)
  }

  /** `delete_workflow_run` of a known run, when the indexes agree. */
  ghost function Deleted(s: Repo, run: Name): Repo
    requires run in s.graphs
  {
    var tasks := s.graphs[run].tasks;
    var ids := Elements(TaskIds(tasks));
    Repo(s.graphs - {run}, Without(s.order, run), s.tasks - ids, s.taskToRun - ids, s.keyIndex - PairsOf(run, tasks),
         DropRun(s.attempts, run), DropRun(s.humans, run), DropRun(s.approvals, run), DropRun(s.events, run),
         Shelf(s.artifacts.records - ArtifactsUnder(s.artifactsByTask, ids) - Members(IdsUnder(s.artifacts.byRun, run)),
               s.artifacts.byRun - {run}),
         s.artifactsByTask - ids)
  }

  lemma RunTasks(s: Repo, run: Name, x: Name)
    requires TasksAgree(s) && run in s.graphs
    ensures x in TaskIds(s.graphs[run].tasks) <==> x in s.taskToRun && s.taskToRun[x] == run
  {
    assert GraphExact(run, s.graphs[run], s.tasks, s.taskToRun);
    if x in TaskIds(s.graphs[run].tasks) {
      var i := KeyAt(s.graphs[run].tasks, x);
    }
  }

  lemma RunKeys(s: Repo, run: Name, p: (Name, Name))
    requires TasksAgree(s) && run in s.graphs && p in s.keyIndex
    ensures p in PairsOf(run, s.graphs[run].tasks) <==> p.0 == run
  {
    assert GraphExact(run, s.graphs[run], s.tasks, s.taskToRun);
    if p.0 == run {
      RunTasks(s, run, s.keyIndex[p]);
      var i := KeyAt(s.graphs[run].tasks, s.keyIndex[p]);
      assert TaskKeys(s.graphs[run].tasks)[i] == p.1;
    }
  }

  /** Taking away all tasks of a run with all its keys. */
  lemma ShrunkKeysExact(tasks: map<Name, Task>, taskToRun: map<Name, Name>, keyIndex: map<(Name, Name), Name>,
                        run: Name, ids: set<Name>, pairs: set<(Name, Name)>)
    requires KeysExact(tasks, taskToRun, keyIndex)
    requires forall x | x in taskToRun :: x in ids <==> taskToRun[x] == run
    requires forall p | p in keyIndex :: p in pairs <==> p.0 == run
    ensures KeysExact(tasks - ids, taskToRun - ids, keyIndex - pairs)
  {
  }

  lemma ShrunkGraphExact(r: Name, g: Graph, tasks: map<Name, Task>, taskToRun: map<Name, Name>, run: Name, ids: set<Name>)
    requires GraphExact(r, g, tasks, taskToRun) && r != run
    requires forall x | x in taskToRun :: x in ids <==> taskToRun[x] == run
    ensures GraphExact(r, g, tasks - ids, taskToRun - ids)
  {
  }

  lemma DeletedTasksAgree(s: Repo, run: Name)
    requires TasksAgree(s) && run in s.graphs
    ensures TasksAgree(Deleted(s, run))
  {
    hide KeysExact, GraphExact;
    var tasks := s.graphs[run].tasks;
    var ids := Elements(TaskIds(tasks));
    forall x | x in s.taskToRun ensures x in ids <==> s.taskToRun[x] == run {
      RunTasks(s, run, x);
    }
    forall p | p in s.keyIndex ensures p in PairsOf(run, tasks) <==> p.0 == run {
      RunKeys(s, run, p);
    }
    ShrunkKeysExact(s.tasks, s.taskToRun, s.keyIndex, run, ids, PairsOf(run, tasks));
    forall r | r in s.graphs && r != run ensures GraphExact(r, s.graphs[r], s.tasks - ids, s.taskToRun - ids) {
      ShrunkGraphExact(r, s.graphs[r], s.tasks, s.taskToRun, run, ids);
    }
  }

  /** Which artifacts go: exactly those of the deleted run, as far as they are listed or their task is known. */
  lemma DoomedArtifacts(s: Repo, run: Name, x: Name)
    requires TasksAgree(s) && ArtifactsAgree(s) && run in s.graphs && x in s.artifacts.records
    requires x in ArtifactsUnder(s.artifactsByTask, Elements(TaskIds(s.graphs[run].tasks))) || x in Members(IdsUnder(s.artifacts.byRun, run))
    ensures s.artifacts.records[x].runId == run
  {
    if x in ArtifactsUnder(s.artifactsByTask, Elements(TaskIds(s.graphs[run].tasks))) {
      var t :| t in Elements(TaskIds(s.graphs[run].tasks)) && t in s.artifactsByTask && x in s.artifactsByTask[t];
      RunTasks(s, run, t);
    }
  }

  lemma DeletedArtifactsAgree(s: Repo, run: Name)
    requires TasksAgree(s) && ArtifactsAgree(s) && run in s.graphs
    ensures ArtifactsAgree(Deleted(s, run))
  {
    hide TasksAgree;
    var u := Deleted(s, run);
    forall r, x | r in u.artifacts.byRun && x in u.artifacts.byRun[r] ensures x in u.artifacts.records && u.artifacts.records[x].runId == r {
      assert s.artifacts.records[x].runId == r;
      if x !in u.artifacts.records {
        DoomedArtifacts(s, run, x);
      }
    }
  }

  lemma DeletedAgrees(s: Repo, run: Name)
    requires Agrees(s) && run in s.graphs
    ensures Agrees(Deleted(s, run))
  {
    hide TasksAgree, ArtifactsAgree, Distinct;
    WithoutFacts(s.order, run);
    DeletedTasksAgree(s, run);
    DeletedArtifactsAgree(s, run);
    DropReads(s.attempts, run, run);
    DropReads(s.humans, run, run);
    DropReads(s.approvals, run, run);
    DropReads(s.events, run, run);
  }

  /** Everything that can be read about a run. */
  ghost predicate SameReads(s: Repo, u: Repo, run: Name) {
    && GraphOf(u, run) == GraphOf(s, run)
    && (forall k :: TaskByKey(u, run, k) == TaskByKey(s, run, k))
    && (forall x | x in s.taskToRun && s.taskToRun[x] == run :: TaskOf(u, x) == TaskOf(s, x) && ListTask(u, x) == ListTask(s, x))
    && ListRun(u.attempts, run) == ListRun(s.attempts, run) && ListRun(u.humans, run) == ListRun(s.humans, run)
    && ListRun(u.approvals, run) == ListRun(s.approvals, run) && ListRun(u.events, run) == ListRun(s.events, run)
    && ListRun(u.artifacts, run) == ListRun(s.artifacts, run)
  }

  /** Nothing can be read about a run. */
  ghost predicate NothingOf(s: Repo, run: Name) {
    && GraphOf(s, run).Err? && run !in s.order
    && (forall k :: TaskByKey(s, run, k).Err?)
    && (forall x | x in s.taskToRun :: s.taskToRun[x] != run)
    && ListRun(s.attempts, run) == [] && ListRun(s.humans, run) == [] && ListRun(s.approvals, run) == []
    && ListRun(s.events, run) == [] && ListRun(s.artifacts, run) == []
  }

  lemma DeletedTaskReads(s: Repo, run: Name, other: Name)
    requires TasksAgree(s) && run in s.graphs && other != run
    ensures var u := Deleted(s, run);
            && (forall k :: TaskByKey(u, other, k) == TaskByKey(s, other, k))
            && (forall x | x in s.taskToRun && s.taskToRun[x] == other :: TaskOf(u, x) == TaskOf(s, x))
  {
    var u := Deleted(s, run);
    forall x ensures x in TaskIds(s.graphs[run].tasks) <==> x in s.taskToRun && s.taskToRun[x] == run {
      RunTasks(s, run, x);
    }
    forall k ensures TaskByKey(u, other, k) == TaskByKey(s, other, k) {
      if (other, k) in s.keyIndex {
        RunKeys(s, run, (other, k));
      }
    }
  }

  lemma DeletedArtifactReads(s: Repo, run: Name, other: Name)
    requires TasksAgree(s) && ArtifactsAgree(s) && run in s.graphs && other != run
    ensures ListRun(Deleted(s, run).artifacts, other) == ListRun(s.artifacts, other)
    ensures forall x | x in s.taskToRun && s.taskToRun[x] == other :: ListTask(Deleted(s, run), x) == ListTask(s, x)
  {
    hide KeysExact, GraphExact;
    var u := Deleted(s, run);
    forall x | x in s.artifacts.records && s.artifacts.records[x].runId == other ensures x in u.artifacts.records {
      if x !in u.artifacts.records {
        DoomedArtifacts(s, run, x);
      }
    }
    FoundSame(s.artifacts.records, u.artifacts.records, IdsUnder(s.artifacts.byRun, other));
    forall x | x in s.taskToRun && s.taskToRun[x] == other ensures ListTask(u, x) == ListTask(s, x) {
      RunTasks(s, run, x);
      FoundSame(s.artifacts.records, u.artifacts.records, IdsUnder(s.artifactsByTask, x));
    }
  }

  lemma DeletedNothing(s: Repo, run: Name)
    requires Agrees(s) && run in s.graphs
    ensures NothingOf(Deleted(s, run), run)
  {
    hide ArtifactsAgree, Exclusive, KeysExact, GraphExact;
    var u := Deleted(s, run);
    WithoutFacts(s.order, run);
    assert run !in Elements(u.order);
    forall x | x in u.taskToRun ensures u.taskToRun[x] != run {
      RunTasks(s, run, x);
    }
    forall k ensures TaskByKey(u, run, k).Err? {
      if (run, k) in s.keyIndex {
        RunKeys(s, run, (run, k));
      }
    }
  }

  /** Deleting a run removes exactly that run from every index and changes no read of another. */
  lemma DeleteExact(s: Repo, run: Name, other: Name)
    requires Agrees(s) && run in s.graphs && other != run
    ensures Agrees(Deleted(s, run)) && NothingOf(Deleted(s, run), run) && SameReads(s, Deleted(s, run), other)
  {
    hide TasksAgree, ArtifactsAgree, NothingOf, TaskByKey, TaskOf, ListTask, DropRun, ListRun;
    DeletedAgrees(s, run);
    DeletedNothing(s, run);
    DeletedTaskReads(s, run, other);
    DeletedArtifactReads(s, run, other);
    DropReads(s.attempts, run, other);
    DropReads(s.humans, run, other);
    DropReads(s.approvals, run, other);
    DropReads(s.events, run, other);
  }

  // ---------------------------------------------------------------- histories of saves and deletes

  datatype RepoOp =
    | PutGraph(g: Graph)
    | PutTask(t: Task)
    | PutAttempt(a: Attempt)
    | PutHuman(h: HumanRequest)
    | PutApproval(p: ApprovalRequest)
    | PutEvent(e: Event)
    | PutArtifact(f: Artifact)
    | DeleteOp(run: Name)

  /** Artifacts already filed for a task id are of this run. */
  ghost predicate ArtifactsFollow(s: Repo, taskId: Name, run: Name) {
    forall x | x in s.artifacts.records && s.artifacts.records[x].taskId == taskId :: s.artifacts.records[x].runId == run
  }

  /** Saves never drop a task or move anything between runs. */
  ghost predicate RepoLegal(s: Repo, op: RepoOp) {
    match op
    case PutGraph(g) => GraphFits(s, g) && forall x | x in TaskIds(g.tasks) :: ArtifactsFollow(s, x, g.run.id)
    case PutTask(t) => TaskFits(s, t) && ArtifactsFollow(s, t.id, t.runId)
    case PutAttempt(a) => a.taskId in s.tasks ==> FiledOnlyUnder(s.attempts.byRun, a.id, s.tasks[a.taskId].runId)
    case PutHuman(h) => FiledOnlyUnder(s.humans.byRun, h.id, h.runId)
    case PutApproval(p) => FiledOnlyUnder(s.approvals.byRun, p.id, p.runId)
    case PutEvent(e) => FiledOnlyUnder(s.events.byRun, e.id, e.runId)
    case PutArtifact(f) => ArtifactFits(s, f)
    case DeleteOp(_) => true
  }

  ghost function RepoApply(s: Repo, op: RepoOp): Repo {
    match op
    case PutGraph(g) => SaveGraph(s, g)
    case PutTask(t) => SaveTask(s, t)
    case PutAttempt(a) => SaveAttempt(s, a)
    case PutHuman(h) => s.(humans := Put(s.humans, h.runId, h.id, h))
    case PutApproval(p) => s.(approvals := Put(s.approvals, p.runId, p.id, p))
    case PutEvent(e) => s.(events := Put(s.events, e.runId, e.id, e))
    case PutArtifact(f) => SaveArtifact(s, f)
    case DeleteOp(run) => if run in s.graphs then Deleted(s, run) else s
  }

  ghost function RepoRun(s: Repo, ops: seq<RepoOp>): Repo
    decreases |ops|
  {
    if ops == [] then s else RepoRun(RepoApply(s, ops[0]), ops[1..])
  }

  ghost predicate RepoLegalRun(s: Repo, ops: seq<RepoOp>)
    decreases |ops|
  {
    ops == [] || (RepoLegal(s, ops[0]) && RepoLegalRun(RepoApply(s, ops[0]), ops[1..]))
  }

  const EMPTY := Repo(map[], [], map[], map[], map[], Shelf(map[], map[]), Shelf(map[], map[]), Shelf(map[], map[]),
                      Shelf(map[], map[]), Shelf(map[], map[]), map[])

  lemma PutGraphArtifacts(s: Repo, g: Graph)
    requires ArtifactsAgree(s) && forall x | x in TaskIds(g.tasks) :: ArtifactsFollow(s, x, g.run.id)
    ensures ArtifactsAgree(SaveGraph(s, g))
  {
    hide Exclusive, RegisterAll;
    var base := s.(graphs := s.graphs[g.run.id := g], order := if g.run.id in s.order then s.order else s.order + [g.run.id]);
    RegisterAllKeeps(base, g.run.id, g.tasks);
    var u := SaveGraph(s, g);
    forall x | x in u.artifacts.records && u.artifacts.records[x].taskId in u.taskToRun
      ensures u.taskToRun[u.artifacts.records[x].taskId] == u.artifacts.records[x].runId
    {
      RegisterAllIds(base, g.run.id, g.tasks, u.artifacts.records[x].taskId);
    }
  }

  lemma OrderAppend(order: seq<Name>, run: Name)
    requires Distinct(order)
    ensures var after := if run in order then order else order + [run]; Distinct(after) && Elements(after) == Elements(order) + {run}
  {
    if run !in order {
      DistinctAppend(order, [run]);
      ElementsAppend(order, [run]);
    }
  }

  lemma PutGraphAgrees(s: Repo, g: Graph)
    requires Agrees(s) && RepoLegal(s, PutGraph(g))
    ensures Agrees(SaveGraph(s, g))
  {
    hide TasksAgree, ArtifactsAgree, ArtifactsFollow, Exclusive, GraphFits, RegisterAll, Distinct, Elements;
    SaveGraphKeeps(s, g);
    PutGraphArtifacts(s, g);
    OrderAppend(s.order, g.run.id);
    var base := s.(graphs := s.graphs[g.run.id := g], order := if g.run.id in s.order then s.order else s.order + [g.run.id]);
    RegisterAllKeeps(base, g.run.id, g.tasks);
  }

  /** `save_task` changes the task indexes and the graph's task list only. */
  lemma SaveTaskKeeps(s: Repo, t: Task)
    ensures var u := SaveTask(s, t);
            && u.order == s.order && u.graphs.Keys == s.graphs.Keys
            && u.attempts == s.attempts && u.humans == s.humans && u.approvals == s.approvals && u.events == s.events
            && u.artifacts == s.artifacts && u.artifactsByTask == s.artifactsByTask
            && u.taskToRun == s.taskToRun[t.id := t.runId]
  {
    hide Replaced;
  }

  lemma PutTaskArtifacts(s: Repo, t: Task)
    requires ArtifactsAgree(s) && ArtifactsFollow(s, t.id, t.runId)
    ensures ArtifactsAgree(SaveTask(s, t))
  {
    hide SaveTask, Exclusive;
    SaveTaskKeeps(s, t);
  }

  lemma PutTaskAgrees(s: Repo, t: Task)
    requires Agrees(s) && RepoLegal(s, PutTask(t))
    ensures Agrees(SaveTask(s, t))
  {
    hide TasksAgree, Exclusive, TaskFits, SaveTask, Distinct, ArtifactsAgree, ArtifactsFollow, Elements;
    SaveTaskAgreesIff(s, t);
    SaveTaskKeeps(s, t);
    PutTaskArtifacts(s, t);
  }

  lemma RepoStepAgrees(s: Repo, op: RepoOp)
    requires Agrees(s) && RepoLegal(s, op)
    ensures Agrees(RepoApply(s, op))
  {
    hide TasksAgree, ArtifactsAgree, Exclusive, ArtifactFits, Deleted, SaveTask, SaveGraph;
    match op
    case PutGraph(g) => PutGraphAgrees(s, g);
    case PutTask(t) => PutTaskAgrees(s, t);
    case PutAttempt(a) =>
      PutKeepsArtifacts(s, RepoApply(s, op));
      if a.taskId in s.tasks {
        FileExclusiveIff(s.attempts.byRun, s.tasks[a.taskId].runId, a.id);
      }
    case PutHuman(h) =>
      PutKeepsArtifacts(s, RepoApply(s, op));
      FileExclusiveIff(s.humans.byRun, h.runId, h.id);
    case PutApproval(p) =>
      PutKeepsArtifacts(s, RepoApply(s, op));
      FileExclusiveIff(s.approvals.byRun, p.runId, p.id);
    case PutEvent(e) =>
      PutKeepsArtifacts(s, RepoApply(s, op));
      FileExclusiveIff(s.events.byRun, e.runId, e.id);
    case PutArtifact(f) =>
      SaveArtifactKeeps(s, f);
      PutKeepsTasks(s, SaveArtifact(s, f));
    case DeleteOp(run) =>
      if run in s.graphs {
        DeletedAgrees(s, run);
      }
  }

  lemma PutKeepsTasks(s: Repo, u: Repo)
    requires TasksAgree(s) && u.graphs == s.graphs && u.tasks == s.tasks && u.taskToRun == s.taskToRun && u.keyIndex == s.keyIndex
    ensures TasksAgree(u)
  {
  }

  lemma PutKeepsArtifacts(s: Repo, u: Repo)
    requires TasksAgree(s) && ArtifactsAgree(s) && u.artifacts == s.artifacts && u.artifactsByTask == s.artifactsByTask
    requires u.graphs == s.graphs && u.tasks == s.tasks && u.taskToRun == s.taskToRun && u.keyIndex == s.keyIndex
    ensures TasksAgree(u) && ArtifactsAgree(u)
  {
  }

  lemma {:induction false} RepoRunAgrees(s: Repo, ops: seq<RepoOp>)
    requires Agrees(s) && RepoLegalRun(s, ops)
    ensures Agrees(RepoRun(s, ops))
    decreases |ops|
  {
    hide Agrees, RepoApply, RepoLegal;
    if ops != [] {
      RepoStepAgrees(s, ops[0]);
      RepoRunAgrees(RepoApply(s, ops[0]), ops[1..]);
    }
  }

  /** After any sequence of saves and deletes from an empty repository, the three ways to read a
      task agree, and deleting a run then removes exactly that run. */
  lemma IndexesAgree(ops: seq<RepoOp>, run: Name, other: Name, t: Task)
    requires RepoLegalRun(EMPTY, ops) && run in RepoRun(EMPTY, ops).graphs && other != run
    ensures var s := RepoRun(EMPTY, ops);
            && (t in s.graphs[run].tasks <==> TaskOf(s, t.id) == Ok(t) && t.id in s.taskToRun && s.taskToRun[t.id] == run)
            && (t in s.graphs[run].tasks <==> TaskByKey(s, run, t.key) == Ok(t))
            && NothingOf(Deleted(s, run), run) && SameReads(s, Deleted(s, run), other)
  {
    hide NothingOf, SameReads, Deleted, TaskByKey;
    RepoRunAgrees(EMPTY, ops);
    ReadsAgree(RepoRun(EMPTY, ops), run, t);
    DeleteExact(RepoRun(EMPTY, ops), run, other);
  }
}