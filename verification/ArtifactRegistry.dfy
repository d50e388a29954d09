/** `InMemoryArtifactRegistry` (artifacts/registry.py). */
module ArtifactRegistry {
  import opened Names
  import opened Wrappers
  import opened Sequences
  import opened Digraph
  import opened Records
  import opened DependencyGraph
  import opened Repository
  import opened InMemoryRepository

  // Versioned artifacts, one FINAL per run, task and type, and what a task may see of its upstream
  // tasks' artifacts.

  datatype VersionKey = VersionKey(run: Name, task: Name, kind: string)

  function KeyOf(a: Artifact): VersionKey {
    VersionKey(a.runId, a.taskId, a.kind)
  }

  // ---------------------------------------------------------------- put_artifact on values

  /** `_list_task_artifacts`: of this task, within this run. */
  function OfRunOnly(list: seq<Artifact>, run: Name): (r: seq<Artifact>)
    ensures forall x :: x in r <==> x in list && x.runId == run
  {
    if list == [] then []
    else
      var n := |list| - 1;
      assert list == list[..n] + [list[n]];
      OfRunOnly(list[..n], run) + if list[n].runId == run then [list[n]] else []
  }

  function Existing(s: Repo, a: Artifact): seq<Artifact> {
    OfRunOnly(ListTask(s, a.taskId), a.runId)
  }

  /** The largest version among those of one type, and a floor. */
  function MaxVersion(list: seq<Artifact>, kind: string, floor: int): (r: int)
    ensures r >= floor && forall x | x in list && x.kind == kind :: r >= x.version
    ensures r == floor || exists x :: x in list && x.kind == kind && x.version == r
  {
    if list == [] then floor
    else
      var n := |list| - 1;
      assert list == list[..n] + [list[n]];
      var m := MaxVersion(list[..n], kind, floor);
      if list[n].kind == kind && list[n].version > m then list[n].version else m
  }

  function VersionOf(versions: map<VersionKey, int>, k: VersionKey): int {
    if k in versions then versions[k] else 0
  }

  function CurrentMax(s: Repo, versions: map<VersionKey, int>, a: Artifact): int {
    MaxVersion(Existing(s, a), a.kind, VersionOf(versions, KeyOf(a)))
  }

  /** The record as stored: its own version if that is new, else the next. */
  function Versioned(s: Repo, versions: map<VersionKey, int>, a: Artifact): Artifact {
    var current := CurrentMax(s, versions, a);
    if a.version <= 0 || a.version <= current then a.(version := current + 1) else a
  }

  predicate Overtakes(a: Artifact, prior: Artifact) {
    a.status == Final && prior.kind == a.kind && prior.id != a.id && prior.status == Final
  }

  /** Earlier FINAL records of the type are saved again as SUPERSEDED. */
  function Supersede(s: Repo, list: seq<Artifact>, a: Artifact): Repo {
    if list == [] then s
    else
      var n := |list| - 1;
      var u := Supersede(s, list[..n], a);
      if Overtakes(a, list[n]) then SaveArtifact(u, list[n].(status := Superseded)) else u
  }

  /** `put_artifact` */
  function PutInRepo(s: Repo, versions: map<VersionKey, int>, a: Artifact): Repo {
    var record := Versioned(s, versions, a);
    SaveArtifact(Supersede(s, Existing(s, a), record), record)
  }

  function PutVersions(s: Repo, versions: map<VersionKey, int>, a: Artifact): map<VersionKey, int> {
    var current, version := CurrentMax(s, versions, a), Versioned(s, versions, a).version;
    versions[KeyOf(a) := if current > version then current else version]
  }

  // ---------------------------------------------------------------- invariants

  /** Every artifact is listed under its run and its task. */
  ghost predicate Filed(s: Repo) {
    && ArtifactsAgree(s)
    && forall x | x in s.artifacts.records ::
         var a := s.artifacts.records[x];
         a.id == x && x in IdsUnder(s.artifacts.byRun, a.runId) && x in IdsUnder(s.artifactsByTask, a.taskId)
  }

  /** The ranking of two artifacts, `x` before `y` in no particular order. */
  predicate Outranks(x: Artifact, y: Artifact) {
    KeyOf(x) == KeyOf(y) ==>
      && x.version != y.version && !(x.status == Final && y.status == Final)
      && (x.status == Final && y.status == Superseded ==> x.version > y.version)
  }

  /** For every run, task and type: versions differ, at most one is FINAL, and it outranks every
      SUPERSEDED one. */
  ghost predicate Ranked(records: map<Name, Artifact>) {
    forall x, y | x in records && y in records && x != y :: Outranks(records[x], records[y])
  }

  /** An id keeps its run, task and type, and only drafts and finals are put. */
  ghost predicate PutLegal(s: Repo, a: Artifact) {
    && ArtifactFits(s, a) && (a.status == Draft || a.status == Final)
    && (a.id in s.artifacts.records ==> KeyOf(s.artifacts.records[a.id]) == KeyOf(a))
  }

  lemma {:induction false} FoundMember<T>(records: map<Name, T>, ids: seq<Name>, x: T)
    ensures x in Found(records, ids) <==> exists i :: 0 <= i < |ids| && ids[i] in records && records[ids[i]] == x
  {
    if ids != [] {
      var n := |ids| - 1;
      FoundMember(records, ids[..n], x);
      if ids[n] in records && records[ids[n]] == x {
        assert x in Found(records, ids);
      }
      if exists i :: 0 <= i < |ids| && ids[i] in records && records[ids[i]] == x {
        var i :| 0 <= i < |ids| && ids[i] in records && records[ids[i]] == x;
        assert i == n || ids[..n][i] == ids[i];
      }
    }
  }

  /** The listing of a task within a run is exact. */
  lemma ExistingExact(s: Repo, a: Artifact, x: Artifact)
    requires Filed(s)
    ensures x in Existing(s, a) <==> x.id in s.artifacts.records && s.artifacts.records[x.id] == x && x.taskId == a.taskId && x.runId == a.runId
  {
    hide Exclusive;
    var ids := IdsUnder(s.artifactsByTask, a.taskId);
    FoundMember(s.artifacts.records, ids, x);
    if x in ListTask(s, a.taskId) {
      var i :| 0 <= i < |ids| && ids[i] in s.artifacts.records && s.artifacts.records[ids[i]] == x;
      assert ids[i] in s.artifactsByTask[a.taskId];
    }
    if x.id in s.artifacts.records && s.artifacts.records[x.id] == x && x.taskId == a.taskId {
      assert x.id in ids;
      var i :| 0 <= i < |ids| && ids[i] == x.id;
    }
  }

  lemma FileAgain(index: map<Name, seq<Name>>, k: Name, id: Name)
    requires id in IdsUnder(index, k)
    ensures File(index, k, id) == index
  {
  }

  lemma ReplacedAgrees(s: Repo, a: Artifact)
    requires ArtifactsAgree(s) && a.id in s.artifacts.records
    requires s.artifacts.records[a.id].runId == a.runId && s.artifacts.records[a.id].taskId == a.taskId
    ensures ArtifactsAgree(s.(artifacts := Shelf(s.artifacts.records[a.id := a], s.artifacts.byRun)))
  {
    hide Exclusive;
  }

  /** Saving a filed artifact again moves no list. */
  lemma Refile(s: Repo, a: Artifact)
    requires Filed(s) && a.id in s.artifacts.records
    requires s.artifacts.records[a.id].runId == a.runId && s.artifacts.records[a.id].taskId == a.taskId
    ensures SaveArtifact(s, a) == s.(artifacts := Shelf(s.artifacts.records[a.id := a], s.artifacts.byRun))
    ensures Filed(SaveArtifact(s, a))
  {
    hide ArtifactsAgree, File, IdsUnder;
    FileAgain(s.artifacts.byRun, a.runId, a.id);
    FileAgain(s.artifactsByTask, a.taskId, a.id);
    ReplacedAgrees(s, a);
  }

  /** What one record is after earlier finals were superseded. */
  function Demoted(a: Artifact, list: seq<Artifact>, r: Artifact): Artifact {
    if r in list && Overtakes(a, r) then r.(status := Superseded) else r
  }

  ghost predicate DemotedAll(before: map<Name, Artifact>, after: map<Name, Artifact>, list: seq<Artifact>, a: Artifact) {
    after.Keys == before.Keys && forall x | x in before :: after[x] == Demoted(a, list, before[x])
  }

  lemma DemotedStep(before: map<Name, Artifact>, mid: map<Name, Artifact>, list: seq<Artifact>, n: nat, a: Artifact)
    requires n < |list| && list[n].id in before && before[list[n].id] == list[n] && forall x | x in before :: before[x].id == x
    requires DemotedAll(before, mid, list[..n], a)
    ensures DemotedAll(before, if Overtakes(a, list[n]) then mid[list[n].id := list[n].(status := Superseded)] else mid, list[..n + 1], a)
  {
    assert list[..n + 1] == list[..n] + [list[n]];
    forall x | x in before && x != list[n].id ensures Demoted(a, list[..n + 1], before[x]) == Demoted(a, list[..n], before[x]) {
      assert before[x] != list[n];
    }
  }

  lemma FiledIds(s: Repo)
    requires Filed(s)
    ensures forall x | x in s.artifacts.records :: s.artifacts.records[x].id == x
  {
  }

  lemma DemotedNone(records: map<Name, Artifact>, a: Artifact)
    ensures DemotedAll(records, records, [], a)
  {
  }

  lemma DemotedSame(before: map<Name, Artifact>, after: map<Name, Artifact>, list: seq<Artifact>, a: Artifact, x: Name)
    requires DemotedAll(before, after, list, a) && x in before
    ensures x in after && KeyOf(after[x]) == KeyOf(before[x])
  {
  }

  lemma {:induction false} SupersedeIs(s: Repo, list: seq<Artifact>, a: Artifact)
    requires Filed(s) && forall k | 0 <= k < |list| :: list[k].id in s.artifacts.records && s.artifacts.records[list[k].id] == list[k]
    ensures var u := Supersede(s, list, a);
            && u == s.(artifacts := Shelf(u.artifacts.records, s.artifacts.byRun)) && Filed(u)
            && DemotedAll(s.artifacts.records, u.artifacts.records, list, a)
  {
    hide Filed, SaveArtifact, DemotedAll;
    FiledIds(s);
    DemotedNone(s.artifacts.records, a);
    if list != [] {
      var n := |list| - 1;
      var mid := Supersede(s, list[..n], a);
      SupersedeIs(s, list[..n], a);
      DemotedStep(s.artifacts.records, mid.artifacts.records, list, n, a);
      assert list[..n + 1] == list;
      if Overtakes(a, list[n]) {
        DemotedSame(s.artifacts.records, mid.artifacts.records, list[..n], a, list[n].id);
        Refile(mid, list[n].(status := Superseded));
      }
    }
  }

  lemma ExistingRecords(s: Repo, a: Artifact)
    requires Filed(s)
    ensures forall k | 0 <= k < |Existing(s, a)| ::
              Existing(s, a)[k].id in s.artifacts.records && s.artifacts.records[Existing(s, a)[k].id] == Existing(s, a)[k]
    ensures forall x | x in s.artifacts.records ::
              s.artifacts.records[x] in Existing(s, a) <==> s.artifacts.records[x].taskId == a.taskId && s.artifacts.records[x].runId == a.runId
  {
    hide ArtifactsAgree, Existing, IdsUnder;
    var list := Existing(s, a);
    forall k | 0 <= k < |list| ensures list[k].id in s.artifacts.records && s.artifacts.records[list[k].id] == list[k] {
      ExistingExact(s, a, list[k]);
    }
    forall x | x in s.artifacts.records
      ensures s.artifacts.records[x] in list <==> s.artifacts.records[x].taskId == a.taskId && s.artifacts.records[x].runId == a.runId
    {
      ExistingExact(s, a, s.artifacts.records[x]);
    }
  }

  /** The records after a put. */
  lemma PutRecords(s: Repo, versions: map<VersionKey, int>, a: Artifact)
    requires Filed(s)
    ensures var u, record := PutInRepo(s, versions, a), Versioned(s, versions, a);
            && u.artifacts.records.Keys == s.artifacts.records.Keys + {a.id} && u.artifacts.records[a.id] == record
            && forall x | x in s.artifacts.records && x != a.id ::
                 u.artifacts.records[x] == if KeyOf(s.artifacts.records[x]) == KeyOf(a) && Overtakes(record, s.artifacts.records[x])
                                           then s.artifacts.records[x].(status := Superseded) else s.artifacts.records[x]
  {
    hide Filed, CurrentMax, Supersede, Existing, File;
    var list, record := Existing(s, a), Versioned(s, versions, a);
    ExistingRecords(s, a);
    SupersedeIs(s, list, record);
  }

  /** The version given to a put is above every stored version of its key, and above every version
      this registry gave before. */
  lemma VersionRises(s: Repo, versions: map<VersionKey, int>, a: Artifact)
    requires Filed(s)
    ensures var version := Versioned(s, versions, a).version;
            && version > VersionOf(versions, KeyOf(a)) && VersionOf(PutVersions(s, versions, a), KeyOf(a)) == version
            && forall x | x in s.artifacts.records && KeyOf(s.artifacts.records[x]) == KeyOf(a) :: version > s.artifacts.records[x].version
  {
    hide ArtifactsAgree, Existing, MaxVersion;
    forall x | x in s.artifacts.records && KeyOf(s.artifacts.records[x]) == KeyOf(a)
      ensures CurrentMax(s, versions, a) >= s.artifacts.records[x].version
    {
      ExistingExact(s, a, s.artifacts.records[x]);
    }
  }

  /** The version is taken: stored for this run, task and type, or given to them before. */
  ghost predicate Taken(s: Repo, versions: map<VersionKey, int>, a: Artifact, version: int) {
    || VersionOf(versions, VersionKey(a.runId, a.taskId, a.kind)) == version
    || exists x :: x in s.artifacts.records && KeyOf(s.artifacts.records[x]) == KeyOf(a) && s.artifacts.records[x].version == version
  }

  /** A caller's own version is kept exactly when it is positive and above every version taken; else
      the version given is the one just above the greatest taken.  Nothing else in the record changes. */
  lemma VersionExact(s: Repo, versions: map<VersionKey, int>, a: Artifact)
    requires Filed(s)
    ensures var r := Versioned(s, versions, a);
            && r == a.(version := r.version)
            && (forall v | Taken(s, versions, a, v) :: v < r.version)
            && if a.version > 0 && forall v | Taken(s, versions, a, v) :: v < a.version then r == a
               else Taken(s, versions, a, r.version - 1)
  {
    hide ArtifactsAgree, Existing, MaxVersion;
    var current, list := CurrentMax(s, versions, a), Existing(s, a);
    forall v | Taken(s, versions, a, v) ensures v <= current {
      if x :| x in s.artifacts.records && KeyOf(s.artifacts.records[x]) == KeyOf(a) && s.artifacts.records[x].version == v {
        ExistingExact(s, a, s.artifacts.records[x]);
      }
    }
    assert Taken(s, versions, a, current) by {
      if current != VersionOf(versions, KeyOf(a)) {
        var x :| x in list && x.kind == a.kind && x.version == current;
        ExistingExact(s, a, x);
      }
    }
  }

  /** A put stores the versioned record, and a FINAL one makes the other FINAL ones of its run, task
      and type SUPERSEDED; every other record stays as it is. */
  lemma PutEffect(s: Repo, versions: map<VersionKey, int>, a: Artifact, x: Name)
    requires Filed(s) && x in s.artifacts.records && x != a.id
    ensures var after, before := PutInRepo(s, versions, a).artifacts.records, s.artifacts.records[x];
            && x in after && a.id in after && after[a.id] == Versioned(s, versions, a)
            && after[x] ==
                 if a.status == Final && before.status == Final && before.runId == a.runId && before.taskId == a.taskId && before.kind == a.kind
                 then before.(status := Superseded) else before
  {
    hide PutInRepo, ArtifactsAgree, CurrentMax;
    PutRecords(s, versions, a);
    FiledIds(s);
  }

  lemma PutFiled(s: Repo, versions: map<VersionKey, int>, a: Artifact)
    requires Filed(s) && PutLegal(s, a)
    ensures Filed(PutInRepo(s, versions, a))
  {
    hide ArtifactsAgree, CurrentMax, Supersede;
    var list, record := Existing(s, a), Versioned(s, versions, a);
    ExistingRecords(s, a);
    SupersedeIs(s, list, record);
    var mid := Supersede(s, list, record);
    SaveArtifactKeeps(mid, record);
    SavedFiled(mid, record);
  }

  lemma SavedFiled(s: Repo, a: Artifact)
    requires Filed(s) && ArtifactsAgree(SaveArtifact(s, a))
    requires a.id in s.artifacts.records ==> KeyOf(s.artifacts.records[a.id]) == KeyOf(a)
    ensures Filed(SaveArtifact(s, a))
  {
    hide ArtifactsAgree;
    var u := SaveArtifact(s, a);
    forall x | x in u.artifacts.records
      ensures var r := u.artifacts.records[x];
              r.id == x && x in IdsUnder(u.artifacts.byRun, r.runId) && x in IdsUnder(u.artifactsByTask, r.taskId)
    {
      var r := u.artifacts.records[x];
      FileMembers(s.artifacts.byRun, a.runId, a.id, r.runId, x);
      FileMembers(s.artifactsByTask, a.taskId, a.id, r.taskId, x);
    }
  }

  /** A record other than the one put, after the put. */
  function Passed(record: Artifact, r: Artifact): Artifact {
    if KeyOf(r) == KeyOf(record) && Overtakes(record, r) then r.(status := Superseded) else r
  }

  lemma OldPair(record: Artifact, x: Artifact, y: Artifact)
    requires Outranks(x, y) && Outranks(y, x) && x.id != record.id && y.id != record.id
    ensures Outranks(Passed(record, x), Passed(record, y))
  {
  }

  lemma NewPair(record: Artifact, x: Artifact)
    requires (record.status == Draft || record.status == Final) && x.id != record.id
    requires KeyOf(x) == KeyOf(record) ==> record.version > x.version
    ensures Outranks(Passed(record, x), record) && Outranks(record, Passed(record, x))
  {
  }

  /** A put keeps the ranking. */
  lemma PutRanked(s: Repo, versions: map<VersionKey, int>, a: Artifact)
    requires Filed(s) && PutLegal(s, a) && Ranked(s.artifacts.records)
    ensures Ranked(PutInRepo(s, versions, a).artifacts.records)
  {
    hide ArtifactsAgree, PutInRepo, Versioned, ArtifactFits, IdsUnder;
    PutRecords(s, versions, a);
    VersionRises(s, versions, a);
    VersionedIs(s, versions, a);
    var before, record := s.artifacts.records, Versioned(s, versions, a);
    var after := PutInRepo(s, versions, a).artifacts.records;
    forall x | x in before && x != a.id ensures after[x] == Passed(record, before[x]) {
    }
    forall x, y | x in after && y in after && x != y ensures Outranks(after[x], after[y]) {
      if x == a.id {
        NewPair(record, before[y]);
      } else if y == a.id {
        NewPair(record, before[x]);
      } else {
        OldPair(record, before[x], before[y]);
      }
    }
  }

  lemma VersionedIs(s: Repo, versions: map<VersionKey, int>, a: Artifact)
    ensures Versioned(s, versions, a) == a.(version := Versioned(s, versions, a).version)
  {
  }

  // ---------------------------------------------------------------- any sequence of puts

  datatype Given = Given(key: VersionKey, version: int)

  /** A registry over a repository, and the versions given out so far. */
  datatype Registry = Registry(repo: Repo, versions: map<VersionKey, int>, given: seq<Given>)

  datatype RegistryStep = PutStep(a: Artifact) | FreshRegistry

  ghost predicate RegistryLegal(g: Registry, step: RegistryStep) {
    step.PutStep? ==> PutLegal(g.repo, step.a)
  }

  ghost function RegistryApply(g: Registry, step: RegistryStep): Registry {
    match step
    case PutStep(a) =>
      Registry(PutInRepo(g.repo, g.versions, a), PutVersions(g.repo, g.versions, a),
               g.given + [Given(KeyOf(a), Versioned(g.repo, g.versions, a).version)])
    case FreshRegistry => g.(versions := map[])
  }

  ghost function RegistryRun(g: Registry, steps: seq<RegistryStep>): Registry
    decreases |steps|
  {
    if steps == [] then g else RegistryRun(RegistryApply(g, steps[0]), steps[1..])
  }

  ghost predicate RegistryLegalRun(g: Registry, steps: seq<RegistryStep>)
    decreases |steps|
  {
    steps == [] || (RegistryLegal(g, steps[0]) && RegistryLegalRun(RegistryApply(g, steps[0]), steps[1..]))
  }

  /** Versions given for one key only ever rise. */
  ghost predicate Climbing(given: seq<Given>) {
    forall i, j | 0 <= i < j < |given| && given[i].key == given[j].key :: given[i].version < given[j].version
  }

  /** Some stored artifact of the key has at least this version. */
  ghost predicate Reached(records: map<Name, Artifact>, g: Given) {
    exists x :: x in records && KeyOf(records[x]) == g.key && records[x].version >= g.version
  }

  ghost predicate RegistryInv(g: Registry) {
    && Filed(g.repo) && Ranked(g.repo.artifacts.records) && Climbing(g.given)
    && forall i | 0 <= i < |g.given| :: Reached(g.repo.artifacts.records, g.given[i])
  }

  lemma PutReached(s: Repo, versions: map<VersionKey, int>, a: Artifact, g: Given)
    requires Filed(s) && PutLegal(s, a) && Reached(s.artifacts.records, g)
    ensures Reached(PutInRepo(s, versions, a).artifacts.records, g)
    ensures g.key == KeyOf(a) ==> g.version < Versioned(s, versions, a).version
  {
    hide ArtifactsAgree, PutInRepo, Versioned, ArtifactFits, IdsUnder;
    PutRecords(s, versions, a);
    VersionRises(s, versions, a);
    VersionedIs(s, versions, a);
    var x :| x in s.artifacts.records && KeyOf(s.artifacts.records[x]) == g.key && s.artifacts.records[x].version >= g.version;
    var after := PutInRepo(s, versions, a).artifacts.records;
    assert x in after && KeyOf(after[x]) == g.key && after[x].version >= g.version;
  }

  lemma PutKeepsRegistry(g: Registry, a: Artifact)
    requires RegistryInv(g) && PutLegal(g.repo, a)
    ensures RegistryInv(RegistryApply(g, PutStep(a)))
  {
    hide Filed, Ranked, PutLegal, PutInRepo, Versioned, Reached, PutVersions;
    var u := RegistryApply(g, PutStep(a));
    PutFiled(g.repo, g.versions, a);
    PutRanked(g.repo, g.versions, a);
    forall i | 0 <= i < |g.given|
      ensures Reached(u.repo.artifacts.records, g.given[i])
      ensures g.given[i].key == KeyOf(a) ==> g.given[i].version < Versioned(g.repo, g.versions, a).version
    {
      PutReached(g.repo, g.versions, a, g.given[i]);
    }
    NewReached(g.repo, g.versions, a);
  }

  lemma NewReached(s: Repo, versions: map<VersionKey, int>, a: Artifact)
    requires Filed(s)
    ensures Reached(PutInRepo(s, versions, a).artifacts.records, Given(KeyOf(a), Versioned(s, versions, a).version))
  {
    hide Filed, PutInRepo, Versioned;
    PutRecords(s, versions, a);
    VersionedIs(s, versions, a);
    assert a.id in PutInRepo(s, versions, a).artifacts.records;
  }

  /** Over any sequence of puts, with the registry replaced by a fresh one at any moment, and
      starting over an already filled repository: versions differ, one FINAL at most, FINAL above
      every SUPERSEDED, and the versions given out for a key strictly increase. */
  lemma {:induction false} RegistryHistory(g: Registry, steps: seq<RegistryStep>)
    requires RegistryInv(g) && RegistryLegalRun(g, steps)
    ensures RegistryInv(RegistryRun(g, steps))
    decreases |steps|
  {
    hide Filed, Ranked, PutLegal, PutInRepo, Versioned, Reached, PutVersions, Climbing;
    if steps != [] {
      if steps[0].PutStep? {
        PutKeepsRegistry(g, steps[0].a);
      }
      RegistryHistory(RegistryApply(g, steps[0]), steps[1..]);
    }
  }

  // ---------------------------------------------------------------- the registry object

  /** `(created_at, version, id)` */
  predicate SortsBefore(a: Artifact, b: Artifact) {
    || a.createdAt < b.createdAt
    || (a.createdAt == b.createdAt && (a.version < b.version || (a.version == b.version && Leq(a.id, b.id))))
  }

  predicate SortedArtifacts(list: seq<Artifact>) {
    forall i, j | 0 <= i < j < |list| :: SortsBefore(list[i], list[j])
  }

  lemma SortsTotal(a: Artifact, b: Artifact)
    ensures SortsBefore(a, b) || SortsBefore(b, a)
  {
    TextLeqTotal(a.id.text, b.id.text);
  }

  lemma SortsTransitive(a: Artifact, b: Artifact, c: Artifact)
    requires SortsBefore(a, b) && SortsBefore(b, c)
    ensures SortsBefore(a, c)
  {
    if Leq(a.id, b.id) && Leq(b.id, c.id) {
      TextLeqTransitive(a.id.text, b.id.text, c.id.text);
    }
  }

  function SortIn(list: seq<Artifact>, a: Artifact): seq<Artifact> {
    if list == [] || SortsBefore(list[|list| - 1], a) then list + [a]
    else SortIn(list[..|list| - 1], a) + [list[|list| - 1]]
  }

  function Sort(list: seq<Artifact>): seq<Artifact> {
    if list == [] then [] else SortIn(Sort(list[..|list| - 1]), list[|list| - 1])
  }

  lemma {:induction false} SortInFacts(list: seq<Artifact>, a: Artifact)
    requires SortedArtifacts(list)
    ensures SortedArtifacts(SortIn(list, a)) && multiset(SortIn(list, a)) == multiset(list) + multiset{a}
    ensures forall x :: x in SortIn(list, a) <==> x in list || x == a
  {
    hide SortsBefore;
    if list != [] {
      var n := |list| - 1;
      assert list == list[..n] + [list[n]];
      if SortsBefore(list[n], a) {
        forall i | 0 <= i < n ensures SortsBefore(list[i], a) {
          SortsTransitive(list[i], list[n], a);
        }
      } else {
        SortInFacts(list[..n], a);
        SortsTotal(list[n], a);
        var front := SortIn(list[..n], a);
        forall i | 0 <= i < |front| ensures SortsBefore(front[i], list[n]) {
          assert front[i] in front;
        }
      }
    }
  }

  lemma {:induction false} SortFacts(list: seq<Artifact>)
    ensures SortedArtifacts(Sort(list)) && multiset(Sort(list)) == multiset(list)
    ensures forall x :: x in Sort(list) <==> x in list
  {
    if list != [] {
      var n := |list| - 1;
      SortFacts(list[..n]);
      SortInFacts(Sort(list[..n]), list[n]);
      assert list == list[..n] + [list[n]];
    }
  }

  /** What the caller asked for: by default FINAL artifacts; drafts only if they allow it. */
  predicate Wanted(a: Artifact, kind: Option<string>, role: Option<string>, status: Option<ArtifactStatus>) {
    && (kind.None? || a.kind == kind.value) && (role.None? || a.role == role.value)
    && (if status.None? then a.status == Final else a.status == status.value && (a.status == Draft ==> a.draftVisible))
  }

  /** Each filter by itself turns an artifact away. */
  lemma UnwantedIff(a: Artifact, kind: Option<string>, role: Option<string>, status: Option<ArtifactStatus>)
    ensures !Wanted(a, kind, role, status) <==>
              || (exists k :: kind == Some(k) && a.kind != k)
              || (exists r :: role == Some(r) && a.role != r)
              || (status == None && a.status != Final)
              || (status != None && status != Some(a.status))
              || (status == Some(Draft) && !a.draftVisible)
  {
  }

  /** The order is by creation, then by version, then by id. */
  lemma SortOrder(a: Artifact, b: Artifact)
    ensures a.createdAt < b.createdAt ==> SortsBefore(a, b) && !SortsBefore(b, a)
    ensures a.createdAt == b.createdAt && a.version < b.version ==> SortsBefore(a, b) && !SortsBefore(b, a)
    ensures a.createdAt == b.createdAt && a.version == b.version ==> (SortsBefore(a, b) <==> Leq(a.id, b.id))
  {
  }

  class InMemoryArtifactRegistry {
    const repository: InMemoryWorkflowRepository
    var artifacts: map<Name, Artifact>
    var artifactsByTask: map<Name, seq<Name>>
    var versions: map<VersionKey, int>

    constructor (repository: InMemoryWorkflowRepository)
      ensures this.repository == repository && versions == map[]
    {
      this.repository := repository;
      artifacts, artifactsByTask, versions := map[], map[], map[];
    }

    /** `_persist_artifact` */
    method PersistArtifact(a: Artifact)
      modifies this`artifacts, this`artifactsByTask, repository`artifacts, repository`artifactsByTask
      ensures repository.View() == SaveArtifact(old(repository.View()), a)
    {
      artifacts := artifacts[a.id := a];
      artifactsByTask := File(artifactsByTask, a.taskId, a.id);
      repository.SaveArtifact(a);
    }

    /** Earlier FINAL records of the type become SUPERSEDED. */
    method SupersedePrior(existing: seq<Artifact>, record: Artifact)
      modifies this`artifacts, this`artifactsByTask, repository`artifacts, repository`artifactsByTask
      ensures repository.View() == Supersede(old(repository.View()), existing, record)
    {
      hide SaveArtifact;
      ghost var s := repository.View();
      var i := 0;
      while i < |existing|
        invariant 0 <= i <= |existing| && repository.View() == Supersede(s, existing[..i], record)
      {
        assert existing[..i + 1][..i] == existing[..i];
        if Overtakes(record, existing[i]) {
          PersistArtifact(existing[i].(status := Superseded));
        }
        i := i + 1;
      }
      assert existing[..i] == existing;
    }

    /** `put_artifact` */
    method PutArtifact(a: Artifact) returns (record: Artifact)
      modifies this, repository`artifacts, repository`artifactsByTask
      ensures repository.View() == PutInRepo(old(repository.View()), old(versions), a)
      ensures versions == PutVersions(old(repository.View()), old(versions), a)
      ensures record == Versioned(old(repository.View()), old(versions), a)
    {
      hide SaveArtifact, Supersede, OfRunOnly, Found, MaxVersion, VersionOf, IdsUnder;
      var existing := OfRunOnly(Found(repository.artifacts.records, IdsUnder(repository.artifactsByTask, a.taskId)), a.runId);
      var current := MaxVersion(existing, a.kind, VersionOf(versions, KeyOf(a)));
      record := a;
      if record.version <= 0 || record.version <= current {
        record := record.(version := current + 1);
      }
      versions := versions[KeyOf(a) := if current > record.version then current else record.version];
      SupersedePrior(existing, record);
      PersistArtifact(record);
    }

    /** `get_upstream_artifacts`: exactly the wanted artifacts of the run whose task is a transitive
        hard ancestor of the asking task, in order of creation, version and id. */
    method GetUpstreamArtifacts(taskId: Name, kind: Option<string>, role: Option<string>, status: Option<ArtifactStatus>)
      returns (r: Result<seq<Artifact>>)
      ensures r.Ok? <==> taskId in repository.taskToRun && repository.taskToRun[taskId] in repository.graphs
      ensures r.Ok? ==>
                var g := repository.graphs[repository.taskToRun[taskId]];
                && SortedArtifacts(r.value)
                && forall x :: x in r.value <==>
                     x in ListRun(repository.artifacts, g.run.id) && x.runId == g.run.id && Wanted(x, kind, role, status)
                     && Reaches(HardArcs(g.edges), taskId, x.taskId)
    {
      hide Reaches, HardArcs;
      var g := repository.GraphForTask(taskId);
      if g.Err? {
        return Err(UnknownKey);
      }
      var upstream := repository.UpstreamTaskIds(taskId);
      var candidates := ListRun(repository.artifacts, g.value.run.id);
      var eligible: seq<Artifact> := [];
      var i := 0;
      while i < |candidates|
        invariant 0 <= i <= |candidates|
        invariant forall x :: x in eligible <==>
                    x in candidates[..i] && x.runId == g.value.run.id && Wanted(x, kind, role, status) && x.taskId in upstream.value
      {
        var c := candidates[i];
        assert candidates[..i + 1] == candidates[..i] + [c];
        i := i + 1;
        if c.runId != g.value.run.id || c.taskId !in upstream.value {
          continue;
        }
        if (kind.Some? && c.kind != kind.value) || (role.Some? && c.role != role.value) {
          continue;
        }
        if status.None? {
          if c.status != Final {
            continue;
          }
        } else if c.status != status.value || (c.status == Draft && !c.draftVisible) {
          continue;
        }
        eligible := eligible + [c];
      }
      assert candidates[..i] == candidates;
      SortFacts(eligible);
      return Ok(Sort(eligible));
    }
  }
}
