/** The in-memory repository object (storage/repositories.py): its mutating methods, and the two
    closures over hard edges. */
module InMemoryRepository {
  import opened Names
  import opened Wrappers
  import opened Sequences
  import opened Digraph
  import opened Records
  import opened DependencyGraph
  import opened Repository
  import opened Closures

  class InMemoryWorkflowRepository {
    var graphs: map<Name, Graph>
    var order: seq<Name>
    var tasks: map<Name, Task>
    var taskToRun: map<Name, Name>
    var keyIndex: map<(Name, Name), Name>
    var attempts: Shelf<Attempt>
    var humans: Shelf<HumanRequest>
    var approvals: Shelf<ApprovalRequest>
    var events: Shelf<Event>
    var artifacts: Shelf<Artifact>
    var artifactsByTask: map<Name, seq<Name>>

    ghost function View(): Repo
      reads this
    {
      Repo(graphs, order, tasks, taskToRun, keyIndex, attempts, humans, approvals, events, artifacts, artifactsByTask)
    }

    constructor ()
      ensures View() == EMPTY && Agrees(View())
    {
      graphs, order, tasks, taskToRun, keyIndex := map[], [], map[], map[], map[];
      attempts, humans, approvals := Shelf(map[], map[]), Shelf(map[], map[]), Shelf(map[], map[]);
      events, artifacts, artifactsByTask := Shelf(map[], map[]), Shelf(map[], map[]), map[];
    }

    method RegisterTasks(run: Name, added: seq<Task>)
      modifies this`tasks, this`taskToRun, this`keyIndex
      ensures View() == RegisterAll(old(View()), run, added)
    {
      ghost var base := View();
      var i := 0;
      while i < |added|
        invariant 0 <= i <= |added| && View() == RegisterAll(base, run, added[..i])
      {
        assert added[..i + 1][..i] == added[..i];
        var t := added[i];
        tasks, taskToRun, keyIndex := tasks[t.id := t], taskToRun[t.id := run], keyIndex[(run, t.key) := t.id];
        i := i + 1;
      }
      assert added[..i] == added;
    }

    method SaveGraph(g: Graph)
      modifies this
      ensures View() == Repository.SaveGraph(old(View()), g)
      ensures old(TasksAgree(View())) ==> (TasksAgree(View()) <==> GraphFits(old(View()), g))
    {
      hide TasksAgree, GraphFits, RegisterAll;
      ghost var s := View();
      graphs := graphs[g.run.id := g];
      if g.run.id !in order {
        order := order + [g.run.id];
      }
      RegisterTasks(g.run.id, g.tasks);
      if TasksAgree(s) {
        SaveGraphAgreesIff(s, g);
      }
    }

    method SaveTask(t: Task)
      modifies this
      ensures View() == Repository.SaveTask(old(View()), t)
      ensures old(TasksAgree(View())) ==> (TasksAgree(View()) <==> TaskFits(old(View()), t))
    {
      hide TasksAgree, TaskFits;
      ghost var s := View();
      tasks, taskToRun, keyIndex := tasks[t.id := t], taskToRun[t.id := t.runId], keyIndex[(t.runId, t.key) := t.id];
      if t.runId in graphs {
        var g := graphs[t.runId];
        var updated := Replaced(g.tasks, t);
        if t.id !in TaskIds(g.tasks) {
          updated := updated + [t];
        }
        assert updated == Replaced(g.tasks, t) + if t.id in TaskIds(g.tasks) then [] else [t];
        graphs := graphs[t.runId := g.(tasks := updated)];
      }
      assert View() == Repository.SaveTask(s, t);
      if TasksAgree(s) {
        SaveTaskAgreesIff(s, t);
      }
    }

    method SaveAttempt(a: Attempt)
      modifies this`attempts
      ensures View() == Repository.SaveAttempt(old(View()), a)
    {
      if a.taskId in tasks {
        attempts := Put(attempts, tasks[a.taskId].runId, a.id, a);
      } else {
        attempts := attempts.(records := attempts.records[a.id := a]);
      }
    }

    method SaveArtifact(a: Artifact)
      modifies this`artifacts, this`artifactsByTask
      ensures View() == Repository.SaveArtifact(old(View()), a)
      ensures old(ArtifactsAgree(View())) ==> (ArtifactsAgree(View()) <==> ArtifactFits(old(View()), a))
    {
      ghost var s := View();
      artifacts := Put(artifacts, a.runId, a.id, a);
      artifactsByTask := File(artifactsByTask, a.taskId, a.id);
      if ArtifactsAgree(s) {
        SaveArtifactAgreesIff(s, a);
      }
    }

    method SaveHumanRequest(h: HumanRequest)
      modifies this`humans
      ensures humans == Put(old(humans), h.runId, h.id, h)
    {
      humans := Put(humans, h.runId, h.id, h);
    }

    method SaveApprovalRequest(p: ApprovalRequest)
      modifies this`approvals
      ensures approvals == Put(old(approvals), p.runId, p.id, p)
    {
      approvals := Put(approvals, p.runId, p.id, p);
    }

    method SaveEvent(e: Event)
      modifies this`events
      ensures events == Put(old(events), e.runId, e.id, e)
    {
      events := Put(events, e.runId, e.id, e);
    }

    /** Pop the artifacts listed under one task of the run. */
    method PopTaskArtifacts(run: Name, taskId: Name)
      requires forall x | x in IdsUnder(artifactsByTask, taskId) && x in artifacts.records :: artifacts.records[x].runId == run
      modifies this`artifacts, this`artifactsByTask
      ensures Popped(old(artifacts), old(artifactsByTask), artifacts, artifactsByTask, run, {taskId})
    {
      var ids := IdsUnder(artifactsByTask, taskId);
      ghost var before := artifacts;
      artifactsByTask := artifactsByTask - {taskId};
      var j := 0;
      while j < |ids|
        invariant 0 <= j <= |ids| && artifactsByTask == old(artifactsByTask) - {taskId}
        invariant artifacts.records == before.records - Elements(ids[..j])
        invariant artifacts.byRun - {run} == before.byRun - {run}
        invariant Elements(IdsUnder(before.byRun, run)) - Elements(ids[..j]) <= Elements(IdsUnder(artifacts.byRun, run)) <= Elements(IdsUnder(before.byRun, run))
      {
        var a := ids[j];
        assert ids[..j + 1] == ids[..j] + [a];
        ElementsAppend(ids[..j], [a]);
        if a in artifacts.records {
          var r := artifacts.records[a].runId;
          WithoutMembers(IdsUnder(artifacts.byRun, r), a);
          artifacts := Shelf(artifacts.records - {a}, artifacts.byRun[r := Without(IdsUnder(artifacts.byRun, r), a)]);
        }
        j := j + 1;
      }
      assert ids[..j] == ids;
      assert ArtifactsUnder(old(artifactsByTask), {taskId}) == Elements(ids);
    }

    /** Pop the records listed under a run. */
    static method PopRun<T>(shelf: Shelf<T>, run: Name) returns (r: Shelf<T>)
      ensures r == DropRun(shelf, run)
    {
      var ids := IdsUnder(shelf.byRun, run);
      var records := shelf.records;
      var j := 0;
      while j < |ids|
        invariant 0 <= j <= |ids| && records == shelf.records - Elements(ids[..j])
      {
        assert ids[..j + 1] == ids[..j] + [ids[j]];
        ElementsAppend(ids[..j], [ids[j]]);
        records := records - {ids[j]};
        j := j + 1;
      }
      assert ids[..j] == ids;
      r := Shelf(records, shelf.byRun - {run});
    }

    /** The keys of the run's tasks leave the key index. */
    method PopKeys(run: Name, gone: seq<Task>)
      modifies this`keyIndex
      ensures keyIndex == old(keyIndex) - PairsOf(run, gone)
    {
      var i := 0;
      while i < |gone|
        invariant 0 <= i <= |gone| && keyIndex == old(keyIndex) - PairsOf(run, gone[..i])
      {
        assert TaskKeys(gone[..i + 1]) == TaskKeys(gone[..i]) + [gone[i].key];
        assert PairsOf(run, gone[..i + 1]) == PairsOf(run, gone[..i]) + {(run, gone[i].key)};
        keyIndex := keyIndex - {(run, gone[i].key)};
        i := i + 1;
      }
      assert gone[..i] == gone;
    }

    /** The run's tasks leave the task dictionaries, and their artifacts go with them. */
    method PopTasks(run: Name, gone: seq<Task>)
      requires forall t, x | t in TaskIds(gone) && x in IdsUnder(artifactsByTask, t) && x in artifacts.records :: artifacts.records[x].runId == run
      modifies this`tasks, this`taskToRun, this`artifacts, this`artifactsByTask
      ensures tasks == old(tasks) - Elements(TaskIds(gone)) && taskToRun == old(taskToRun) - Elements(TaskIds(gone))
      ensures Popped(old(artifacts), old(artifactsByTask), artifacts, artifactsByTask, run, Elements(TaskIds(gone)))
    {
      hide Popped, IdsUnder;
      ghost var index, shelf := artifactsByTask, artifacts;
      PoppedNone(shelf, index, run);
      var i := 0;
      assert Elements(TaskIds(gone[..i])) == {};
      while i < |gone|
        invariant 0 <= i <= |gone|
        invariant tasks == old(tasks) - Elements(TaskIds(gone[..i])) && taskToRun == old(taskToRun) - Elements(TaskIds(gone[..i]))
        invariant Popped(shelf, index, artifacts, artifactsByTask, run, Elements(TaskIds(gone[..i])))
      {
        IdsStep(gone, i);
        PoppedReads(shelf, index, artifacts, artifactsByTask, run, Elements(TaskIds(gone[..i])), gone[i].id);
        tasks, taskToRun := tasks - {gone[i].id}, taskToRun - {gone[i].id};
        ghost var mid, midIndex := artifacts, artifactsByTask;
        PopTaskArtifacts(run, gone[i].id);
        PoppedMore(shelf, index, mid, midIndex, artifacts, artifactsByTask, run, Elements(TaskIds(gone[..i])), gone[i].id);
        i := i + 1;
      }
      assert gone[..i] == gone;
    }

    /** Records that are only listed by run. */
    method PopLists(run: Name)
      modifies this`attempts, this`humans, this`approvals, this`events
      ensures attempts == DropRun(old(attempts), run) && humans == DropRun(old(humans), run)
      ensures approvals == DropRun(old(approvals), run) && events == DropRun(old(events), run)
    {
      hide DropRun;
      attempts := PopRun(attempts, run);
      humans := PopRun(humans, run);
      approvals := PopRun(approvals, run);
      events := PopRun(events, run);
    }

    /** Tasks, keys and artifacts. */
    method PopGraph(run: Name, gone: seq<Task>)
      requires forall t, x | t in TaskIds(gone) && x in IdsUnder(artifactsByTask, t) && x in artifacts.records :: artifacts.records[x].runId == run
      modifies this`tasks, this`taskToRun, this`keyIndex, this`artifacts, this`artifactsByTask
      ensures tasks == old(tasks) - Elements(TaskIds(gone)) && taskToRun == old(taskToRun) - Elements(TaskIds(gone))
      ensures keyIndex == old(keyIndex) - PairsOf(run, gone)
      ensures artifacts
           == Shelf(old(artifacts.records) - ArtifactsUnder(old(artifactsByTask), Elements(TaskIds(gone))) - Members(old(IdsUnder(artifacts.byRun, run))),
                    old(artifacts.byRun) - {run})
      ensures artifactsByTask == old(artifactsByTask) - Elements(TaskIds(gone))
    {
      hide PairsOf, ArtifactsUnder, IdsUnder, DropRun, Popped, Members;
      ghost var shelf, index := artifacts, artifactsByTask;
      PopKeys(run, gone);
      PopTasks(run, gone);
      ArtifactsGone(shelf, index, artifacts, artifactsByTask, Elements(TaskIds(gone)), run);
      artifacts := PopRun(artifacts, run);
    }

    /** `delete_workflow_run` */
    method DeleteWorkflowRun(run: Name) returns (deleted: bool)
      requires Agrees(View())
      modifies this
      ensures deleted <==> run in old(graphs)
      ensures View() == if deleted then Deleted(old(View()), run) else old(View())
      ensures Agrees(View())
    {
      hide Agrees, PairsOf, ArtifactsUnder, IdsUnder, Without, DropRun, Members, Deleted;
      if run !in graphs {
        return false;
      }
      ghost var s := View();
      DeletedAgrees(s, run);
      RunArtifacts(s, run);
      var g := graphs[run];
      graphs := graphs - {run};
      order := Without(order, run);
      PopGraph(run, g.tasks);
      PopLists(run);
      DeletedIs(s, run, View());
      return true;
    }

    /** `graph_for_task` */
    method GraphForTask(taskId: Name) returns (r: Result<Graph>)
      ensures r.Ok? <==> taskId in taskToRun && taskToRun[taskId] in graphs
      ensures r.Ok? ==> r.value == graphs[taskToRun[taskId]]
    {
      if taskId !in taskToRun {
        return Err(UnknownKey);
      }
      var run := taskToRun[taskId];
      if run !in graphs {
        return Err(UnknownKey);
      }
      return Ok(graphs[run]);
    }

    /** `upstream_task_ids`: exactly the tasks reached backwards by one or more hard edges. */
    method UpstreamTaskIds(taskId: Name) returns (r: Result<set<Name>>)
      ensures r.Ok? <==> taskId in taskToRun && taskToRun[taskId] in graphs
      ensures r.Ok? ==>
                var arcs := HardArcs(graphs[taskToRun[taskId]].edges);
                && (forall y :: y in r.value <==> Reaches(arcs, taskId, y))
                && (Acyclic(arcs) ==> taskId !in r.value)
    {
      var g := GraphForTask(taskId);
      if g.Err? {
        return Err(UnknownKey);
      }
      var m := UpstreamMap(g.value.edges);
      var found := Reachable(m, taskId, HardArcs(g.value.edges));
      NotSelf(HardArcs(g.value.edges), taskId);
      return Ok(found);
    }

    /** `dependent_task_ids`, the exact dual: `y` depends on the task when the task is upstream of `y`. */
    method DependentTaskIds(taskId: Name) returns (r: Result<set<Name>>)
      ensures r.Ok? <==> taskId in taskToRun && taskToRun[taskId] in graphs
      ensures r.Ok? ==>
                var arcs := HardArcs(graphs[taskToRun[taskId]].edges);
                && (forall y :: y in r.value <==> Reaches(arcs, y, taskId))
                && (Acyclic(arcs) ==> taskId !in r.value)
    {
      var g := GraphForTask(taskId);
      if g.Err? {
        return Err(UnknownKey);
      }
      ghost var arcs := HardArcs(g.value.edges);
      var m := DownstreamMap(g.value.edges);
      var found := Reachable(m, taskId, Reversed(arcs));
      forall y ensures Reaches(Reversed(arcs), taskId, y) <==> Reaches(arcs, y, taskId) {
        ReachesReversed(arcs, y, taskId);
      }
      NotSelf(arcs, taskId);
      return Ok(found);
    }
  }

  lemma NotSelf(arcs: Arcs, x: Name)
    ensures Acyclic(arcs) ==> !Reaches(arcs, x, x)
  {
    if Acyclic(arcs) {
      AcyclicIrreflexive(arcs, x);
    }
  }

  lemma ArtifactsGone(before: Shelf<Artifact>, index: map<Name, seq<Name>>, now: Shelf<Artifact>, nowIndex: map<Name, seq<Name>>,
                      ids: set<Name>, run: Name)
    requires Popped(before, index, now, nowIndex, run, ids)
    ensures DropRun(now, run)
         == Shelf(before.records - ArtifactsUnder(index, ids) - Members(IdsUnder(before.byRun, run)), before.byRun - {run})
    ensures nowIndex == index - ids
  {
  }

  lemma DeletedIs(s: Repo, run: Name, u: Repo)
    requires run in s.graphs
    requires u.graphs == s.graphs - {run} && u.order == Without(s.order, run)
    requires u.tasks == s.tasks - Elements(TaskIds(s.graphs[run].tasks)) && u.taskToRun == s.taskToRun - Elements(TaskIds(s.graphs[run].tasks))
    requires u.keyIndex == s.keyIndex - PairsOf(run, s.graphs[run].tasks)
    requires u.attempts == DropRun(s.attempts, run) && u.humans == DropRun(s.humans, run)
    requires u.approvals == DropRun(s.approvals, run) && u.events == DropRun(s.events, run)
    requires u.artifacts
          == Shelf(s.artifacts.records - ArtifactsUnder(s.artifactsByTask, Elements(TaskIds(s.graphs[run].tasks))) - Members(IdsUnder(s.artifacts.byRun, run)),
                   s.artifacts.byRun - {run})
    requires u.artifactsByTask == s.artifactsByTask - Elements(TaskIds(s.graphs[run].tasks))
    ensures u == Deleted(s, run)
  {
    hide DropRun, ArtifactsUnder, PairsOf, Without;
  }

  lemma RunArtifacts(s: Repo, run: Name)
    requires Agrees(s) && run in s.graphs
    ensures forall t, x | t in TaskIds(s.graphs[run].tasks) && x in IdsUnder(s.artifactsByTask, t) && x in s.artifacts.records ::
              s.artifacts.records[x].runId == run
  {
    forall t, x | t in TaskIds(s.graphs[run].tasks) && x in IdsUnder(s.artifactsByTask, t) && x in s.artifacts.records
      ensures s.artifacts.records[x].runId == run
    {
      RunTasks(s, run, t);
    }
  }

  lemma IdsStep(gone: seq<Task>, i: nat)
    requires i < |gone|
    ensures Elements(TaskIds(gone[..i + 1])) == Elements(TaskIds(gone[..i])) + {gone[i].id}
    ensures gone[i].id in TaskIds(gone)
  {
    assert TaskIds(gone[..i + 1]) == TaskIds(gone[..i]) + [gone[i].id];
    ElementsAppend(TaskIds(gone[..i]), [gone[i].id]);
    assert TaskIds(gone)[i] == gone[i].id;
  }

  /** The artifacts of these tasks have been popped, and only the run's own list was filtered. */
  ghost predicate Popped(shelf: Shelf<Artifact>, index: map<Name, seq<Name>>, now: Shelf<Artifact>, nowIndex: map<Name, seq<Name>>,
                         run: Name, ids: set<Name>) {
    && nowIndex == index - ids && now.records == shelf.records - ArtifactsUnder(index, ids)
    && now.byRun - {run} == shelf.byRun - {run}
    && Elements(IdsUnder(shelf.byRun, run)) - ArtifactsUnder(index, ids) <= Elements(IdsUnder(now.byRun, run)) <= Elements(IdsUnder(shelf.byRun, run))
  }

  lemma PoppedNone(shelf: Shelf<Artifact>, index: map<Name, seq<Name>>, run: Name)
    ensures Popped(shelf, index, shelf, index, run, {})
  {
  }

  lemma PoppedReads(shelf: Shelf<Artifact>, index: map<Name, seq<Name>>, now: Shelf<Artifact>, nowIndex: map<Name, seq<Name>>,
                    run: Name, ids: set<Name>, t: Name)
    requires Popped(shelf, index, now, nowIndex, run, ids)
    requires forall x | x in IdsUnder(index, t) && x in shelf.records :: shelf.records[x].runId == run
    ensures forall x | x in IdsUnder(nowIndex, t) && x in now.records :: now.records[x].runId == run
  {
  }

  lemma UnderMore(index: map<Name, seq<Name>>, ids: set<Name>, t: Name)
    ensures ArtifactsUnder(index, ids + {t}) == ArtifactsUnder(index, ids) + ArtifactsUnder(index - ids, {t})
  {
    forall x | x in ArtifactsUnder(index, ids + {t}) ensures x in ArtifactsUnder(index, ids) + ArtifactsUnder(index - ids, {t}) {
      var k :| k in ids + {t} && k in index && x in index[k];
      if k !in ids {
        var rest := index - ids;
        assert k in {t} && k in rest && x in rest[k];
        assert x in ArtifactsUnder(rest, {t});
      }
    }
    forall x | x in ArtifactsUnder(index - ids, {t}) ensures x in ArtifactsUnder(index, ids + {t}) {
      assert t in ids + {t} && t in index && x in index[t];
    }
  }

  lemma PoppedMore(shelf: Shelf<Artifact>, index: map<Name, seq<Name>>, mid: Shelf<Artifact>, midIndex: map<Name, seq<Name>>,
                   now: Shelf<Artifact>, nowIndex: map<Name, seq<Name>>, run: Name, ids: set<Name>, t: Name)
    requires Popped(shelf, index, mid, midIndex, run, ids) && Popped(mid, midIndex, now, nowIndex, run, {t})
    ensures Popped(shelf, index, now, nowIndex, run, ids + {t})
  {
    UnderMore(index, ids, t);
  }

  lemma WithoutMembers(ids: seq<Name>, x: Name)
    ensures Elements(Without(ids, x)) == Elements(ids) - {x}
  {
    forall y ensures y in Without(ids, x) <==> y in ids && y != x {
      WithoutMember(ids, x, y);
    }
  }
}
