/** The runtime object (local_runtime.py). */
module LocalRuntime {
  import opened Names
  import opened Wrappers
  import opened Sequences
  import opened Digraph
  import opened Records
  import opened DependencyGraph
  import opened RunModel
  import opened RunInvariant
  import opened RunHistory
  import opened WorkflowRun
  import opened Orchestration
  import opened Protocol
  import opened Tables
  import opened DurableStore
  import opened CanonicalSync
  import opened Reload

  // Persisting the run through the repository, loading a run back from it, and recovering on load
  // the attempts that were in flight when the previous process stopped and whose lease is gone; the
  // specifications are in `CanonicalSync`, `Reload` and `Orchestration`.

  /** Attempts in flight whose lease is not held. */
  ghost function Stale(s: RunState, leased: set<Name>): set<Name> {
    set a | a in s.attemptsById && InFlight(s.attemptsById[a].state) && a !in leased
  }

  ghost predicate Recoverable(s: RunState, leased: set<Name>) {
    forall a | a in Stale(s, leased) :: s.attemptsById[a].taskId in s.tasksById && Blockable(s.tasksById[s.attemptsById[a].taskId].state)
  }

  /** Recovery stopped at `stuck`, whose task cannot be blocked, after recovering `done`. */
  ghost predicate StoppedAt(s: RunState, leased: set<Name>, done: set<Name>, stuck: Name, u: RunState) {
    && done <= Stale(s, leased) && stuck in Stale(s, leased) && stuck !in done
    && s.attemptsById[stuck].taskId in s.tasksById && !Blockable(s.tasksById[s.attemptsById[stuck].taskId].state)
    && (forall a | a in done :: s.attemptsById[a].taskId in s.tasksById && Blockable(s.tasksById[s.attemptsById[a].taskId].state))
    && u == MoveAttempt(RecoverSome(s, done), stuck, ORPHANED).state
  }

  /** List a dictionary's keys in some order. */
  method ListKeys<T>(m: map<Name, T>) returns (keys: seq<Name>)
    ensures OrderOf(keys, m)
  {
    keys := [];
    var rest := m.Keys;
    while rest != {}
      invariant Distinct(keys) && Elements(keys) + rest == m.Keys && Elements(keys) !! rest
      decreases |rest|
    {
      var x :| x in rest;
      assert x !in Elements(keys);
      ElementsAppend(keys, [x]);
      DistinctAppend(keys, [x]);
      keys := keys + [x];
      rest := rest - {x};
    }
  }

  class Runtime {
    const repository: SQLiteWorkflowRepository
    var orchestration: OrchestrationService
    var lastSignature: Option<Signature>

    constructor (repository: SQLiteWorkflowRepository, orchestration: OrchestrationService, lastSignature: Option<Signature>)
      ensures this.repository == repository && this.orchestration == orchestration && this.lastSignature == lastSignature
    {
      this.repository, this.orchestration, this.lastSignature := repository, orchestration, lastSignature;
    }

    ghost function Sys(): System
      reads this, orchestration.state, repository
    {
      System(orchestration.state.View(), repository.db, lastSignature)
    }

    /** `_sync_canonical_state` */
    method SyncCanonicalState() returns (ok: bool, ghost o: DictOrders)
      modifies this`lastSignature, repository
      ensures OrdersOf(orchestration.state.View(), o)
      ensures Sys() == AfterSync(old(Sys()), o)
      ensures ok == SyncTransaction(old(Sys()), o).Ok?
    {
      var state := orchestration.state;
      var signature := SignatureOf(state.graph);
      var full := Some(signature) != lastSignature;
      var tasks := ListKeys(state.tasksById);
      var attempts := ListKeys(state.attemptsById);
      var humans := ListKeys(state.humanRequests);
      var approvals := ListKeys(state.approvalRequests);
      o := DictOrders(tasks, attempts, humans, approvals);
      OrderKnown(tasks, state.tasksById);
      OrderKnown(attempts, state.attemptsById);
      OrderKnown(humans, state.humanRequests);
      OrderKnown(approvals, state.approvalRequests);
      ok := repository.SaveRuntimeState(
        state.graph.run, Listed(state.tasksById, tasks), Listed(state.attemptsById, attempts),
        Listed(state.humanRequests, humans), Listed(state.approvalRequests, approvals), if full then Some(state.graph) else None);
      if ok && full {
        lastSignature := Some(signature);
      }
    }

    /** One stale attempt: recover it, then persist. */
    method RecoverAndSync(ghost s: RunState, ghost done: set<Name>, id: Name, ghost ids: iset<Name>) returns (ok: bool)
      requires Inv(s) && SysInv(ids, Sys()) && orchestration.state.View() == RecoverSome(s, done)
      requires id in s.attemptsById && id !in done && InFlight(s.attemptsById[id].state) && AllInFlight(s, done)
      modifies this`lastSignature, repository, orchestration.state
      ensures s.attemptsById[id].taskId in s.tasksById
      ensures ok <==> Blockable(s.tasksById[s.attemptsById[id].taskId].state)
      ensures ok ==> SysInv(ids, Sys()) && orchestration.state.View() == RecoverSome(s, done + {id})
      ensures ok ==> Mirrored(repository.db, orchestration.state.View()) && lastSignature == Some(SignatureOf(orchestration.state.graph))
      ensures !ok ==> orchestration.state.View() == MoveAttempt(RecoverSome(s, done), id, ORPHANED).state
      ensures !ok ==> SysInv(ids, Sys()) && repository.db == old(repository.db)
    {
      hide Inv, SysInv, RecoverSome, RecoverRound, Mirrored, SyncTransaction, AfterSync, SignatureOf, OrdersOf, MoveAttempt;
      ghost var before := Sys();
      RecoverOutcome(s, done, id);
      SysIsInv(ids, before);
      var r := orchestration.RecoverOne(s, done, id);
      if r.Err? {
        CallInv(ids, before, Move(id, ORPHANED));
        return false;
      }
      RoundKeepsSys(ids, before, s.attemptsById[id].taskId, id);
      ghost var middle := Sys();
      ghost var o;
      ok, o := SyncCanonicalState();
      SyncedIs(ids, middle, o);
    }

    /** `_reconcile_stale_attempts_on_load`; `leased` holds the attempts whose lease was found when
        asked for.  It raises exactly when some stale attempt's task cannot be blocked; otherwise
        exactly the stale attempts are ORPHANED, exactly their tasks READY, and the store agrees.
        When it raises at `stuck`, the attempts in `done` have been recovered and persisted, `stuck`
        has been orphaned in memory only, and nothing else has changed. */
    method ReconcileStaleAttempts(leased: set<Name>, ghost ids: iset<Name>) returns (ok: bool, ghost done: set<Name>, ghost stuck: Name)
      requires SysInv(ids, Sys())
      modifies this`lastSignature, repository, orchestration.state
      ensures SysInv(ids, Sys())
      ensures var s := old(orchestration.state.View());
              && (ok <==> Recoverable(s, leased))
              && (ok ==> orchestration.state.View() == RecoverSome(s, Stale(s, leased)))
              && (ok && Stale(s, leased) != {} ==> Mirrored(repository.db, orchestration.state.View()))
              && (Stale(s, leased) == {} ==> repository.db == old(repository.db))
              && (!ok ==> StoppedAt(s, leased, done, stuck, orchestration.state.View()))
              && (!ok && done == {} ==> repository.db == old(repository.db))
              && (!ok && done != {} ==> Mirrored(repository.db, RecoverSome(s, done)))
    {
      hide Inv, Mirrored, SyncTransaction, AfterSync, SysInv, RecoverRound, RecoverSome, SignatureOf, Distinct;
      ghost var s := orchestration.state.View();
      SysIsInv(ids, Sys());
      RecoverNone(s);
      var recovered := false;
      var order := ListKeys(orchestration.state.attemptsById);
      OrderKnown(order, s.attemptsById);
      done, stuck := {}, *;
      var i := 0;
      while i < |order|
        invariant 0 <= i <= |order|
        invariant done == Stale(s, leased) * Elements(order[..i])
        invariant orchestration.state.View() == RecoverSome(s, done)
        invariant SysInv(ids, Sys())
        invariant forall a | a in done :: s.attemptsById[a].taskId in s.tasksById && Blockable(s.tasksById[s.attemptsById[a].taskId].state)
        invariant recovered <==> done != {}
        invariant recovered ==> Mirrored(repository.db, orchestration.state.View())
        invariant recovered ==> lastSignature == Some(SignatureOf(orchestration.state.graph))
        invariant !recovered ==> repository.db == old(repository.db)
      {
        var id := order[i];
        SysIsInv(ids, Sys());
        PrefixStep(order, i);
        Untouched(s, done, id);
        assert orchestration.state.attemptsById[id] == s.attemptsById[id];
        if InFlight(orchestration.state.attemptsById[id].state) && id !in leased {
          var saved := RecoverAndSync(s, done, id, ids);
          if !saved {
            stuck := id;
            return false, done, stuck;
          }
          done := done + {id};
          recovered := true;
        }
        i := i + 1;
      }
      assert order[..i] == order;
      assert done == Stale(s, leased);
      if recovered {
        lastSignature := Some(SignatureOf(orchestration.state.graph));
      }
      return true, done, stuck;
    }

    /** The state `load_workflow_run` builds: graph, then attempts by number, then requests. */
    method LoadState(run: Name) returns (r: Result<WorkflowRunState>)
      ensures r.Ok? <==> Reloaded(repository.db, run).Ok?
      ensures r.Ok? ==> fresh(r.value) && r.value.View() == Reloaded(repository.db, run).value
      ensures r.Err? ==> Reloaded(repository.db, run) == Err(r.error)
    {
      hide Inv, RecordAttempt, GetGraph, ListAttempts, OfRun, AddRows, FromGraph;
      var db := repository.db;
      var g := GetGraph(db, run);
      if g.Err? {
        return Err(g.error);
      }
      var state := new WorkflowRunState(g.value);
      var attempts := ListAttempts(db, run);
      var i := 0;
      while i < |attempts|
        invariant 0 <= i <= |attempts| && state.View() == Replay(FromGraph(g.value), attempts[..i])
      {
        assert attempts[..i + 1][..i] == attempts[..i];
        state.RecordAttempt(attempts[i]);
        i := i + 1;
      }
      assert attempts[..i] == attempts;
      state.humanRequests := AddRows(map[], OfRun(db.humans, run));
      state.approvalRequests := AddRows(map[], OfRun(db.approvals, run));
      r := Ok(state);
    }

    /** `load_workflow_run`, for a run `s` whose last act was a sync: the same run comes back, minus
        its stale attempts.  A run whose calls were made in the runtime's order loads without
        raising, and again has every attempt in flight under a task IN_PROGRESS. */
    method LoadWorkflowRun(run: Name, leased: set<Name>, ghost s: RunState, ghost ids: iset<Name>)
      returns (ok: bool, ghost done: set<Name>, ghost stuck: Name)
      requires Inv(s) && IdsWithin(ids, s) && OwnRows(ids, run, repository.db) && s.graph.run.id == run && Mirrored(repository.db, s)
      modifies this, repository
      ensures Reloaded(old(repository.db), run).Ok?
      ensures var u := Reloaded(old(repository.db), run).value;
              && SameState(u, s)
              && (ok <==> Recoverable(u, leased))
              && (ok ==> orchestration.state.View() == RecoverSome(u, Stale(u, leased)))
              && (Stale(u, leased) == {} ==> repository.db == old(repository.db))
              && (!ok ==> StoppedAt(u, leased, done, stuck, orchestration.state.View()))
              && (!ok && done == {} ==> repository.db == old(repository.db))
              && (!ok && done != {} ==> Mirrored(repository.db, RecoverSome(u, done)))
      ensures SysInv(ids, Sys())
      ensures Grounded(s) ==> ok && Grounded(orchestration.state.View())
    {
      hide StoppedAt, Grounded, Inv, IdsWithin, OwnRows, Mirrored, Reloaded, SysInv, SameState, Recoverable, Stale, RecoverSome;
      SaveThenReload(s, repository.db);
      ReloadedRuntime(ids, s, repository.db);
      var state := LoadState(run);
      orchestration := new OrchestrationService(state.value);
      lastSignature := Some(SignatureOf(orchestration.state.graph));
      ghost var u := state.value.View();
      SameStateInv(u, s);
      if Grounded(s) {
        SameStateGrounded(u, s);
        GroundedRecoverable(u, leased);
        RecoveredGrounded(u, leased);
      }
      ok, done, stuck := ReconcileStaleAttempts(leased, ids);
    }
  }

  // ---------------------------------------------------------------- recovery that cannot raise

  /** Where every attempt in flight has its task IN_PROGRESS, recovery raises for none. */
  lemma GroundedRecoverable(s: RunState, leased: set<Name>)
    requires Grounded(s)
    ensures Recoverable(s, leased)
  {
  }

  /** The attempt was running or being dispatched and its lease is gone. */
  ghost predicate Lost(s: RunState, leased: set<Name>, a: Name) {
    a in s.attemptsById && s.attemptsById[a].state in {DISPATCHING, RUNNING} && a !in leased
  }

  /** After recovery no attempt without a lease is in flight: exactly the lost attempts are ORPHANED and
      exactly their tasks READY; everything else is as it was. */
  lemma RecoveredExact(s: RunState, leased: set<Name>)
    ensures var u := RecoverSome(s, Stale(s, leased));
            && u.attemptsById.Keys == s.attemptsById.Keys && u.tasksById.Keys == s.tasksById.Keys
            && (forall a :: !Lost(u, leased, a))
            && (forall a | a in s.attemptsById ::
                  u.attemptsById[a] == if Lost(s, leased, a) then s.attemptsById[a].(state := ORPHANED) else s.attemptsById[a])
            && (forall x | x in s.tasksById ::
                  u.tasksById[x] ==
                    if exists a :: Lost(s, leased, a) && s.attemptsById[a].taskId == x
                    then s.tasksById[x].(state := READY, blockReason := None) else s.tasksById[x])
            && u == s.(attemptsById := u.attemptsById, tasksById := u.tasksById, graph := s.graph.(tasks := u.graph.tasks))
  {
    assert forall a :: a in Stale(s, leased) <==> Lost(s, leased, a);
  }

  /** Recovery succeeds exactly when the task of every lost attempt is in a state that can be blocked. */
  lemma RecoverableIff(s: RunState, leased: set<Name>)
    ensures Recoverable(s, leased) <==>
              forall a | Lost(s, leased, a) ::
                && s.attemptsById[a].taskId in s.tasksById
                && s.tasksById[s.attemptsById[a].taskId].state in {READY, IN_PROGRESS, WAITING_FOR_HUMAN, WAITING_FOR_APPROVAL}
  {
    assert forall a :: a in Stale(s, leased) <==> Lost(s, leased, a);
  }

  /** And what recovery leaves is such a state again. */
  lemma RecoveredGrounded(s: RunState, leased: set<Name>)
    requires Inv(s) && Grounded(s)
    ensures Grounded(RecoverSome(s, Stale(s, leased)))
  {
    hide GraphOk, Indexed, Safe, Numbered, HumanOk, ApprovalsOk, RequestsOwned, StatusOk;
    var u := RecoverSome(s, Stale(s, leased));
    forall a | a in u.attemptsById && InFlight(u.attemptsById[a].state) ensures TaskIs(u, u.attemptsById[a].taskId, IN_PROGRESS) {
      assert TaskIs(s, s.attemptsById[a].taskId, IN_PROGRESS);
    }
  }

  lemma SameStateGrounded(u: RunState, s: RunState)
    requires SameState(u, s) && Grounded(s)
    ensures Grounded(u)
  {
  }

  /** Every call of the history is made in the runtime's order. */
  ghost predicate HistoryInOrder(sys: System, steps: seq<Step>)
    decreases |steps|
  {
    steps == [] || ((steps[0].Call? ==> InOrder(sys.state, steps[0].op)) && HistoryInOrder(Advance(sys, steps[0]), steps[1..]))
  }

  lemma {:induction false} HistoryGrounded(ids: iset<Name>, sys: System, steps: seq<Step>)
    requires SysInv(ids, sys) && Grounded(sys.state) && HistoryLegal(ids, sys, steps) && HistoryInOrder(sys, steps)
    ensures Grounded(History(sys, steps).state)
    decreases |steps|
  {
    hide SysInv, Inv, Grounded, AfterSync, Apply, SameRun, OwnRows, Legal, DrawnFrom, InOrder;
    if steps != [] {
      SysIsInv(ids, sys);
      match steps[0] {
        case Call(op) =>
          StepGrounded(sys.state, op);
          CallInv(ids, sys, op);
        case Sync(o) =>
          AfterSyncState(sys, o);
          AfterSyncInv(ids, sys, o);
        case Elsewhere(db) => ElsewhereInv(ids, sys, db);
      }
      HistoryGrounded(ids, Advance(sys, steps[0]), steps[1..]);
    }
  }

  lemma AfterSyncState(sys: System, o: DictOrders)
    requires OrdersOf(sys.state, o)
    ensures AfterSync(sys, o).state == sys.state
  {
  }

  /** A process that stops after a sync, whatever it did in memory since, can be taken up again:
      loading what was persisted finds the run as it was synced, recovery raises for no set of
      leases, and afterwards the same holds of the new process. */
  lemma CrashRecovers(ids: iset<Name>, start: System, steps: seq<Step>, o: DictOrders, leased: set<Name>)
    requires SysInv(ids, start) && Grounded(start.state) && HistoryLegal(ids, start, steps) && HistoryInOrder(start, steps)
    requires OrdersOf(History(start, steps).state, o)
    ensures var before := History(start, steps);
            var db := AfterSync(before, o).db;
            && Reloaded(db, before.state.graph.run.id).Ok?
            && var u := Reloaded(db, before.state.graph.run.id).value;
               SameState(u, before.state) && Inv(u) && Recoverable(u, leased) && Grounded(RecoverSome(u, Stale(u, leased)))
  {
    hide SysInv, Inv, Grounded, AfterSync, Recoverable, Stale, RecoverSome, SameState, Mirrored, HistoryLegal, HistoryInOrder, OrdersOf, Reloaded, GetGraph, OtherRunsSame, SyncTransaction;
    var before := History(start, steps);
    HistoryInv(ids, start, steps);
    HistoryGrounded(ids, start, steps);
    SysIsInv(ids, before);
    SyncRefinesRewrite(ids, start, steps, o);
    SaveThenReload(before.state, AfterSync(before, o).db);
    var u := Reloaded(AfterSync(before, o).db, before.state.graph.run.id).value;
    SameStateInv(u, before.state);
    SameStateGrounded(u, before.state);
    GroundedRecoverable(u, leased);
    RecoveredGrounded(u, leased);
  }

  /** Out of that order recovery can raise: an attempt opened and dispatched for a task that was
      never started is stranded by legal calls. */
  lemma UnorderedStrands(run: Name, t: Name, key: Name, a: Name)
    ensures var g := Graph(Run(run, 1, RunCreated, false, false, ""), [Task(t, run, key, CREATED, None, "")], []);
            var ops := [OpenOp(t, a, None, ""), Dispatch(a)];
            && Startable(g) && LegalRun(FromGraph(g), ops) && !InOrderRun(FromGraph(g), ops)
            && !Recoverable(RunHistory.Run(FromGraph(g), ops), {})
  {
    hide Startable, InOrderRun, LegalRun, Recoverable, Stale, Inv, FromGraph, OpenAttempt;
    var g := Graph(Run(run, 1, RunCreated, false, false, ""), [Task(t, run, key, CREATED, None, "")], []);
    var s, open := FromGraph(g), OpenOp(t, a, None, "");
    OneTaskStartable(g);
    FromGraphInv(g);
    OneTaskOpened(g, t, a);
    var s1 := Apply(s, open);
    DispatchedInFlight(s1, t, a);
    TwoCalls(s, open, Dispatch(a));
  }

  lemma OneTaskStartable(g: Graph)
    requires |g.tasks| == 1 && g.edges == [] && g.tasks[0].runId == g.run.id && g.tasks[0].state == CREATED && g.run.status == RunCreated
    ensures Startable(g)
  {
    hide Startable;
    assert HardArcs(g.edges) == {};
    assert Acyclic({}) by {
      SupportedAcyclic({}, []);
    }
    AllCreatedStartable(g);
  }

  lemma OneTaskOpened(g: Graph, t: Name, a: Name)
    requires |g.tasks| == 1 && g.tasks[0].id == t && g.tasks[0].state == CREATED && Inv(FromGraph(g))
    ensures var u := Apply(FromGraph(g), OpenOp(t, a, None, ""));
            && Legal(FromGraph(g), OpenOp(t, a, None, ""))
            && TaskIs(u, t, CREATED) && AttemptOf(u, a, t) && u.attemptsById[a].state == QUEUED
  {
    hide Inv;
    AddByIdAt(map[], g.tasks, 0);
    LookupId(FromGraph(g), t);
  }

  lemma DispatchedInFlight(s: RunState, t: Name, a: Name)
    requires TaskIs(s, t, CREATED) && AttemptOf(s, a, t) && s.attemptsById[a].state == QUEUED
    ensures !InOrder(s, Dispatch(a)) && !Recoverable(Apply(s, Dispatch(a)), {})
  {
    var u := Apply(s, Dispatch(a));
    assert a in Stale(u, {});
  }

  lemma TwoCalls(s: RunState, x: Op, y: Op)
    ensures RunHistory.Run(s, [x, y]) == Apply(Apply(s, x), y)
    ensures LegalRun(s, [x, y]) <==> Legal(s, x) && Legal(Apply(s, x), y)
    ensures InOrderRun(s, [x, y]) <==> InOrder(s, x) && InOrder(Apply(s, x), y)
  {
    hide Apply, Legal, InOrder;
    var u := Apply(s, x);
    assert [x, y][1..] == [y] && [y][1..] == [];
    assert RunHistory.Run(u, [y]) == RunHistory.Run(Apply(u, y), []);
    assert LegalRun(u, [y]) <==> Legal(u, y);
    assert InOrderRun(u, [y]) <==> InOrder(u, y);
  }

  lemma SysIsInv(ids: iset<Name>, sys: System)
    requires SysInv(ids, sys)
    ensures Inv(sys.state)
  {
    hide Inv;
  }

  lemma Untouched(s: RunState, done: set<Name>, a: Name)
    requires a in s.attemptsById && a !in done
    ensures a in RecoverSome(s, done).attemptsById && RecoverSome(s, done).attemptsById[a] == s.attemptsById[a]
  {
  }

  lemma PrefixStep(order: seq<Name>, i: nat)
    requires Distinct(order) && i < |order|
    ensures Elements(order[..i + 1]) == Elements(order[..i]) + {order[i]} && order[i] !in Elements(order[..i])
  {
    assert order[..i + 1] == order[..i] + [order[i]];
  }

  /** One round of recovery is three calls on the run, so syncing stays exact. */
  lemma RoundKeepsSys(ids: iset<Name>, sys: System, taskId: Name, a: Name)
    requires SysInv(ids, sys) && RecoverRound(sys.state, taskId, a).reply.Ok?
    ensures SysInv(ids, sys.(state := RecoverRound(sys.state, taskId, a).state))
  {
    hide SysInv, MoveAttempt, BlockTask, UnblockTask;
    var reason := "lease_missing_on_runtime_load";
    var one := sys.(state := Apply(sys.state, Move(a, ORPHANED)));
    var two := one.(state := Apply(one.state, Block(taskId, reason)));
    CallInv(ids, sys, Move(a, ORPHANED));
    CallInv(ids, one, Block(taskId, reason));
    CallInv(ids, two, Unblock(taskId));
  }

  lemma SyncedIs(ids: iset<Name>, sys: System, o: DictOrders)
    requires SysInv(ids, sys) && OrdersOf(sys.state, o)
    ensures SyncTransaction(sys, o).Ok?
    ensures var after := AfterSync(sys, o);
            && SysInv(ids, after) && after.state == sys.state && Mirrored(after.db, sys.state)
            && after.signature == Some(SignatureOf(sys.state.graph))
  {
    hide SysInv, Mirrored, SyncTransaction;
    SyncExact(ids, sys, o);
    AfterSyncInv(ids, sys, o);
  }
}