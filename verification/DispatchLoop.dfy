/** The bounded parallel launch loop (local_runtime.py). */
module DispatchLoop {
  import opened Names
  import opened Wrappers
  import opened Sequences
  import opened Records

  // The loop looks which tasks are ready, launches some of them on a bounded pool, waits for some to
  // finish and looks again.  The rest of the world is an arbitrary function of what happened so far:
  // which tasks are ready, how many attempts are active, whether a task is still READY when its turn
  // comes, which futures finish first and what they report, or whether they raise.

  /** `_max_parallel_dispatches`: a setting that is missing or not a number counts as 1, a workflow
      limit that is missing or not a number does not count. */
  function MaxParallel(setting: Option<int>, workflowLimit: Option<int>): (r: nat)
    ensures r >= 1
  {
    var configured := if setting.Some? && setting.value > 1 then setting.value else 1;
    if workflowLimit.None? then configured
    else
      var bound := if workflowLimit.value > 1 then workflowLimit.value else 1;
      if bound < configured then bound else configured
  }

  /** The largest number that is at most each usable setting, and 1 when that leaves none. */
  lemma MaxParallelIs(setting: Option<int>, workflowLimit: Option<int>)
    ensures var r := MaxParallel(setting, workflowLimit);
            && (setting.Some? && setting.value >= 1 ==> r <= setting.value)
            && (workflowLimit.Some? && workflowLimit.value >= 1 ==> r <= workflowLimit.value)
            && (r == 1 || (setting.Some? && r == setting.value) || (workflowLimit.Some? && r == workflowLimit.value))
            && (r == 1 ==> setting.None? || setting.value <= 1 || (workflowLimit.Some? && workflowLimit.value <= 1))
  {
  }

  datatype Report = Report(task: Name, attempt: Option<AttemptState>, state: TaskState)

  /** A report after which nothing more is launched. */
  predicate Pausing(r: Report) {
    r.attempt == Some(NEEDS_INPUT) || r.attempt == Some(PAUSED) || r.state == WAITING_FOR_HUMAN || r.state == WAITING_FOR_APPROVAL
  }

  // ---------------------------------------------------------------- what happened, in order

  /** `Skip`: a chosen task was no longer READY.  `Wait`: these futures have completed. */
  datatype Happening =
    | Look(ready: seq<Name>, active: nat)
    | Skip(task: Name)
    | Launch(index: nat, task: Name)
    | Wait(done: set<nat>)
    | Finish(index: nat, task: Name, report: Report)
    | Raise(index: nat, task: Name)

  type Log = seq<Happening>

  datatype World = World(
    ready: Log -> seq<Name>, active: Log -> nat, stillReady: (Log, Name) -> bool,
    completed: Log -> set<nat>, result: (Log, nat) -> Option<Report>)

  /** A schedule names no task twice, and waiting returns some of the running futures. */
  ghost predicate Sane(w: World) {
    && (forall log :: Distinct(w.ready(log)))
    && (forall log :: |Running(log)| > 0 ==> w.completed(log) != {} && w.completed(log) <= Running(log).Keys)
  }

  function Last(log: Log): Happening
    requires log != []
  {
    log[|log| - 1]
  }

  function Front(log: Log): Log
    requires log != []
  {
    log[..|log| - 1]
  }

  function Launches(log: Log): nat {
    if log == [] then 0 else Launches(Front(log)) + if Last(log).Launch? then 1 else 0
  }

  /** The futures running after these happenings, and their tasks. */
  function Running(log: Log): map<nat, Name> {
    if log == [] then map[]
    else
      match Last(log)
      case Launch(i, t) => Running(Front(log))[i := t]
      case Finish(i, _, _) => Running(Front(log)) - {i}
      case Raise(i, _) => Running(Front(log)) - {i}
      case _ => Running(Front(log))
  }

  predicate Paused(log: Log) {
    exists i :: 0 <= i < |log| && log[i].Finish? && Pausing(log[i].report)
  }

  /** `[id for id in ready if id not in running][:capacity]` */
  function Chosen(ready: seq<Name>, busy: set<Name>, limit: nat, running: nat, active: nat): (r: seq<Name>)
  {
    var free := Idle(ready, busy);
    var used := if running > active then running else active;
    var capacity := if limit > used then limit - used else 0;
    if |free| <= capacity then free else free[..capacity]
  }

  function Idle(ready: seq<Name>, busy: set<Name>): (r: seq<Name>)
    ensures forall k | 0 <= k < |r| :: r[k] !in busy && r[k] in ready
    ensures Distinct(ready) ==> Distinct(r)
  {
    if ready == [] then []
    else
      var n := |ready| - 1;
      var front := Idle(ready[..n], busy);
      assert ready == ready[..n] + [ready[n]];
      front + if ready[n] in busy then [] else [ready[n]]
  }

  /** The chosen tasks of the present look that have not had their turn. */
  function Pending(log: Log, limit: nat): seq<Name> {
    if log == [] then []
    else
      match Last(log)
      case Look(ready, active) => Chosen(ready, Running(Front(log)).Values, limit, |Running(Front(log))|, active)
      case Launch(_, _) => Rest(Pending(Front(log), limit))
      case Skip(_) => Rest(Pending(Front(log), limit))
      case _ => []
  }

  function Rest(s: seq<Name>): seq<Name> {
    if s == [] then [] else s[1..]
  }

  /** The completed futures whose result has not been taken. */
  function Due(log: Log): set<nat> {
    if log == [] then {}
    else
      match Last(log)
      case Wait(done) => done
      case Finish(i, _, _) => Due(Front(log)) - {i}
      case Raise(i, _) => Due(Front(log)) - {i}
      case _ => {}
  }

  /** Between two rounds: nothing happened yet, or the last result was taken. */
  predicate RoundOver(log: Log) {
    log == [] || (Last(log).Finish? && Due(log) == {})
  }

  predicate LaunchingOver(log: Log, limit: nat, steps: nat) {
    Pending(log, limit) == [] || Launches(log) == steps
  }

  /** What may happen next. */
  predicate May(w: World, log: Log, h: Happening, limit: nat, steps: nat) {
    match h
    case Look(ready, active) => RoundOver(log) && !Paused(log) && Launches(log) < steps && ready == w.ready(log) && active == w.active(log)
    case Skip(t) => !LaunchingOver(log, limit, steps) && t == Pending(log, limit)[0] && !w.stillReady(log, t)
    case Launch(i, t) => !LaunchingOver(log, limit, steps) && t == Pending(log, limit)[0] && w.stillReady(log, t) && i == Launches(log)
    case Wait(done) =>
      && |Running(log)| > 0 && done == w.completed(log) && Due(log) == {} && LaunchingOver(log, limit, steps)
      && (RoundOver(log) ==> Paused(log) || Launches(log) == steps)
    case Finish(i, t, r) => i in Due(log) && i in Running(log) && t == Running(log)[i] && w.result(log, i) == Some(r)
    case Raise(i, t) => i in Due(log) && i in Running(log) && t == Running(log)[i] && w.result(log, i) == None
  }

  predicate Orderly(w: World, log: Log, limit: nat, steps: nat) {
    log == [] || (!Raised(Front(log)) && Orderly(w, Front(log), limit, steps) && May(w, Front(log), Last(log), limit, steps))
  }

  /** A future's exception ends the call. */
  predicate Raised(log: Log) {
    log != [] && Last(log).Raise?
  }

  /** Nothing is left to do. */
  predicate Over(log: Log, limit: nat, steps: nat) {
    || Raised(log)
    || (|Running(log)| == 0 && LaunchingOver(log, limit, steps) && (RoundOver(log) ==> Paused(log) || Launches(log) == steps))
  }

  // ---------------------------------------------------------------- what a look chooses

  lemma {:induction false} IdleExact(ready: seq<Name>, busy: set<Name>)
    ensures forall x :: x in Idle(ready, busy) <==> x in ready && x !in busy
    ensures forall i, j | 0 <= i < j < |Idle(ready, busy)| :: Precedes(ready, Idle(ready, busy)[i], Idle(ready, busy)[j])
  {
    if ready != [] {
      var n := |ready| - 1;
      var front, all := Idle(ready[..n], busy), Idle(ready, busy);
      IdleExact(ready[..n], busy);
      assert ready == ready[..n] + [ready[n]];
      forall i, j | 0 <= i < j < |all| ensures Precedes(ready, all[i], all[j]) {
        PrecedesMore(ready[..n], ready[n], all[i], all[j]);
      }
    }
  }

  /** A look chooses, in the order of the schedule, the first of the ready tasks that are not busy, as
      many as there are or as the limit leaves places beside those running or active. */
  lemma ChosenExact(ready: seq<Name>, busy: set<Name>, limit: nat, running: nat, active: nat)
    requires Distinct(ready)
    ensures var r := Chosen(ready, busy, limit, running, active);
            var free := set x | x in ready && x !in busy;
            && Distinct(r) && (forall x | x in r :: x in free)
            && |r| == Min(|free|, Max(0, limit - Max(running, active)))
            && (forall i, j | 0 <= i < j < |r| :: Precedes(ready, r[i], r[j]))
            && (forall x, y | x in r && y in free && y !in r :: Precedes(ready, x, y))
  {
    var free, r := Idle(ready, busy), Chosen(ready, busy, limit, running, active);
    IdleExact(ready, busy);
    DistinctSize(free);
    assert Elements(free) == set x | x in ready && x !in busy;
    assert r <= free;
    forall x, y | x in r && y in free && y !in r ensures Precedes(ready, x, y) {
      PrefixPrecedes(ready, free, |r|, x, y);
    }
  }

  lemma PrefixPrecedes(ready: seq<Name>, free: seq<Name>, n: nat, x: Name, y: Name)
    requires n <= |free| && x in free[..n] && y in free && y !in free[..n]
    requires forall i, j | 0 <= i < j < |free| :: Precedes(ready, free[i], free[j])
    ensures Precedes(ready, x, y)
  {
    hide Precedes;
    assert free == free[..n] + free[n..];
    assert y in free[n..];
    var j :| 0 <= j < |free| - n && free[n..][j] == y;
    var i :| 0 <= i < n && free[..n][i] == x;
    assert free[n + j] == y && free[i] == x;
  }

  function Min(a: int, b: int): int {
    if a < b then a else b
  }

  function Max(a: int, b: int): int {
    if a < b then b else a
  }

  // ---------------------------------------------------------------- what holds at every moment

  predicate Injective(m: map<nat, Name>) {
    forall i, j | i in m && j in m && m[i] == m[j] :: i == j
  }

  predicate Placed(pending: seq<Name>, running: map<nat, Name>, limit: nat) {
    Distinct(pending) && (forall k | 0 <= k < |pending| :: pending[k] !in running.Values) && |pending| + |running| <= limit
  }

  /** The pending tasks have places and do not run; the running ones are all different. */
  ghost predicate Fits(log: Log, limit: nat) {
    && Placed(Pending(log, limit), Running(log), limit) && (Pending(log, limit) != [] ==> !Paused(log))
    && Injective(Running(log)) && (forall i | i in Running(log) :: i < Launches(log)) && Due(log) <= Running(log).Keys
  }

  lemma Push(log: Log, h: Happening, limit: nat)
    ensures (log + [h]) != [] && Front(log + [h]) == log && Last(log + [h]) == h
    ensures Launches(log + [h]) == Launches(log) + if h.Launch? then 1 else 0
    ensures Running(log + [h]) ==
              if h.Launch? then Running(log)[h.index := h.task] else if h.Finish? || h.Raise? then Running(log) - {h.index} else Running(log)
    ensures Pending(log + [h], limit) ==
              if h.Look? then Chosen(h.ready, Running(log).Values, limit, |Running(log)|, h.active)
              else if h.Launch? || h.Skip? then Rest(Pending(log, limit)) else []
    ensures Due(log + [h]) == if h.Wait? then h.done else if h.Finish? || h.Raise? then Due(log) - {h.index} else {}
    ensures Paused(log + [h]) <==> Paused(log) || (h.Finish? && Pausing(h.report))
  {
    var more := log + [h];
    assert more[..|log|] == log;
    if Paused(log) {
      var i :| 0 <= i < |log| && log[i].Finish? && Pausing(log[i].report);
      assert more[i] == log[i];
    }
    if h.Finish? && Pausing(h.report) {
      assert more[|log|] == h;
    }
  }

  lemma PushOrderly(w: World, log: Log, h: Happening, limit: nat, steps: nat)
    requires Orderly(w, log, limit, steps) && !Raised(log) && May(w, log, h, limit, steps)
    ensures Orderly(w, log + [h], limit, steps)
  {
    Push(log, h, limit);
  }

  lemma ValuesPush(m: map<nat, Name>, i: nat, t: Name)
    requires i !in m
    ensures m[i := t].Values == m.Values + {t} && |m[i := t]| == |m| + 1
  {
    assert m[i := t].Keys == m.Keys + {i};
    var after := m[i := t];
    forall v | v in m.Values ensures v in after.Values {
      var j :| j in m && m[j] == v;
      assert after[j] == v;
    }
    assert after[i] == t;
  }

  lemma ValuesDrop(m: map<nat, Name>, i: nat)
    ensures (m - {i}).Values <= m.Values && (m - {i}).Keys == m.Keys - {i}
    ensures |m - {i}| == if i in m then |m| - 1 else |m|
  {
    var after := m - {i};
    assert after.Keys == m.Keys - {i};
    forall v | v in after.Values ensures v in m.Values {
      var j :| j in after && after[j] == v;
      assert m[j] == v;
    }
  }

  lemma LookFits(w: World, log: Log, h: Happening, limit: nat, steps: nat)
    requires Sane(w) && Fits(log, limit) && May(w, log, h, limit, steps) && h.Look?
    ensures Fits(log + [h], limit)
  {
    hide Running, Launches, Pending, Paused, Due, Injective;
    Push(log, h, limit);
    var free := Idle(h.ready, Running(log).Values);
    assert Chosen(h.ready, Running(log).Values, limit, |Running(log)|, h.active) <= free;
  }

  lemma PlaceTaken(pending: seq<Name>, running: map<nat, Name>, next: nat, limit: nat)
    requires pending != [] && Placed(pending, running, limit) && Injective(running) && next !in running
    ensures Placed(pending[1..], running[next := pending[0]], limit) && Injective(running[next := pending[0]])
  {
    ValuesPush(running, next, pending[0]);
    forall j | j in running ensures running[j] != pending[0] {
      assert running[j] in running.Values;
    }
  }

  lemma LaunchFits(w: World, log: Log, h: Happening, limit: nat, steps: nat)
    requires Fits(log, limit) && May(w, log, h, limit, steps) && h.Launch?
    ensures Fits(log + [h], limit)
  {
    hide Chosen, Running, Launches, Pending, Paused, Due, Injective, Placed;
    Push(log, h, limit);
    assert h.index !in Running(log);
    PlaceTaken(Pending(log, limit), Running(log), h.index, limit);
  }

  lemma SkipFits(w: World, log: Log, h: Happening, limit: nat, steps: nat)
    requires Fits(log, limit) && May(w, log, h, limit, steps) && h.Skip?
    ensures Fits(log + [h], limit)
  {
    hide Chosen, Running, Launches, Pending, Paused, Due, Injective;
    Push(log, h, limit);
  }

  lemma WaitFits(w: World, log: Log, h: Happening, limit: nat, steps: nat)
    requires Sane(w) && Fits(log, limit) && May(w, log, h, limit, steps) && (h.Wait? || h.Finish? || h.Raise?)
    ensures Fits(log + [h], limit)
  {
    hide Chosen, Pending, Running, Launches, Paused, Due;
    Push(log, h, limit);
    if !h.Wait? {
      ValuesDrop(Running(log), h.index);
    }
  }

  lemma {:induction false} OrderlyFits(w: World, log: Log, limit: nat, steps: nat)
    requires Sane(w) && Orderly(w, log, limit, steps)
    ensures Fits(log, limit)
  {
    hide May, Fits, Sane;
    if log == [] {
      StartFits(limit);
    } else {
      var h := Last(log);
      OrderlyFits(w, Front(log), limit, steps);
      assert log == Front(log) + [h];
      match h {
        case Look(_, _) => LookFits(w, Front(log), h, limit, steps);
        case Launch(_, _) => LaunchFits(w, Front(log), h, limit, steps);
        case Skip(_) => SkipFits(w, Front(log), h, limit, steps);
        case _ => WaitFits(w, Front(log), h, limit, steps);
      }
    }
  }

  lemma StartFits(limit: nat)
    ensures Fits([], limit)
  {
  }

  lemma {:induction false} OrderlyPrefix(w: World, log: Log, limit: nat, steps: nat, k: nat)
    requires Orderly(w, log, limit, steps) && k <= |log|
    ensures Orderly(w, log[..k], limit, steps)
    ensures k < |log| ==> !Raised(log[..k]) && May(w, log[..k], log[k], limit, steps)
    decreases |log|
  {
    hide May;
    if k == |log| {
      assert log[..k] == log;
    } else if k < |log| - 1 {
      OrderlyPrefix(w, Front(log), limit, steps, k);
      assert Front(log)[..k] == log[..k];
    }
  }

  /** At no moment do more futures run than the limit, nor two for one task; and no more are ever
      launched than there are steps. */
  lemma BoundedAndDistinct(w: World, log: Log, limit: nat, steps: nat, k: nat)
    requires Sane(w) && Orderly(w, log, limit, steps) && k <= |log|
    ensures |Running(log[..k])| <= limit
    ensures Injective(Running(log[..k])) && Launches(log[..k]) <= steps
  {
    hide Running, Launches, Orderly, Sane;
    OrderlyPrefix(w, log, limit, steps, k);
    OrderlyFits(w, log[..k], limit, steps);
    LaunchBound(w, log[..k], limit, steps);
  }

  lemma {:induction false} LaunchBound(w: World, log: Log, limit: nat, steps: nat)
    requires Orderly(w, log, limit, steps)
    ensures Launches(log) <= steps
  {
    if log != [] {
      LaunchBound(w, Front(log), limit, steps);
    }
  }

  lemma PausedSince(log: Log, i: nat, k: nat)
    requires i < k <= |log| && log[i].Finish? && Pausing(log[i].report)
    ensures Paused(log[..k])
  {
    assert log[..k][i] == log[i];
  }

  /** Nothing is launched after a report that a worker needs input or is paused, or that its task
      waits for a human or for approval. */
  lemma NothingAfterPause(w: World, log: Log, limit: nat, steps: nat, i: nat, j: nat)
    requires Sane(w) && Orderly(w, log, limit, steps) && i < j < |log| && log[i].Finish?
    requires || log[i].report.attempt in {Some(NEEDS_INPUT), Some(PAUSED)}
             || log[i].report.state in {WAITING_FOR_HUMAN, WAITING_FOR_APPROVAL}
    ensures !log[j].Launch? && !log[j].Look?
  {
    hide Running, Launches, Paused, Orderly, Sane, Pending;
    OrderlyPrefix(w, log, limit, steps, j);
    OrderlyFits(w, log[..j], limit, steps);
    PausedSince(log, i, j);
  }

  /** A future finishes at most once, and only after its launch. */
  lemma {:induction false} FinishedIsGone(w: World, log: Log, limit: nat, steps: nat, i: nat, k: nat)
    requires Sane(w) && Orderly(w, log, limit, steps) && i < k <= |log| && log[i].Finish?
    ensures log[i].index !in Running(log[..k]) && log[i].index < Launches(log[..k])
    decreases k
  {
    hide Orderly, Sane, Pending, Due, Paused, RoundOver;
    OrderlyPrefix(w, log, limit, steps, k - 1);
    OrderlyFits(w, log[..k - 1], limit, steps);
    assert log[..k] == log[..k - 1] + [log[k - 1]];
    Push(log[..k - 1], log[k - 1], limit);
    if i < k - 1 {
      FinishedIsGone(w, log, limit, steps, i, k - 1);
    }
  }

  lemma FinishOnce(w: World, log: Log, limit: nat, steps: nat, i: nat, j: nat)
    requires Sane(w) && Orderly(w, log, limit, steps) && i < j < |log| && log[i].Finish? && log[j].Finish?
    ensures log[i].index != log[j].index
  {
    hide Orderly, Sane, Running, Launches, Due;
    FinishedIsGone(w, log, limit, steps, i, j);
    OrderlyPrefix(w, log, limit, steps, j);
  }

  // ---------------------------------------------------------------- what a look leads to

  /** The chosen tasks of the look at `p`. */
  function ChosenAt(log: Log, p: nat, limit: nat): seq<Name>
    requires p < |log| && log[p].Look?
  {
    Chosen(log[p].ready, Running(log[..p]).Values, limit, |Running(log[..p])|, log[p].active)
  }

  predicate Turns(log: Log, p: nat, q: nat) {
    p < q <= |log| && forall k | p < k < q :: log[k].Launch? || log[k].Skip?
  }

  lemma {:induction false} PendingAfter(w: World, log: Log, limit: nat, steps: nat, p: nat, q: nat)
    requires Orderly(w, log, limit, steps) && p < |log| && log[p].Look? && Turns(log, p, q)
    ensures q - p - 1 <= |ChosenAt(log, p, limit)| && Pending(log[..q], limit) == ChosenAt(log, p, limit)[q - p - 1..]
    decreases q
  {
    hide Chosen, Orderly, Due, Paused, RoundOver, Running, Launches, Pending;
    OrderlyPrefix(w, log, limit, steps, q - 1);
    assert log[..q] == log[..q - 1] + [log[q - 1]];
    Push(log[..q - 1], log[q - 1], limit);
    if q - 1 > p {
      PendingAfter(w, log, limit, steps, p, q - 1);
    }
  }

  /** The turns after a look take the chosen tasks in order, each launched if it is still READY and
      skipped if not. */
  lemma TurnsTaken(w: World, log: Log, limit: nat, steps: nat, p: nat, k: nat)
    requires Orderly(w, log, limit, steps) && p < k < |log| && log[p].Look? && Turns(log, p, k + 1)
    ensures k - p - 1 < |ChosenAt(log, p, limit)| && log[k].task == ChosenAt(log, p, limit)[k - p - 1]
    ensures log[k].Launch? <==> w.stillReady(log[..k], log[k].task)
  {
    hide Chosen, Orderly, Due, Paused, RoundOver, Running, Launches, Pending;
    OrderlyPrefix(w, log, limit, steps, k);
    PendingAfter(w, log, limit, steps, p, k);
  }

  /** They go on until every chosen task has had its turn or no step is left. */
  lemma TurnsComplete(w: World, log: Log, limit: nat, steps: nat, p: nat, q: nat)
    requires Orderly(w, log, limit, steps) && p < |log| && log[p].Look? && Turns(log, p, q)
    requires if q < |log| then !log[q].Launch? && !log[q].Skip? else Over(log, limit, steps)
    ensures q - p - 1 == |ChosenAt(log, p, limit)| || Launches(log[..q]) == steps
    ensures q < |log| ==> log[q].Wait?
  {
    hide Chosen, Orderly, Paused, Running, Launches, Pending;
    PendingAfter(w, log, limit, steps, p, q);
    if q < |log| {
      OrderlyPrefix(w, log, limit, steps, q);
      assert Last(log[..q]) == log[q - 1];
    } else {
      assert log[..q] == log;
      assert Last(log) == log[q - 1];
    }
  }

  /** Before every wait there was a look in the same round, unless a report has paused launching or
      no step is left. */
  lemma {:induction false} LooksEveryRound(w: World, log: Log, limit: nat, steps: nat, q: nat) returns (p: nat)
    requires Sane(w) && Orderly(w, log, limit, steps) && q < |log| && log[q].Wait? && !Paused(log[..q]) && Launches(log[..q]) < steps
    ensures p < q && log[p].Look? && Turns(log, p, q)
  {
    hide Chosen, Orderly, Paused, Running, Launches, Pending, Sane;
    OrderlyPrefix(w, log, limit, steps, q);
    assert log[..q] != [];
    OrderlyPrefix(w, log, limit, steps, q - 1);
    assert log[..q] == log[..q - 1] + [log[q - 1]];
    Push(log[..q - 1], log[q - 1], limit);
    SomeCompletes(w, log[..q - 1]);
    p := LookBehind(w, log, limit, steps, q);
  }

  lemma SomeCompletes(w: World, log: Log)
    requires Sane(w)
    ensures |Running(log)| > 0 ==> w.completed(log) != {} && w.completed(log) <= Running(log).Keys
  {
  }

  lemma {:induction false} LookBehind(w: World, log: Log, limit: nat, steps: nat, q: nat) returns (p: nat)
    requires Orderly(w, log, limit, steps) && 0 < q <= |log| && (log[q - 1].Launch? || log[q - 1].Skip? || log[q - 1].Look?)
    ensures p < q && log[p].Look? && Turns(log, p, q)
    decreases q
  {
    hide Chosen, Orderly, Paused, Running, Launches;
    p := q - 1;
    if !log[p].Look? {
      OrderlyPrefix(w, log, limit, steps, q - 1);
      assert log[..q - 1] != [] && Last(log[..q - 1]) == log[q - 2];
      p := LookBehind(w, log, limit, steps, q - 1);
    }
  }

  /** The last look found nothing to launch: every chosen task, if any, was no longer READY. */
  ghost predicate NothingToLaunch(w: World, log: Log, limit: nat) {
    exists p: nat ::
      && p < |log| && log[p].Look? && |log| - p - 1 == |ChosenAt(log, p, limit)|
      && forall k | p < k < |log| :: log[k].Skip? && log[k].task == ChosenAt(log, p, limit)[k - p - 1] && !w.stillReady(log[..k], log[k].task)
  }

  /** The loop ends with steps left only after a pause, an exception, or such a look. */
  lemma EndsWhen(w: World, log: Log, limit: nat, steps: nat)
    requires Sane(w) && Orderly(w, log, limit, steps) && Over(log, limit, steps) && Launches(log) < steps && !Paused(log) && !Raised(log)
    ensures NothingToLaunch(w, log, limit)
  {
    hide Chosen, Orderly, Paused, Launches, Pending, Sane;
    LastTurn(w, log, limit, steps);
    var p := LookBehind(w, log, limit, steps, |log|);
    TurnsComplete(w, log, limit, steps, p, |log|);
    assert log[..|log|] == log;
    forall k | p < k < |log| ensures log[k].Skip? && log[k].task == ChosenAt(log, p, limit)[k - p - 1] && !w.stillReady(log[..k], log[k].task) {
      TurnsTaken(w, log, limit, steps, p, k);
      NoneLaunched(log, p, k);
    }
  }

  lemma LastTurn(w: World, log: Log, limit: nat, steps: nat)
    requires Sane(w) && Orderly(w, log, limit, steps) && Over(log, limit, steps) && Launches(log) < steps && !Paused(log) && !Raised(log)
    ensures log != [] && (Last(log).Launch? || Last(log).Skip? || Last(log).Look?)
  {
    hide Chosen, Pending, Sane;
    OrderlyFits(w, log, limit, steps);
    assert Due(log) == {};
    assert log[..|log|] == log;
    OrderlyPrefix(w, log, limit, steps, |log| - 1);
  }

  /** A launch with no finish after it is still running. */
  lemma {:induction false} NoneLaunched(log: Log, p: nat, k: nat)
    requires Turns(log, p, |log|) && p < k < |log| && |Running(log)| == 0
    ensures !log[k].Launch?
    decreases |log|
  {
    assert log[..|log|] == log;
    if log[k].Launch? {
      StillRunning(log, p, k, |log|);
    }
  }

  lemma {:induction false} StillRunning(log: Log, p: nat, k: nat, n: nat)
    requires Turns(log, p, |log|) && p < k < n <= |log| && log[k].Launch?
    ensures log[k].index in Running(log[..n])
    decreases n
  {
    assert log[..n][..n - 1] == log[..n - 1];
    if k < n - 1 {
      StillRunning(log, p, k, n - 1);
    }
  }

  // ---------------------------------------------------------------- the loop

  /** What the loop remembers agrees with what happened. */
  ghost predicate Remembers(log: Log, running: map<nat, Name>, reports: map<nat, Report>, next: nat) {
    && running == Running(log) && next == Launches(log)
    && (forall i: nat :: i in running || i in reports <==> i < next) && running.Keys !! reports.Keys
    && Reported(log, reports)
  }

  /** Launch `i` has finished with this report. */
  ghost predicate ReportOf(log: Log, i: nat, r: Report) {
    exists k :: 0 <= k < |log| && log[k].Finish? && log[k].index == i && log[k].report == r
  }

  ghost predicate Reported(log: Log, reports: map<nat, Report>) {
    forall i | i in reports :: ReportOf(log, i, reports[i])
  }

  lemma ReportedMore(log: Log, reports: map<nat, Report>, h: Happening)
    requires Reported(log, reports)
    ensures Reported(log + [h], reports)
    ensures h.Finish? ==> Reported(log + [h], reports[h.index := h.report])
  {
    var more := log + [h];
    forall i | i in reports ensures ReportOf(more, i, reports[i]) {
      var k :| 0 <= k < |log| && log[k].Finish? && log[k].index == i && log[k].report == reports[i];
      assert more[k] == log[k];
    }
    assert more[|log|] == h;
  }

  /** A happening that neither launches nor ends a future. */
  lemma RememberOther(log: Log, running: map<nat, Name>, reports: map<nat, Report>, next: nat, h: Happening, limit: nat)
    requires Remembers(log, running, reports, next) && (h.Look? || h.Skip? || h.Wait?)
    ensures Remembers(log + [h], running, reports, next)
  {
    hide Reported, Running, Launches, Pending, Paused, Due, Chosen;
    Push(log, h, limit);
    ReportedMore(log, reports, h);
  }

  lemma RememberLaunch(log: Log, running: map<nat, Name>, reports: map<nat, Report>, next: nat, t: Name, limit: nat)
    requires Remembers(log, running, reports, next)
    ensures next !in running && Remembers(log + [Launch(next, t)], running[next := t], reports, next + 1)
  {
    hide Reported, Running, Launches, Pending, Paused, Due, Chosen;
    assert next !in running && next !in reports;
    Push(log, Launch(next, t), limit);
    ReportedMore(log, reports, Launch(next, t));
    RemembersIs(log + [Launch(next, t)], running[next := t], reports, next + 1);
  }

  lemma RemembersIs(log: Log, running: map<nat, Name>, reports: map<nat, Report>, next: nat)
    requires running == Running(log) && next == Launches(log) && Reported(log, reports)
    requires forall i: nat :: i in running || i in reports <==> i < next
    requires forall i | i in running :: i !in reports
    ensures Remembers(log, running, reports, next)
  {
  }

  lemma RememberFinish(log: Log, running: map<nat, Name>, reports: map<nat, Report>, next: nat, i: nat, r: Report, limit: nat)
    requires Remembers(log, running, reports, next) && i in running
    ensures Remembers(log + [Finish(i, running[i], r)], running - {i}, reports[i := r], next)
  {
    hide Reported, Running, Launches, Pending, Paused, Due, Chosen;
    Push(log, Finish(i, running[i], r), limit);
    ReportedMore(log, reports, Finish(i, running[i], r));
    assert (running - {i}).Keys == running.Keys - {i};
    assert reports[i := r].Keys == reports.Keys + {i};
  }

  lemma LaunchTurn(w: World, log: Log, limit: nat, steps: nat, running: map<nat, Name>, reports: map<nat, Report>, next: nat, t: Name)
    requires Orderly(w, log, limit, steps) && !Raised(log) && Remembers(log, running, reports, next)
    requires Pending(log, limit) != [] && t == Pending(log, limit)[0] && Launches(log) < steps && w.stillReady(log, t)
    ensures var more := log + [Launch(next, t)];
            && Orderly(w, more, limit, steps) && Remembers(more, running[next := t], reports, next + 1)
            && Pending(more, limit) == Pending(log, limit)[1..] && Launches(more) == Launches(log) + 1 && (Paused(more) <==> Paused(log))
            && Last(more) == Launch(next, t) && |running[next := t]| == |running| + 1
  {
    hide Orderly, Remembers, Paused, Pending, Launches, Chosen, Running, Due;
    NextIsLaunches(log, running, reports, next);
    PushOrderly(w, log, Launch(next, t), limit, steps);
    RememberLaunch(log, running, reports, next, t, limit);
    ValuesPush(running, next, t);
    Push(log, Launch(next, t), limit);
  }

  lemma SkipTurn(w: World, log: Log, limit: nat, steps: nat, running: map<nat, Name>, reports: map<nat, Report>, next: nat, t: Name)
    requires Orderly(w, log, limit, steps) && !Raised(log) && Remembers(log, running, reports, next)
    requires Pending(log, limit) != [] && t == Pending(log, limit)[0] && Launches(log) < steps && !w.stillReady(log, t)
    ensures var more := log + [Skip(t)];
            && Orderly(w, more, limit, steps) && Remembers(more, running, reports, next)
            && Pending(more, limit) == Pending(log, limit)[1..] && Launches(more) == Launches(log) && (Paused(more) <==> Paused(log))
            && Last(more) == Skip(t)
  {
    hide Orderly, Remembers, Paused, Pending, Launches, Chosen, Running, Due;
    PushOrderly(w, log, Skip(t), limit, steps);
    RememberOther(log, running, reports, next, Skip(t), limit);
    Push(log, Skip(t), limit);
  }

  /** The launching half of a round: the chosen tasks take their turns. */
  method LaunchSome(w: World, chosen: seq<Name>, limit: nat, ghost steps: nat, remaining0: nat, running0: map<nat, Name>,
                    ghost reports: map<nat, Report>, next0: nat, log0: Log)
    returns (remaining: nat, running: map<nat, Name>, next: nat, log: Log)
    requires Orderly(w, log0, limit, steps) && !Raised(log0) && Remembers(log0, running0, reports, next0)
    requires chosen == Pending(log0, limit) && remaining0 + Launches(log0) == steps && log0 != [] && Last(log0).Look?
    ensures Orderly(w, log, limit, steps) && !Raised(log) && Remembers(log, running, reports, next)
    ensures remaining + Launches(log) == steps && LaunchingOver(log, limit, steps) && !RoundOver(log) && Due(log) == {}
    ensures (Paused(log) <==> Paused(log0)) && remaining + |running| == remaining0 + |running0|
  {
    hide Orderly, Remembers, Paused, Pending, Launches, Chosen;
    remaining, running, next, log := remaining0, running0, next0, log0;
    var k := 0;
    while k < |chosen| && remaining > 0
      invariant 0 <= k <= |chosen| && Pending(log, limit) == chosen[k..]
      invariant Orderly(w, log, limit, steps) && !Raised(log) && Remembers(log, running, reports, next)
      invariant remaining + Launches(log) == steps && (Paused(log) <==> Paused(log0))
      invariant remaining + |running| == remaining0 + |running0|
      invariant log != [] && (Last(log).Look? || Last(log).Launch? || Last(log).Skip?)
    {
      if w.stillReady(log, chosen[k]) {
        LaunchTurn(w, log, limit, steps, running, reports, next, chosen[k]);
        log := log + [Launch(next, chosen[k])];
        running := running[next := chosen[k]];
        next := next + 1;
        remaining := remaining - 1;
      } else {
        SkipTurn(w, log, limit, steps, running, reports, next, chosen[k]);
        log := log + [Skip(chosen[k])];
      }
      k := k + 1;
    }
  }

  lemma NextIsLaunches(log: Log, running: map<nat, Name>, reports: map<nat, Report>, next: nat)
    requires Remembers(log, running, reports, next)
    ensures next == Launches(log) && running == Running(log)
  {
  }

  /** The collecting half: every completed future is popped; one that raised ends the call. */
  method CollectSome(w: World, completed0: set<nat>, limit: nat, ghost steps: nat, running0: map<nat, Name>, reports0: map<nat, Report>,
                     ghost next: nat, stop0: bool, log0: Log)
    returns (running: map<nat, Name>, reports: map<nat, Report>, stop: bool, raised: bool, log: Log)
    requires Orderly(w, log0, limit, steps) && !Raised(log0) && Remembers(log0, running0, reports0, next) && (stop0 <==> Paused(log0))
    requires completed0 == Due(log0) && completed0 != {} && completed0 <= running0.Keys
    ensures Orderly(w, log, limit, steps) && Launches(log) == Launches(log0) && (raised <==> Raised(log))
    ensures !raised ==> Remembers(log, running, reports, next) && (stop <==> Paused(log)) && RoundOver(log)
    ensures !raised ==> |running| < |running0|
  {
    hide Orderly, Remembers, Paused, Launches, Due;
    running, reports, stop, raised, log := running0, reports0, stop0, false, log0;
    var completed := completed0;
    while completed != {}
      invariant Orderly(w, log, limit, steps) && !Raised(log) && Remembers(log, running, reports, next) && (stop <==> Paused(log))
      invariant completed == Due(log) && completed <= running.Keys && Launches(log) == Launches(log0)
      invariant if completed == completed0 then |running| == |running0| else |running| < |running0| && log != [] && Last(log).Finish?
      decreases |completed|
    {
      var i :| i in completed;
      completed := completed - {i};
      NextIsLaunches(log, running, reports, next);
      ValuesDrop(running, i);
      match w.result(log, i) {
        case None =>
          var h := Raise(i, running[i]);
          PushOrderly(w, log, h, limit, steps);
          Push(log, h, limit);
          log := log + [h];
          raised := true;
          return;
        case Some(report) =>
          var h := Finish(i, running[i], report);
          PushOrderly(w, log, h, limit, steps);
          RememberFinish(log, running, reports, next, i, report, limit);
          Push(log, h, limit);
          log := log + [h];
          running := running - {i};
          reports := reports[i := report];
          if report.attempt == Some(NEEDS_INPUT) || report.attempt == Some(PAUSED)
             || report.state == WAITING_FOR_HUMAN || report.state == WAITING_FOR_APPROVAL {
            stop := true;
          }
      }
    }
  }

  /** The dispatching branch, in whatever world: what happened is in order from the first look to the
      end, at which nothing is left to do; unless a future raised, every launch has reported, once. */
  method Dispatch(w: World, maxSteps: int, limit: nat) returns (reports: map<nat, Report>, ok: bool, log: Log)
    requires limit >= 1 && Sane(w)
    ensures var steps := if maxSteps > 1 then maxSteps else 1;
            && Orderly(w, log, limit, steps) && Over(log, limit, steps)
            && (ok <==> !Raised(log))
    ensures ok ==> Remembers(log, map[], reports, Launches(log))
  {
    hide Orderly, Remembers, Paused, Running, Chosen, Sane, Pending, Launches, Due;
    var remaining: nat := if maxSteps > 1 then maxSteps else 1;
    ghost var steps: nat := remaining;
    var running: map<nat, Name> := map[];
    var next: nat := 0;
    var stop := false;
    reports, ok, log := map[], true, [];
    StartRemembers(w, limit, steps);
    while remaining > 0 || |running| > 0
      invariant Orderly(w, log, limit, steps) && !Raised(log) && Remembers(log, running, reports, next)
      invariant (stop <==> Paused(log)) && RoundOver(log) && remaining + Launches(log) == steps
      decreases remaining + |running|
    {
      ghost var before := remaining + |running|;
      var looked := !stop && remaining > 0;
      if looked {
        var h := Look(w.ready(log), w.active(log));
        PushOrderly(w, log, h, limit, steps);
        RememberOther(log, running, reports, next, h, limit);
        NextIsLaunches(log, running, reports, next);
        Push(log, h, limit);
        var chosen := Chosen(h.ready, running.Values, limit, |running|, h.active);
        log := log + [h];
        remaining, running, next, log := LaunchSome(w, chosen, limit, steps, remaining, running, reports, next, log);
      } else {
        QuietRound(log, limit);
      }
      NextIsLaunches(log, running, reports, next);
      if |running| == 0 {
        EndRemembers(log, running, reports, next);
        return;
      }
      var completed := w.completed(log);
      SomeCompletes(w, log);
      var h := Wait(completed);
      PushOrderly(w, log, h, limit, steps);
      RememberOther(log, running, reports, next, h, limit);
      Push(log, h, limit);
      log := log + [h];
      var raised;
      running, reports, stop, raised, log := CollectSome(w, completed, limit, steps, running, reports, next, stop, log);
      if raised {
        ok := false;
        return;
      }
    }
    QuietRound(log, limit);
    NextIsLaunches(log, running, reports, next);
    EndRemembers(log, running, reports, next);
  }

  lemma StartRemembers(w: World, limit: nat, steps: nat)
    ensures Orderly(w, [], limit, steps) && Remembers([], map[], map[], 0) && !Paused([]) && Launches([]) == 0
  {
  }

  lemma QuietRound(log: Log, limit: nat)
    requires RoundOver(log)
    ensures Pending(log, limit) == [] && Due(log) == {}
  {
  }

  lemma EndRemembers(log: Log, running: map<nat, Name>, reports: map<nat, Report>, next: nat)
    requires Remembers(log, running, reports, next) && |running| == 0
    ensures Remembers(log, map[], reports, Launches(log))
  {
    assert running == map[];
  }

  /** The dry run: the first ready task, if any, runs by itself. */
  method DryRun(w: World) returns (reports: map<nat, Report>, ok: bool, log: Log)
    ensures w.ready([]) == [] ==> log == [] && ok && reports == map[]
    ensures w.ready([]) != [] ==>
              var t := w.ready([])[0];
              match w.result([Launch(0, t)], 0)
              case None => !ok && log == [Launch(0, t), Raise(0, t)]
              case Some(r) => ok && log == [Launch(0, t), Finish(0, t, r)] && reports == map[0 := r]
  {
    var remaining := 1;
    var next: nat := 0;
    reports, ok, log := map[], true, [];
    while remaining > 0
      invariant ok && (remaining == 0 || (remaining == 1 && next == 0 && log == [] && reports == map[]))
      invariant remaining == 0 ==> w.ready([]) != [] && w.result([Launch(0, w.ready([])[0])], 0).Some?
      invariant remaining == 0 ==>
                  var t := w.ready([])[0];
                  var r := w.result([Launch(0, t)], 0).value;
                  log == [Launch(0, t), Finish(0, t, r)] && reports == map[0 := r]
    {
      var ready := w.ready(log);
      if |ready| == 0 {
        break;
      }
      var t := ready[0];
      log := log + [Launch(next, t)];
      assert log == [Launch(0, t)];
      var result := w.result(log, next);
      if result.None? {
        log := log + [Raise(next, t)];
        ok := false;
        return;
      }
      reports := reports[next := result.value];
      log := log + [Finish(next, t, result.value)];
      next := next + 1;
      remaining := remaining - 1;
      if Pausing(result.value) {
        break;
      }
    }
  }

  /** The ordered reports are those of the launches, one for each, in launch order. */
  ghost predicate Answers(log: Log, reports: seq<Report>) {
    && |reports| == Launches(log)
    && forall i: nat | i < |reports| :: ReportOf(log, i, reports[i])
  }

  /** `_advance_current_workflow` */
  method AdvanceCurrentWorkflow(w: World, dispatch: bool, maxSteps: int, setting: Option<int>, workflowLimit: Option<int>)
    returns (reports: seq<Report>, ok: bool, log: Log)
    requires Sane(w)
    ensures dispatch ==>
              var steps, limit := if maxSteps > 1 then maxSteps else 1, MaxParallel(setting, workflowLimit);
              Orderly(w, log, limit, steps) && Over(log, limit, steps)
    ensures !dispatch && w.ready([]) == [] ==> log == [] && ok
    ensures !dispatch && w.ready([]) != [] ==> |log| == 2 && log[0] == Launch(0, w.ready([])[0])
    ensures ok <==> !Raised(log)
    ensures if ok then Answers(log, reports) else reports == []
  {
    hide Orderly, Running, Launches, Answers, Over, Sane;
    var byIndex: map<nat, Report>;
    if dispatch {
      byIndex, ok, log := Dispatch(w, maxSteps, MaxParallel(setting, workflowLimit));
    } else {
      byIndex, ok, log := DryRun(w);
      DryRemembers(w, byIndex, ok, log);
    }
    if !ok {
      return [], false, log;
    }
    reports := [];
    while |reports| in byIndex
      invariant |reports| <= Launches(log)
      invariant forall i | 0 <= i < |reports| :: i in byIndex && reports[i] == byIndex[i]
      decreases Launches(log) - |reports|
    {
      reports := reports + [byIndex[|reports|]];
    }
    AnswersIs(log, byIndex, reports);
  }

  lemma DryRemembers(w: World, reports: map<nat, Report>, ok: bool, log: Log)
    requires w.ready([]) == [] ==> log == [] && ok && reports == map[]
    requires w.ready([]) != [] ==>
               var t := w.ready([])[0];
               match w.result([Launch(0, t)], 0)
               case None => !ok && log == [Launch(0, t), Raise(0, t)]
               case Some(r) => ok && log == [Launch(0, t), Finish(0, t, r)] && reports == map[0 := r]
    ensures ok ==> Remembers(log, map[], reports, Launches(log))
    ensures ok <==> !Raised(log)
  {
    hide Pending, Due, Paused, Chosen, Running, Launches, Reported;
    StartsEmpty();
    if w.ready([]) != [] && ok {
      var t, r := w.ready([])[0], log[1].report;
      RememberLaunch([], map[], map[], 0, t, 1);
      var running: map<nat, Name> := map[0 := t];
      assert map[][0 := t] == running;
      assert [] + [Launch(0, t)] == [Launch(0, t)];
      RememberFinish([Launch(0, t)], running, map[], 1, 0, r, 1);
      assert [Launch(0, t)] + [Finish(0, t, r)] == log;
      assert running - {0} == map[] && map[][0 := r] == reports;
      NextIsLaunches(log, map[], reports, 1);
    }
  }

  lemma StartsEmpty()
    ensures Remembers([], map[], map[], 0) && Launches([]) == 0
  {
  }

  lemma AnswersIs(log: Log, byIndex: map<nat, Report>, reports: seq<Report>)
    requires Remembers(log, map[], byIndex, Launches(log)) && |reports| !in byIndex && |reports| <= Launches(log)
    requires forall i | 0 <= i < |reports| :: i in byIndex && reports[i] == byIndex[i]
    ensures Answers(log, reports)
  {
    hide Running, Launches, ReportOf;
    var none: map<nat, Name> := map[];
    assert |reports| in none || |reports| in byIndex <==> |reports| < Launches(log);
  }
}
