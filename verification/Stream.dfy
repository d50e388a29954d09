/** The events of a worker's conversation and what they decide. */
module Stream {
  import opened Wrappers

  // The normalized event of `workers/runtime.py` with the fields the event loop of
  // `local_runtime.py` branches on.  Three questions about text and stored answers are answered by
  // heuristics outside this model and are fields here: `question`, whether a manager's message asks
  // something; `answered`, whether the question asked has an answer already; `exhausted`, whether
  // that answer has been given too often.
  datatype StreamEvent = StreamEvent(
    eventType: string, outcome: Option<string>, terminal: bool, requiresHuman: bool, approvalRequired: bool,
    emptyLoop: bool, question: bool, answered: bool, exhausted: bool)

  /** What an event does to the task and the attempt. */
  datatype Effect =
    | AsksHuman | ReusesAnswer | LoopsOnAnswer | AsksApproval | Succeeds | Recovers | Fails | Nothing

  const SUCCESS := {"success", "succeeded", "complete", "completed"}
  const STALLED := {"timeout", "crash", "orphaned"}
  const FAILURE := {"failure", "failed", "error"}
  const COMPLETION := {"complete", "completed", "final"}

  function Lower(text: string): (r: string)
    ensures |r| == |text|
  {
    seq(|text|, i requires 0 <= i < |text| => if 'A' <= text[i] <= 'Z' then text[i] - 'A' + 'a' else text[i])
  }

  /** `(event.outcome or "").lower()` */
  function OutcomeText(e: StreamEvent): string {
    if e.outcome.None? then "" else Lower(e.outcome.value)
  }

  /** A manager's question turns its message into a request for human input. */
  function Seen(e: StreamEvent): StreamEvent {
    if e.question && !e.requiresHuman && !e.approvalRequired && e.eventType in {"message", "complete"}
    then e.(eventType := "clarification", terminal := true, requiresHuman := true)
    else e
  }

  /** A completion by its type alone. */
  predicate Completion(e: StreamEvent) {
    e.eventType in COMPLETION && OutcomeText(e) == ""
  }

  function SeenEffect(e: StreamEvent): Effect {
    var outcome := OutcomeText(e);
    if e.requiresHuman then
      if e.answered then if e.exhausted then LoopsOnAnswer else ReusesAnswer
      else AsksHuman
    else if e.approvalRequired then AsksApproval
    else if outcome in SUCCESS || Completion(e) then Succeeds
    else if outcome in STALLED then Recovers
    else if outcome in FAILURE then if e.emptyLoop then Recovers else Fails
    else Nothing
  }

  function EffectOf(e: StreamEvent): Effect {
    SeenEffect(Seen(e))
  }

  predicate Decides(e: StreamEvent) {
    EffectOf(e) != Nothing
  }

  /** The loop ends after this event. */
  predicate Stops(e: StreamEvent) {
    var seen := Seen(e);
    seen.requiresHuman || seen.approvalRequired || seen.terminal || OutcomeText(seen) in SUCCESS + STALLED + FAILURE
  }

  /** A completion without an outcome, not marked terminal: it settles the task, and the loop goes
      on reading. */
  predicate OpenCompletion(e: StreamEvent) {
    Completion(e) && !e.terminal && !Seen(e).requiresHuman && !e.approvalRequired
  }

  /** Only an open completion settles the task without ending the loop. */
  lemma OpenCompletionIff(e: StreamEvent)
    ensures OpenCompletion(e) <==> Decides(e) && !Stops(e)
    ensures OpenCompletion(e) ==> EffectOf(e) == Succeeds
  {
    assert forall x | x in SUCCESS + STALLED + FAILURE :: |x| > 0;
  }

  // ---------------------------------------------------------------- the words the loop reacts to

  /** The event's outcome is this word, in letters of either case. */
  predicate Says(e: StreamEvent, word: string) {
    && e.outcome.Some? && |e.outcome.value| == |word|
    && forall i | 0 <= i < |word| ::
         e.outcome.value[i] == word[i] || ('A' <= e.outcome.value[i] <= 'Z' && e.outcome.value[i] as int + 32 == word[i] as int)
  }

  predicate Silent(e: StreamEvent) {
    e.outcome.None? || e.outcome.value == ""
  }

  /** The worker asks for a human: in so many words, or by a manager's question. */
  predicate AsksForHuman(e: StreamEvent) {
    e.requiresHuman || (e.question && !e.approvalRequired && (e.eventType == "message" || e.eventType == "complete"))
  }

  predicate SaysSuccess(e: StreamEvent) {
    Says(e, "success") || Says(e, "succeeded") || Says(e, "complete") || Says(e, "completed")
  }

  predicate SaysStalled(e: StreamEvent) {
    Says(e, "timeout") || Says(e, "crash") || Says(e, "orphaned")
  }

  predicate SaysFailure(e: StreamEvent) {
    Says(e, "failure") || Says(e, "failed") || Says(e, "error")
  }

  predicate CompletesByType(e: StreamEvent) {
    Silent(e) && (e.eventType == "complete" || e.eventType == "completed" || e.eventType == "final")
  }

  lemma SaysIff(e: StreamEvent, word: string)
    requires word != "" && forall i | 0 <= i < |word| :: 'a' <= word[i] <= 'z'
    ensures Says(e, word) <==> OutcomeText(e) == word
  {
    if e.outcome.Some? {
      var text := e.outcome.value;
      assert Says(e, word) ==> OutcomeText(e) == word;
      if OutcomeText(e) == word {
        forall i | 0 <= i < |word|
          ensures text[i] == word[i] || ('A' <= text[i] <= 'Z' && text[i] as int + 32 == word[i] as int)
        {
          assert Lower(text)[i] == word[i];
        }
      }
    }
  }

  lemma WordsIff(e: StreamEvent)
    ensures SaysSuccess(e) <==> OutcomeText(e) in SUCCESS
    ensures SaysStalled(e) <==> OutcomeText(e) in STALLED
    ensures SaysFailure(e) <==> OutcomeText(e) in FAILURE
    ensures CompletesByType(e) <==> Completion(e)
  {
    hide Says, Lower;
    SaysIff(e, "success");
    SaysIff(e, "succeeded");
    SaysIff(e, "complete");
    SaysIff(e, "completed");
    SaysIff(e, "timeout");
    SaysIff(e, "crash");
    SaysIff(e, "orphaned");
    SaysIff(e, "failure");
    SaysIff(e, "failed");
    SaysIff(e, "error");
  }

  /** No outcome is of two kinds, and none is of a kind if it is empty. */
  lemma KindsDisjoint(e: StreamEvent)
    ensures !(SaysStalled(e) && SaysFailure(e)) && !(SaysSuccess(e) && (SaysStalled(e) || SaysFailure(e)))
    ensures Silent(e) ==> !SaysSuccess(e) && !SaysStalled(e) && !SaysFailure(e)
  {
    if SaysStalled(e) {
      assert e.outcome.value[0] in {'t', 'T', 'c', 'C', 'o', 'O'};
    }
    if SaysFailure(e) {
      assert e.outcome.value[0] in {'f', 'F', 'e', 'E'};
    }
    if SaysSuccess(e) {
      assert e.outcome.value[1] in {'u', 'U', 'o', 'O'};
    }
  }

  /** The loop stops after an event that asks a human or for approval, is marked terminal, or says
      one of ten words. */
  lemma StopTable(e: StreamEvent)
    ensures Stops(e) <==> AsksForHuman(e) || e.approvalRequired || e.terminal || SaysSuccess(e) || SaysStalled(e) || SaysFailure(e)
    ensures OpenCompletion(e) <==> CompletesByType(e) && !e.terminal && !AsksForHuman(e) && !e.approvalRequired
  {
    hide Says, Lower, SaysSuccess, SaysStalled, SaysFailure;
    WordsIff(e);
  }

  // ---------------------------------------------------------------- whole streams

  /** The loop gets as far as the `i`-th event. */
  predicate Reached(events: seq<StreamEvent>, i: nat) {
    i < |events| && forall k | 0 <= k < i :: !Stops(events[k])
  }

  /** An open completion is read, and after it another event that decides. */
  predicate Collides(events: seq<StreamEvent>) {
    exists i, j | 0 <= i < j < |events| :: OpenCompletion(events[i]) && Reached(events, j) && Decides(events[j])
  }

  /** The effect of the first deciding event the loop gets to. */
  function Verdict(events: seq<StreamEvent>): Effect {
    if events == [] then Nothing
    else if Decides(events[0]) then EffectOf(events[0])
    else if Stops(events[0]) then Nothing
    else Verdict(events[1..])
  }

  lemma {:induction false} VerdictAt(events: seq<StreamEvent>, i: nat)
    requires Reached(events, i) && forall k | 0 <= k < i :: !Decides(events[k])
    ensures Decides(events[i]) ==> Verdict(events) == EffectOf(events[i])
    ensures !Decides(events[i]) && (Stops(events[i]) || i + 1 == |events|) ==> Verdict(events) == Nothing
  {
    if i > 0 {
      VerdictAt(events[1..], i - 1);
    }
  }

  /** The worker is left running exactly when no event the loop gets to decides. */
  lemma {:induction false} UndecidedIff(events: seq<StreamEvent>)
    ensures Verdict(events) == Nothing <==> forall i: nat | Reached(events, i) :: !Decides(events[i])
  {
    if events != [] {
      UndecidedIff(events[1..]);
      if Decides(events[0]) {
        assert Reached(events, 0);
      } else if Stops(events[0]) {
        forall i: nat | Reached(events, i) ensures !Decides(events[i]) {
          assert i == 0;
        }
      } else {
        ReachedTail(events);
      }
    }
  }

  lemma ReachedTail(events: seq<StreamEvent>)
    requires events != [] && !Stops(events[0])
    ensures forall i: nat :: Reached(events, i + 1) <==> Reached(events[1..], i)
    ensures (forall i: nat | Reached(events, i) && i > 0 :: !Decides(events[i]))
       <==> (forall i: nat | Reached(events[1..], i) :: !Decides(events[1..][i]))
  {
    var rest := events[1..];
    forall i: nat ensures Reached(events, i + 1) <==> Reached(rest, i) {
      if Reached(rest, i) {
        forall k | 0 <= k < i + 1 ensures !Stops(events[k]) {
          assert k == 0 || events[k] == rest[k - 1];
        }
      }
      if Reached(events, i + 1) {
        forall k | 0 <= k < i ensures !Stops(rest[k]) {
          assert rest[k] == events[k + 1];
        }
      }
    }
    if forall i: nat | Reached(events, i) && i > 0 :: !Decides(events[i]) {
      forall i: nat | Reached(rest, i) ensures !Decides(rest[i]) {
        assert Reached(events, i + 1);
      }
    }
    if forall i: nat | Reached(rest, i) :: !Decides(rest[i]) {
      forall i: nat | Reached(events, i) && i > 0 ensures !Decides(events[i]) {
        assert Reached(rest, i - 1);
      }
    }
  }

  /** Two events `{"event_type": "complete"}`: the second is read after the first has settled. */
  lemma RepeatedCompletionCollides(e: StreamEvent)
    requires e == StreamEvent("complete", None, false, false, false, false, false, false, false)
    ensures Collides([e, e]) && Verdict([e, e]) == Succeeds
  {
    OpenCompletionIff(e);
    assert Completion(e);
    var events := [e, e];
    assert OpenCompletion(events[0]) && Decides(events[1]) && Reached(events, 1);
  }

  /** The event that decided. */
  lemma {:induction false} VerdictIndex(events: seq<StreamEvent>) returns (i: nat)
    requires Verdict(events) != Nothing
    ensures Reached(events, i) && EffectOf(events[i]) == Verdict(events) && forall k | 0 <= k < i :: !Decides(events[k])
  {
    if Decides(events[0]) {
      i := 0;
    } else {
      i := VerdictIndex(events[1..]);
      forall k | 0 <= k < i + 1 ensures !Stops(events[k]) && !Decides(events[k]) {
        assert k == 0 || events[k] == events[1..][k - 1];
      }
      i := i + 1;
    }
  }

  /** A stream that collides has settled the task as a success. */
  lemma CollisionSucceeds(events: seq<StreamEvent>)
    requires Collides(events)
    ensures Verdict(events) == Succeeds
  {
    hide Decides, Stops, OpenCompletion, EffectOf;
    var i, j :| 0 <= i < j < |events| && OpenCompletion(events[i]) && Reached(events, j) && Decides(events[j]);
    OpenCompletionIff(events[i]);
    assert Reached(events, i);
    UndecidedIff(events);
    var k := VerdictIndex(events);
    OpenCompletionIff(events[k]);
    assert k <= i;
  }

  // ---------------------------------------------------------------- failures recovered from

  predicate Failing(effect: Effect) {
    effect == Recovers || effect == Fails
  }

  predicate GoodEnd(e: StreamEvent) {
    e.terminal && (OutcomeText(e) in SUCCESS || e.eventType in COMPLETION || e.requiresHuman || e.approvalRequired)
  }

  predicate BadEnd(e: StreamEvent) {
    e.terminal && (OutcomeText(e) in FAILURE + STALLED + {"stuck"} || e.eventType == "error")
  }

  predicate EndsWellAfter(events: seq<StreamEvent>, i: int) {
    exists j | 0 <= j < |events| :: i < j && GoodEnd(events[j])
  }

  function Diagnostic(e: StreamEvent): StreamEvent {
    e.(eventType := "diagnostic", terminal := false, outcome := Some("recovered_error"))
  }

  /** Every failed end with a good end somewhere after it becomes a diagnostic. */
  function Downgraded(events: seq<StreamEvent>): (r: seq<StreamEvent>)
    ensures |r| == |events|
  {
    seq(|events|, i requires 0 <= i < |events| =>
      if BadEnd(events[i]) && EndsWellAfter(events, i) then Diagnostic(events[i]) else events[i])
  }

  /** `_downgrade_recovered_terminal_failures`: one pass from the back. */
  method DowngradeRecovered(events: seq<StreamEvent>) returns (r: seq<StreamEvent>)
    ensures r == Downgraded(events)
  {
    hide GoodEnd, BadEnd, Diagnostic;
    r := [];
    var seen := false;
    var i := |events|;
    while i > 0
      invariant 0 <= i <= |events| && r == Downgraded(events)[i..]
      invariant seen <==> EndsWellAfter(events, i - 1)
    {
      i := i - 1;
      var e := events[i];
      assert Downgraded(events)[i..] == [Downgraded(events)[i]] + Downgraded(events)[i + 1..];
      r := [if seen && BadEnd(e) then Diagnostic(e) else e] + r;
      seen := seen || GoodEnd(e);
    }
  }

  /** Which ends are good and which are bad, in the words of the events. */
  lemma EndTable(e: StreamEvent)
    ensures GoodEnd(e) <==>
              e.terminal && (SaysSuccess(e) || e.eventType == "complete" || e.eventType == "completed" || e.eventType == "final"
                             || e.requiresHuman || e.approvalRequired)
    ensures BadEnd(e) <==> e.terminal && (SaysFailure(e) || SaysStalled(e) || Says(e, "stuck") || e.eventType == "error")
  {
    hide Says, Lower, SaysSuccess, SaysStalled, SaysFailure;
    WordsIff(e);
    SaysIff(e, "stuck");
  }

  /** A worker that fell and recovered is settled by its last good end, whatever terminal failures
      came before it. */
  lemma RecoveredEnding(events: seq<StreamEvent>, j: nat)
    requires j < |events| && GoodEnd(events[j]) && !EndsWellAfter(events, j)
    requires forall k | 0 <= k < j ::
               || (BadEnd(events[k]) && !events[k].requiresHuman && !events[k].approvalRequired)
               || (!Decides(events[k]) && !Stops(events[k]))
    ensures Verdict(Downgraded(events)) == EffectOf(events[j])
    ensures !Collides(Downgraded(events))
  {
    hide GoodEnd, BadEnd, Decides, Stops, EffectOf, OpenCompletion, Diagnostic;
    var after := Downgraded(events);
    forall k | 0 <= k < j ensures !Decides(after[k]) && !Stops(after[k]) {
      QuietBefore(events, j, k);
    }
    assert after[j] == events[j];
    GoodEndStops(events[j]);
    assert Reached(after, j);
    VerdictAt(after, j);
    UndecidedIff(after);
    if Decides(events[j]) {
      assert Verdict(after) == EffectOf(events[j]);
    } else {
      DecidesIsEffect(events[j]);
    }
    NoCollision(after, j);
  }

  /** With nothing decided before the event at which the loop stops, nothing collides. */
  lemma NoCollision(events: seq<StreamEvent>, j: nat)
    requires j < |events| && Stops(events[j]) && forall k | 0 <= k < j :: !Decides(events[k])
    ensures !Collides(events)
  {
    hide Decides, Stops, EffectOf, OpenCompletion;
    forall x | 0 <= x < |events| && OpenCompletion(events[x]) ensures Decides(events[x]) && !Stops(events[x]) {
      OpenCompletionIff(events[x]);
    }
  }

  lemma DecidesIsEffect(e: StreamEvent)
    ensures !Decides(e) ==> EffectOf(e) == Nothing
  {
  }

  lemma GoodEndStops(e: StreamEvent)
    ensures GoodEnd(e) ==> Stops(e)
  {
  }

  /** An event before the good end that is a bad end has become a diagnostic, which decides nothing. */
  lemma QuietBefore(events: seq<StreamEvent>, j: nat, k: nat)
    requires k < j < |events| && GoodEnd(events[j])
    requires || (BadEnd(events[k]) && !events[k].requiresHuman && !events[k].approvalRequired)
             || (!Decides(events[k]) && !Stops(events[k]))
    ensures !Decides(Downgraded(events)[k]) && !Stops(Downgraded(events)[k])
  {
    hide Stops, GoodEnd;
    DiagnosticQuiet(events[k]);
    BadEndStops(events[k]);
  }

  lemma BadEndStops(e: StreamEvent)
    ensures BadEnd(e) ==> Stops(e)
  {
  }

  lemma DiagnosticQuiet(e: StreamEvent)
    requires !e.requiresHuman && !e.approvalRequired
    ensures !Decides(Diagnostic(e)) && !Stops(Diagnostic(e))
  {
    DiagnosticEffect(e);
    var d := Diagnostic(e);
    assert |OutcomeText(d)| == 15;
    assert forall x | x in SUCCESS :: |x| < 15;
    assert Seen(d) == d;
  }

  lemma DiagnosticEffect(e: StreamEvent)
    ensures !Failing(EffectOf(Diagnostic(e)))
    ensures Stops(Diagnostic(e)) ==> e.requiresHuman || e.approvalRequired
  {
    var d := Diagnostic(e);
    assert |OutcomeText(d)| == 15;
    assert forall x | x in SUCCESS + STALLED + FAILURE :: |x| < 15;
    assert d.eventType != "message" && d.eventType != "complete" by {
      assert |d.eventType| == 10 && |"message"| == 7 && |"complete"| == 8;
    }
    assert Seen(d) == d;
  }

  /** A failure still counts after downgrading exactly when it was not marked terminal or nothing
      ended well after it. */
  lemma DowngradeSpares(events: seq<StreamEvent>, i: nat)
    requires i < |events|
    ensures Failing(EffectOf(Downgraded(events)[i])) <==>
              Failing(EffectOf(events[i])) && !(events[i].terminal && EndsWellAfter(events, i))
  {
    var e := events[i];
    DiagnosticEffect(e);
    if Failing(EffectOf(e)) {
      assert Seen(e) == e;
    }
  }

  lemma {:induction false} LastGoodEnd(events: seq<StreamEvent>, i: int) returns (j: nat)
    requires EndsWellAfter(events, i)
    ensures i < j < |events| && GoodEnd(events[j]) && !EndsWellAfter(events, j)
    decreases |events| - i
  {
    j :| j < |events| && i < j && GoodEnd(events[j]);
    if EndsWellAfter(events, j) {
      j := LastGoodEnd(events, j);
    }
  }

  /** The loop never reads past the last good end. */
  lemma LoopEndsByGoodEnd(events: seq<StreamEvent>, i: nat)
    requires Reached(Downgraded(events), i) && EndsWellAfter(events, -1)
    ensures GoodEnd(events[i]) || EndsWellAfter(events, i)
  {
    var j := LastGoodEnd(events, -1);
    assert Downgraded(events)[j] == events[j] && Seen(events[j]).terminal;
    assert Stops(Downgraded(events)[j]);
  }

  /** A worker that ended well is not failed for an error it recovered from, unless that error was
      not marked terminal or was itself the good end. */
  lemma RecoveredNotFailed(events: seq<StreamEvent>)
    requires EndsWellAfter(events, -1)
    requires forall i | 0 <= i < |events| && Failing(EffectOf(events[i])) :: events[i].terminal && !GoodEnd(events[i])
    ensures !Failing(Verdict(Downgraded(events)))
  {
    if Failing(Verdict(Downgraded(events))) {
      var i := VerdictIndex(Downgraded(events));
      LoopEndsByGoodEnd(events, i);
      DowngradeSpares(events, i);
    }
  }

  /** Without the terminal mark the error still fails the task, although the worker completed. */
  lemma UnmarkedFailureStillFails(failure: StreamEvent, success: StreamEvent)
    requires failure == StreamEvent("progress", Some("error"), false, false, false, false, false, false, false)
    requires success == StreamEvent("complete", Some("success"), true, false, false, false, false, false, false)
    ensures GoodEnd(success) && Verdict(Downgraded([failure, success])) == Fails
  {
    var events := [failure, success];
    assert Lower("error") == "error" && Lower("success") == "success";
    assert "error" in FAILURE && "success" in SUCCESS;
    assert "error" !in SUCCESS + STALLED by {
      assert forall x | x in SUCCESS + STALLED :: |x| != 5 || x == "crash";
      assert "crash"[0] == 'c' && "error"[0] == 'e';
    }
    assert failure.eventType !in COMPLETION by {
      assert failure.eventType[0] == 'p' && forall x | x in COMPLETION :: x[0] == 'c' || x[0] == 'f';
    }
    assert "progress" != "message" && "progress" != "complete" by {
      assert "progress"[0] == 'p' && "message"[0] == 'm' && "complete"[0] == 'c';
    }
    assert EffectOf(failure) == Fails;
    assert Downgraded(events)[0] == failure;
  }
}
