/** Leases and idempotency windows under a clock. */
module Coordination {
  import opened Names
  import opened Wrappers
  import opened Sequences

  // Both are tables of records with an expiry (storage/coordination.py); the clock reading of each
  // call is an argument.

  /** A lease or idempotency record; `value` is a lease's holder or a window's value. */
  datatype Claim = Claim(key: Name, since: int, until: int, value: Option<string>) {
    predicate IsActive(now: int) {
      now < until
    }
  }

  type Claims = map<Name, Claim>

  datatype Call =
    | Acquire(key: Name, ttl: int, value: Option<string>)
    | Heartbeat(key: Name, ttl: int)
    | Release(key: Name)
    | Get(key: Name)
    | Reap

  datatype Answer = Granted(yes: bool) | Renewed(ok: bool) | Released | Found(claim: Option<Claim>) | Reaped(keys: set<Name>)

  predicate Held(m: Claims, key: Name, now: int) {
    key in m && m[key].IsActive(now)
  }

  function Expired(m: Claims, now: int): set<Name> {
    set k | k in m && !m[k].IsActive(now)
  }

  /** The table after a call. */
  function After(m: Claims, c: Call, now: int): Claims {
    match c
    case Acquire(k, ttl, v) => if Held(m, k, now) then m else m[k := Claim(k, now, now + ttl, v)]
    case Heartbeat(k, ttl) => if Held(m, k, now) then m[k := m[k].(key := k, until := now + ttl)] else m
    case Release(k) => m - {k}
    case Get(k) => m
    case Reap => m - Expired(m, now)
  }

  /** The answer a call gives; a heartbeat on an inactive lease raises, here `Renewed(false)`. */
  function AnswerOf(m: Claims, c: Call, now: int): Answer {
    match c
    case Acquire(k, _, _) => Granted(!Held(m, k, now))
    case Heartbeat(k, _) => Renewed(Held(m, k, now))
    case Release(_) => Released
    case Get(k) => Found(if Held(m, k, now) then Some(m[k]) else None)
    case Reap => Reaped(Expired(m, now))
  }

  // ---------------------------------------------------------------- histories under a clock

  datatype Timed = Timed(call: Call, now: int)

  /** The table after the first `n` calls. */
  function At(m: Claims, calls: seq<Timed>, n: nat): Claims
    requires n <= |calls|
  {
    if n == 0 then m else After(At(m, calls, n - 1), calls[n - 1].call, calls[n - 1].now)
  }

  function Told(m: Claims, calls: seq<Timed>, n: nat): Answer
    requires n < |calls|
  {
    AnswerOf(At(m, calls, n), calls[n].call, calls[n].now)
  }

  /** The clock never goes back. */
  ghost predicate Clocked(calls: seq<Timed>) {
    forall i, j | 0 <= i < j < |calls| :: calls[i].now <= calls[j].now
  }

  /** Call `n` sets the key's expiry anew: a granted acquire or an answered heartbeat. */
  predicate Renews(m: Claims, calls: seq<Timed>, n: nat, key: Name)
    requires n < |calls|
  {
    match calls[n].call
    case Acquire(k, _, _) => k == key && Told(m, calls, n) == Granted(true)
    case Heartbeat(k, _) => k == key && Told(m, calls, n) == Renewed(true)
    case _ => false
  }

  /** The expiry set by the last renewal among calls `i` to `n - 1`, call `i` being one. */
  function Expiry(m: Claims, calls: seq<Timed>, i: nat, n: nat, key: Name): int
    requires i < n <= |calls| && Renews(m, calls, i, key)
  {
    if Renews(m, calls, n - 1, key) then calls[n - 1].now + calls[n - 1].call.ttl
    else Expiry(m, calls, i, n - 1, key)
  }

  /** Until it is released, a claim is in the table with its last expiry, or that has passed. */
  lemma {:induction false} ClaimFollowed(m: Claims, calls: seq<Timed>, i: nat, n: nat, key: Name)
    requires i < n <= |calls| && Clocked(calls) && Renews(m, calls, i, key)
    requires forall p | i < p < n :: calls[p].call != Release(key)
    ensures var e, t := Expiry(m, calls, i, n, key), At(m, calls, n);
            (key in t && t[key].until == e) || (key !in t && e <= calls[n - 1].now)
  {
    if n - 1 > i {
      ClaimFollowed(m, calls, i, n - 1, key);
    }
  }

  /** Mutual exclusion: two granted acquires of one key are separated by a release, or by the
      expiry that the last renewal before the second had set. */
  lemma SeparatedAcquires(m: Claims, calls: seq<Timed>, i: nat, j: nat, key: Name)
    requires i < j < |calls| && Clocked(calls)
    requires calls[i].call.Acquire? && calls[i].call.key == key && Told(m, calls, i) == Granted(true)
    requires calls[j].call.Acquire? && calls[j].call.key == key && Told(m, calls, j) == Granted(true)
    ensures (exists p :: i < p < j && calls[p].call == Release(key)) || Expiry(m, calls, i, j, key) <= calls[j].now
  {
    if forall p | i < p < j :: calls[p].call != Release(key) {
      ClaimFollowed(m, calls, i, j, key);
    }
  }

  // ---------------------------------------------------------------- every answer, from the history

  /** Call `i` was the last granted acquire of the key before call `n`, and it was not released. */
  ghost predicate LastGrant(m: Claims, calls: seq<Timed>, i: nat, n: nat, key: Name) {
    && i < n <= |calls| && calls[i].call.Acquire? && calls[i].call.key == key && Told(m, calls, i) == Granted(true)
    && forall p | i < p < n ::
         calls[p].call != Release(key) && !(calls[p].call.Acquire? && calls[p].call.key == key && Told(m, calls, p) == Granted(true))
  }

  /** While it stands, the record is the one that acquire made: its key, its time, its value; only the
      expiry moves. */
  lemma {:induction false} ClaimContents(m: Claims, calls: seq<Timed>, i: nat, n: nat, key: Name)
    requires LastGrant(m, calls, i, n, key)
    ensures key in At(m, calls, n) ==>
              At(m, calls, n)[key] == Claim(key, calls[i].now, Expiry(m, calls, i, n, key), calls[i].call.value)
  {
    if n - 1 > i {
      ClaimContents(m, calls, i, n - 1, key);
    }
  }

  /** After a grant that was not released, every later call on the key is answered by whether its time
      is before the expiry set last; a read then returns what the grant recorded. */
  lemma GrantTells(m: Claims, calls: seq<Timed>, i: nat, n: nat, key: Name)
    requires Clocked(calls) && n < |calls| && LastGrant(m, calls, i, n, key)
    ensures var expiry := Expiry(m, calls, i, n, key);
            match calls[n].call
            case Acquire(k, _, _) => k == key ==> Told(m, calls, n) == Granted(expiry <= calls[n].now)
            case Heartbeat(k, _) => k == key ==> Told(m, calls, n) == Renewed(calls[n].now < expiry)
            case Get(k) =>
              k == key ==>
                Told(m, calls, n) == Found(if calls[n].now < expiry then Some(Claim(key, calls[i].now, expiry, calls[i].call.value)) else None)
            case _ => true
  {
    ClaimFollowed(m, calls, i, n, key);
    ClaimContents(m, calls, i, n, key);
    assert calls[n - 1].now <= calls[n].now;
  }

  /** Nobody acquired the key since the start, or since its release by call `r - 1`. */
  ghost predicate Untaken(calls: seq<Timed>, r: nat, n: nat, key: Name) {
    && r <= n <= |calls| && (r == 0 || calls[r - 1].call == Release(key))
    && forall p | r <= p < n :: !(calls[p].call.Acquire? && calls[p].call.key == key)
  }

  lemma {:induction false} UntakenIsFree(calls: seq<Timed>, r: nat, n: nat, key: Name)
    requires Untaken(calls, r, n, key)
    ensures key !in At(map[], calls, n)
    decreases n
  {
    if n > r {
      UntakenIsFree(calls, r, n - 1, key);
    }
  }

  /** Then the key is free: an acquire is granted, a heartbeat raises, a read finds nothing. */
  lemma UntakenTells(calls: seq<Timed>, r: nat, n: nat, key: Name)
    requires n < |calls| && Untaken(calls, r, n, key)
    ensures match calls[n].call
            case Acquire(k, _, _) => k == key ==> Told(map[], calls, n) == Granted(true)
            case Heartbeat(k, _) => k == key ==> Told(map[], calls, n) == Renewed(false)
            case Get(k) => k == key ==> Told(map[], calls, n) == Found(None)
            case _ => true
  {
    UntakenIsFree(calls, r, n, key);
  }

  /** Reaping reports exactly the keys whose record has expired, and keeps every other record. */
  lemma ReapExact(m: Claims, now: int, key: Name)
    ensures key in AnswerOf(m, Reap, now).keys <==> key in m && m[key].until <= now
    ensures key in After(m, Reap, now) <==> key in m && now < m[key].until
    ensures key in After(m, Reap, now) ==> After(m, Reap, now)[key] == m[key]
  {
  }

  // ---------------------------------------------------------------- reaping is invisible

  /** Two tables that no later question can tell apart. */
  ghost predicate Alike(m: Claims, n: Claims, now: int) {
    forall k :: (Held(m, k, now) <==> Held(n, k, now)) && (Held(m, k, now) ==> m[k] == n[k])
  }

  lemma AlikeStep(m: Claims, n: Claims, c: Call, before: int, now: int)
    requires Alike(m, n, before) && before <= now
    ensures !c.Reap? ==> AnswerOf(m, c, now) == AnswerOf(n, c, now)
    ensures Alike(After(m, c, now), After(n, c, now), now)
  {
    forall k ensures (Held(m, k, now) <==> Held(n, k, now)) && (Held(m, k, now) ==> m[k] == n[k]) {
      assert Held(m, k, now) ==> Held(m, k, before);
      assert Held(n, k, now) ==> Held(n, k, before);
    }
  }

  lemma {:induction false} AlikeHistory(m: Claims, n: Claims, calls: seq<Timed>, start: int, k: nat)
    requires Alike(m, n, start) && Clocked(calls) && k <= |calls| && (|calls| > 0 ==> start <= calls[0].now)
    ensures Alike(At(m, calls, k), At(n, calls, k), if k == 0 then start else calls[k - 1].now)
  {
    if k > 0 {
      AlikeHistory(m, n, calls, start, k - 1);
      AlikeStep(At(m, calls, k - 1), At(n, calls, k - 1), calls[k - 1].call, if k == 1 then start else calls[k - 2].now, calls[k - 1].now);
    }
  }

  lemma ReapAlike(m: Claims, now: int)
    ensures Alike(m, After(m, Reap, now), now)
  {
  }

  /** Inserting `reap_expired` before any history changes no later answer of acquire, heartbeat,
      release or get. */
  lemma ReapInvisible(m: Claims, reapAt: int, later: seq<Timed>, k: nat)
    requires Clocked([Timed(Reap, reapAt)] + later) && k < |later| && !later[k].call.Reap?
    ensures Told(m, later, k) == Told(After(m, Reap, reapAt), later, k)
  {
    var all := [Timed(Reap, reapAt)] + later;
    assert forall i | 0 <= i < |later| :: all[i + 1] == later[i];
    assert all[0].now <= all[1].now;
    ReapAlike(m, reapAt);
    AlikeHistory(m, After(m, Reap, reapAt), later, reapAt, k);
    AlikeStep(At(m, later, k), At(After(m, Reap, reapAt), later, k), later[k].call, if k == 0 then reapAt else later[k - 1].now, later[k].now);
  }

  lemma {:induction false} AtAppend(m: Claims, earlier: seq<Timed>, later: seq<Timed>, k: nat)
    requires k <= |later|
    ensures At(m, earlier + later, |earlier| + k) == At(At(m, earlier, |earlier|), later, k)
  {
    if k == 0 {
      AtPrefix(m, earlier, later, |earlier|);
    } else {
      AtAppend(m, earlier, later, k - 1);
    }
  }

  lemma {:induction false} AtPrefix(m: Claims, earlier: seq<Timed>, later: seq<Timed>, n: nat)
    requires n <= |earlier|
    ensures At(m, earlier + later, n) == At(m, earlier, n)
  {
    if n > 0 {
      AtPrefix(m, earlier, later, n - 1);
    }
  }

  /** The same anywhere in a history: every call after the inserted reap is answered as before. */
  lemma ReapAnywhere(m: Claims, earlier: seq<Timed>, reapAt: int, later: seq<Timed>, k: nat)
    requires Clocked(earlier + [Timed(Reap, reapAt)] + later) && k < |later| && !later[k].call.Reap?
    ensures Told(m, earlier + [Timed(Reap, reapAt)] + later, |earlier| + 1 + k) == Told(m, earlier + later, |earlier| + k)
  {
    var reap := [Timed(Reap, reapAt)];
    var all := earlier + reap + later;
    assert Clocked(reap + later) by {
      assert forall i | 0 <= i < |reap + later| :: (reap + later)[i] == all[|earlier| + i];
    }
    var mid := At(m, earlier, |earlier|);
    AtAppend(m, earlier, later, k);
    AtAppend(m, earlier + reap, later, k);
    AtAppend(m, earlier, reap, 1);
    assert At(mid, reap, 1) == After(mid, Reap, reapAt);
    ReapInvisible(mid, reapAt, later, k);
  }

  // ---------------------------------------------------------------- the objects

  /** Drop every expired record; what remains and what is reported. */
  method Sweep(m: Claims, now: int) returns (rest: Claims, expired: set<Name>)
    ensures expired == Expired(m, now) && rest == After(m, Reap, now)
  {
    expired := set k | k in m && !m[k].IsActive(now);
    rest := m;
    var todo := expired;
    while todo != {}
      invariant todo <= expired && rest == m - (expired - todo)
      decreases |todo|
    {
      var k :| k in todo;
      todo := todo - {k};
      rest := rest - {k};
    }
  }

  class InMemoryLeaseManager {
    var leases: Claims

    constructor ()
      ensures leases == map[]
    {
      leases := map[];
    }

    method AcquireLease(key: Name, ttl: int, now: int) returns (granted: bool)
      modifies this
      ensures leases == After(old(leases), Acquire(key, ttl, None), now)
      ensures Granted(granted) == AnswerOf(old(leases), Acquire(key, ttl, None), now)
    {
      if key in leases && leases[key].IsActive(now) {
        return false;
      }
      leases := leases[key := Claim(key, now, now + ttl, None)];
      return true;
    }

    /** Raises KeyError, here `false`, when the lease is not active. */
    method HeartbeatLease(key: Name, ttl: int, now: int) returns (ok: bool)
      modifies this
      ensures leases == After(old(leases), Heartbeat(key, ttl), now)
      ensures Renewed(ok) == AnswerOf(old(leases), Heartbeat(key, ttl), now)
    {
      if key !in leases || !leases[key].IsActive(now) {
        return false;
      }
      var current := leases[key];
      leases := leases[key := Claim(key, current.since, now + ttl, current.value)];
      return true;
    }

    method ReleaseLease(key: Name)
      modifies this
      ensures forall now :: leases == After(old(leases), Release(key), now)
    {
      leases := leases - {key};
    }

    method GetLease(key: Name, now: int) returns (r: Option<Claim>)
      ensures Found(r) == AnswerOf(leases, Get(key), now)
    {
      if key !in leases {
        return None;
      }
      if !leases[key].IsActive(now) {
        return None;
      }
      return Some(leases[key]);
    }

    method ReapExpired(now: int) returns (expired: set<Name>)
      modifies this
      ensures leases == After(old(leases), Reap, now) && Reaped(expired) == AnswerOf(old(leases), Reap, now)
    {
      leases, expired := Sweep(leases, now);
    }
  }

  class InMemoryIdempotencyStore {
    var records: Claims

    constructor ()
      ensures records == map[]
    {
      records := map[];
    }

    method ClaimAction(key: Name, ttl: int, value: Option<string>, now: int) returns (granted: bool)
      modifies this
      ensures records == After(old(records), Acquire(key, ttl, value), now)
      ensures Granted(granted) == AnswerOf(old(records), Acquire(key, ttl, value), now)
    {
      if key in records && records[key].IsActive(now) {
        return false;
      }
      records := records[key := Claim(key, now, now + ttl, value)];
      return true;
    }

    method GetRecord(key: Name, now: int) returns (r: Option<Claim>)
      ensures Found(r) == AnswerOf(records, Get(key), now)
    {
      if key !in records || !records[key].IsActive(now) {
        return None;
      }
      return Some(records[key]);
    }

    method ReleaseAction(key: Name)
      modifies this
      ensures forall now :: records == After(old(records), Release(key), now)
    {
      records := records - {key};
    }

    method ReapExpired(now: int) returns (expired: set<Name>)
      modifies this
      ensures records == After(old(records), Reap, now) && Reaped(expired) == AnswerOf(old(records), Reap, now)
    {
      records, expired := Sweep(records, now);
    }
  }
}
