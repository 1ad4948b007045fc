/** The in-memory fixed-window rate limiter with lazy cleanup. */
module RateLimiter {
  import opened Prelude

  datatype Record = Record(count: nat, resetAt: Time)

  datatype Limit = Limit(maxAttempts: nat, windowMs: nat)

  const CLEANUP_INTERVAL_MS := 300_000

  // ------------------------------------------------------------ specification

  /** One bucket that is never cleaned up: its next record and whether the request is let through. */
  function Check(r: Option<Record>, now: Time, l: Limit): (Option<Record>, bool) {
    if r.Some? && r.value.resetAt > now then
      if r.value.count >= l.maxAttempts then (r, false)
      else (Some(r.value.(count := r.value.count + 1)), true)
    else (Some(Record(1, now + l.windowMs)), true)
  }

  function Lookup(m: map<string, Record>, key: string): Option<Record> {
    if key in m then Some(m[key]) else None
  }

  // --------------------------------------------------------------------- code

  class MemoryLimiter {
    var attempts: map<string, Record>
    var lastCleanup: Time
    /** The same buckets without any cleanup, and the latest time seen. */
    ghost var buckets: map<string, Record>
    ghost var clock: Time

    ghost predicate Valid()
      reads this
    {
      && (forall key :: key in attempts ==> key in buckets && buckets[key] == attempts[key])
      && (forall key :: key in buckets && key !in attempts ==> buckets[key].resetAt <= clock)
    }

    constructor (now: Time)
      ensures Valid() && buckets == map[] && clock == now
    {
      attempts, lastCleanup := map[], now;
      buckets, clock := map[], now;
    }

    method CleanupExpired(now: Time)
      requires Valid() && clock <= now
      modifies this`attempts, this`lastCleanup, this`clock
      ensures Valid() && clock == now
      ensures forall key :: key in attempts ==> key in old(attempts) && attempts[key] == old(attempts)[key]
      ensures forall key :: key in old(attempts) && old(attempts)[key].resetAt > now ==> key in attempts
      ensures now - old(lastCleanup) >= CLEANUP_INTERVAL_MS ==>
        lastCleanup == now && forall key :: key in attempts ==> attempts[key].resetAt > now
    {
      clock := now;
      if now - lastCleanup < CLEANUP_INTERVAL_MS {
        return;
      }
      lastCleanup := now;
      var rest := attempts.Keys;
      while rest != {}
        invariant Valid() && rest <= attempts.Keys && clock == now && lastCleanup == now
        invariant forall key :: key in attempts ==> key in old(attempts) && attempts[key] == old(attempts)[key]
        invariant forall key :: key in old(attempts) && old(attempts)[key].resetAt > now ==> key in attempts
        invariant forall key :: key in attempts && key !in rest ==> attempts[key].resetAt > now
      {
        var key :| key in rest;
        rest := rest - {key};
        if attempts[key].resetAt <= now {
          attempts := attempts - {key};
        }
      }
    }

    /** Decides as the bucket that is never cleaned up would, and leaves all other buckets alone. */
    method CheckMemoryLimit(bucketKey: string, now: Time, l: Limit) returns (admitted: bool)
      requires Valid() && clock <= now
      modifies this
      ensures Valid() && clock == now
      ensures admitted == Check(Lookup(old(buckets), bucketKey), now, l).1
      ensures buckets == old(buckets)[bucketKey := Check(Lookup(old(buckets), bucketKey), now, l).0.value]
    {
      CleanupExpired(now);
      ghost var next := Check(Lookup(buckets, bucketKey), now, l).0.value;
      if bucketKey in attempts && attempts[bucketKey].resetAt > now {
        var record := attempts[bucketKey];
        if record.count >= l.maxAttempts {
          assert buckets[bucketKey := next] == buckets;
          return false;
        }
        attempts := attempts[bucketKey := record.(count := record.count + 1)];
      } else {
        attempts := attempts[bucketKey := Record(1, now + l.windowMs)];
      }
      buckets := buckets[bucketKey := next];
      return true;
    }
  }

  // ----------------------------------------------------------------- the bound

  /** The requests one bucket lets through, of those at `times`. */
  function Admitted(r: Option<Record>, l: Limit, times: seq<Time>): seq<Time>
    decreases |times|
  {
    if times == [] then [] else
      var (next, admitted) := Check(r, times[0], l);
      (if admitted then [times[0]] else []) + Admitted(next, l, times[1..])
  }

  predicate Sorted(times: seq<Time>) {
    forall i, j :: 0 <= i < j < |times| ==> times[i] <= times[j]
  }

  /** How many of `log` lie in the half-open interval from `low` to `high`. */
  function Between(log: seq<Time>, low: Time, high: Time): nat {
    if log == [] then 0 else (if low <= log[0] < high then 1 else 0) + Between(log[1..], low, high)
  }

  /** How many admissions in an interval of one window length, starting at `low`, can still come after record `r`. */
  function Room(r: Option<Record>, l: Limit, low: Time): int {
    if r.None? || r.value.resetAt <= low then 2 * l.maxAttempts - 1
    else if r.value.resetAt < low + l.windowMs then 2 * l.maxAttempts - r.value.count
    else l.maxAttempts - r.value.count
  }

  lemma {:induction false} NothingAfter(r: Option<Record>, l: Limit, times: seq<Time>, low: Time, high: Time)
    requires Sorted(times) && (times != [] ==> high <= times[0])
    ensures Between(Admitted(r, l, times), low, high) == 0
    decreases |times|
  {
    if times != [] {
      NothingAfter(Check(r, times[0], l).0, l, times[1..], low, high);
      BetweenStep(r, l, times, low, high);
    }
  }

  lemma BetweenStep(r: Option<Record>, l: Limit, times: seq<Time>, low: Time, high: Time)
    requires times != []
    ensures var (next, admitted) := Check(r, times[0], l);
            Between(Admitted(r, l, times), low, high) ==
            (if admitted && low <= times[0] < high then 1 else 0) + Between(Admitted(next, l, times[1..]), low, high)
  {
    var (next, admitted) := Check(r, times[0], l);
    var rest := Admitted(next, l, times[1..]);
    if admitted {
      assert ([times[0]] + rest)[1..] == rest;
    } else {
      assert [] + rest == rest;
    }
  }

  lemma {:induction false} AdmissionsFitTheRoom(r: Option<Record>, l: Limit, times: seq<Time>, low: Time)
    requires Sorted(times) && 1 <= l.maxAttempts
    requires r.Some? ==> 1 <= r.value.count <= l.maxAttempts
    ensures Between(Admitted(r, l, times), low, low + l.windowMs) <= Room(r, l, low)
    decreases |times|
  {
    if times != [] {
      if low + l.windowMs <= times[0] {
        NothingAfter(r, l, times, low, low + l.windowMs);
      } else {
        AdmissionsFitTheRoom(Check(r, times[0], l).0, l, times[1..], low);
        BetweenStep(r, l, times, low, low + l.windowMs);
      }
    }
  }

  /** Any half-open interval of one window length admits fewer than twice the limit. */
  lemma {:induction false} SlidingBound(l: Limit, times: seq<Time>, low: Time)
    requires Sorted(times) && 1 <= l.maxAttempts
    ensures Between(Admitted(None, l, times), low, low + l.windowMs) <= 2 * l.maxAttempts - 1
  {
    AdmissionsFitTheRoom(None, l, times, low);
  }

  /** A window, counted from the request that opens it, admits at most the limit. */
  lemma {:induction false} FixedWindowBound(r: Option<Record>, l: Limit, times: seq<Time>)
    requires Sorted(times) && times != [] && 1 <= l.maxAttempts && 0 < l.windowMs
    requires r.Some? ==> r.value.resetAt <= times[0]
    ensures Admitted(r, l, times) != [] && Admitted(r, l, times)[0] == times[0]
    ensures Between(Admitted(r, l, times), times[0], times[0] + l.windowMs) <= l.maxAttempts
  {
    AdmissionsFitTheRoom(Check(r, times[0], l).0, l, times[1..], times[0]);
    BetweenStep(r, l, times, times[0], times[0] + l.windowMs);
  }

  // ------------------------------------------------------- the bound is reached

  function Repeat(t: Time, n: nat): seq<Time> {
    if n == 0 then [] else [t] + Repeat(t, n - 1)
  }

  lemma {:induction false} BurstIsAdmitted(count: nat, resetAt: Time, l: Limit, t: Time, n: nat, rest: seq<Time>)
    requires t < resetAt && count + n <= l.maxAttempts
    ensures Admitted(Some(Record(count, resetAt)), l, Repeat(t, n) + rest) ==
            Repeat(t, n) + Admitted(Some(Record(count + n, resetAt)), l, rest)
    decreases n
  {
    if n == 0 {
      assert [] + rest == rest;
    } else {
      assert (Repeat(t, n) + rest)[1..] == Repeat(t, n - 1) + rest;
      BurstIsAdmitted(count + 1, resetAt, l, t, n - 1, rest);
    }
  }

  lemma {:induction false} BetweenRepeat(t: Time, n: nat, log: seq<Time>, low: Time, high: Time)
    requires low <= t < high
    ensures Between(Repeat(t, n) + log, low, high) == n + Between(log, low, high)
  {
    if n == 0 {
      assert [] + log == log;
    } else {
      assert (Repeat(t, n) + log)[1..] == Repeat(t, n - 1) + log;
      BetweenRepeat(t, n - 1, log, low, high);
    }
  }

  /** One request opens a window, the rest of its limit comes at its very end, and a whole limit right after. */
  function WorstCase(l: Limit): seq<Time>
    requires 1 <= l.maxAttempts
  {
    [0] + Repeat(l.windowMs - 1, l.maxAttempts - 1) + Repeat(l.windowMs, l.maxAttempts)
  }

  /** The bound is exact for every limit and every window of at least two milliseconds. */
  lemma {:induction false} SlidingBoundIsReached(l: Limit)
    requires 1 <= l.maxAttempts && 2 <= l.windowMs
    ensures Between(Admitted(None, l, WorstCase(l)), l.windowMs - 1, l.windowMs - 1 + l.windowMs) == 2 * l.maxAttempts - 1
  {
    var w, n := l.windowMs, l.maxAttempts;
    var tail := [w] + Repeat(w, n - 1);
    assert Repeat(w, n) == tail;
    assert WorstCase(l) == [0] + (Repeat(w - 1, n - 1) + tail);
    assert WorstCase(l)[1..] == Repeat(w - 1, n - 1) + tail;
    BurstIsAdmitted(1, w, l, w - 1, n - 1, tail);
    assert tail[1..] == Repeat(w, n - 1) + [];
    BurstIsAdmitted(1, w + w, l, w, n - 1, []);
    var log2 := Admitted(Some(Record(n, w)), l, tail);
    assert log2 == Repeat(w, n) + [];
    BetweenRepeat(w - 1, n - 1, log2, w - 1, w - 1 + w);
    BetweenRepeat(w, n, [], w - 1, w - 1 + w);
    var log1 := Repeat(w - 1, n - 1) + log2;
    assert Admitted(None, l, WorstCase(l)) == [0] + log1;
    assert ([0] + log1)[1..] == log1;
  }
}
