/** The circuit breaker with sliding windows. The class prunes its lists; the specification keeps everything. */
module CircuitBreaker {
  import opened Prelude

  datatype State = Closed | Open | HalfOpen

  datatype Config = Config(thresholdRate: real, windowMs: nat, cooldownMs: nat, minRequests: nat)

  /** Unpruned: every outcome recorded since the breaker last closed, and when its state last changed. */
  datatype Spec = Spec(state: State, failures: seq<Time>, successes: seq<Time>, changedAt: Time)

  /** The entries later than `limit`, in order. */
  function Later(times: seq<Time>, limit: Time): seq<Time> {
    if times == [] then []
    else (if times[0] > limit then [times[0]] else []) + Later(times[1..], limit)
  }

  lemma {:induction false} LaterOfLater(times: seq<Time>, a: Time, b: Time)
    requires a <= b
    ensures Later(Later(times, a), b) == Later(times, b)
  {
    if times != [] {
      LaterOfLater(times[1..], a, b);
      if times[0] > a {
        assert Later(times, a)[1..] == Later(times[1..], a);
      } else {
        assert Later(times, a) == Later(times[1..], a);
      }
    }
  }

  lemma {:induction false} LaterOfAppend(times: seq<Time>, t: Time, limit: Time)
    ensures Later(times + [t], limit) == Later(times, limit) + if t > limit then [t] else []
  {
    if times == [] {
      assert (times + [t])[1..] == [];
    } else {
      LaterOfAppend(times[1..], t, limit);
      assert (times + [t])[1..] == times[1..] + [t];
    }
  }

  /** Do the outcomes of the window justify opening? */
  predicate Trips(c: Config, failures: nat, successes: nat) {
    var total := failures + successes;
    total >= c.minRequests && 0 < total && failures as real / total as real >= c.thresholdRate
  }

  // ------------------------------------------------------------ specification

  datatype Event = Check | Success | Failure

  function Recorded(c: Config, s: Spec, now: Time): Spec {
    var failures := s.failures + [now];
    if s.state == HalfOpen then Spec(Open, failures, s.successes, now)
    else if Trips(c, |Later(failures, now - c.windowMs)|, |Later(s.successes, now - c.windowMs)|)
    then Spec(Open, failures, s.successes, now)
    else s.(failures := failures)
  }

  function Next(c: Config, s: Spec, e: Event, now: Time): Spec {
    match e
    case Check =>
      if s.state == Open && now - s.changedAt >= c.cooldownMs then s.(state := HalfOpen, changedAt := now) else s
    case Success =>
      if s.state == HalfOpen then Spec(Closed, [], [], now)
      else if s.state == Closed then s.(successes := s.successes + [now])
      else s
    case Failure =>
      if s.state == Open then s else Recorded(c, s, now)
  }

  /** The answer of `checkCall`. */
  predicate Allows(c: Config, s: Spec, now: Time) {
    s.state == Open ==> now - s.changedAt >= c.cooldownMs
  }

  // ------------------------------------------------------------- properties

  datatype Timed = Timed(event: Event, at: Time)

  function Run(c: Config, s: Spec, events: seq<Timed>): Spec
    decreases |events|
  {
    if events == [] then s else Run(c, Next(c, s, events[0].event, events[0].at), events[1..])
  }

  /** From opening until the cooldown ends the breaker stays open and refuses every call, whatever is recorded meanwhile. */
  lemma {:induction false} OpenRefusesUntilCooldown(c: Config, s: Spec, events: seq<Timed>)
    requires s.state == Open
    requires forall i :: 0 <= i < |events| ==> events[i].at < s.changedAt + c.cooldownMs
    ensures Run(c, s, events) == s
    ensures forall i :: 0 <= i < |events| ==> !Allows(c, Run(c, s, events[..i]), events[i].at)
  {
    if events != [] {
      assert Next(c, s, events[0].event, events[0].at) == s;
      OpenRefusesUntilCooldown(c, s, events[1..]);
      forall i | 0 <= i < |events| ensures !Allows(c, Run(c, s, events[..i]), events[i].at) {
        if 0 < i {
          assert events[..i][1..] == events[1..][..i - 1] && events[i] == events[1..][i - 1];
        }
      }
    }
  }

  /** The first check after the cooldown is let through as a probe; outside of a cooldown every check is let through and changes
   *  nothing. */
  lemma CooldownEndsInProbe(c: Config, s: Spec, now: Time)
    ensures s.state == Open ==> (Allows(c, s, now) <==> s.changedAt + c.cooldownMs <= now)
    ensures s.state == Open ==> (Allows(c, s, now) <==> Next(c, s, Check, now).state == HalfOpen)
    ensures s.state != Open ==> Allows(c, s, now) && Next(c, s, Check, now) == s
  {
  }

  /** Would a failure at `now` find the window bad enough? */
  predicate WindowTrips(c: Config, s: Spec, now: Time) {
    Trips(c, |Later(s.failures + [now], now - c.windowMs)|, |Later(s.successes, now - c.windowMs)|)
  }

  lemma LeavingClosedExactlyWhen(c: Config, s: Spec, e: Event, now: Time)
    requires s.state == Closed
    ensures Next(c, s, e, now).state == if e == Failure && WindowTrips(c, s, now) then Open else Closed
  {
  }

  /** The times of the events of one kind, in order. */
  function Times(events: seq<Timed>, kind: Event): seq<Time> {
    if events == [] then []
    else Times(events[..|events| - 1], kind) + if events[|events| - 1].event == kind then [events[|events| - 1].at] else []
  }

  /** Does a run from a closed breaker never leave that state? */
  ghost predicate StaysClosed(c: Config, s: Spec, events: seq<Timed>) {
    forall n :: 0 <= n <= |events| ==> Run(c, s, events[..n]).state == Closed
  }

  lemma {:induction false} RunOneMore(c: Config, s: Spec, events: seq<Timed>, e: Timed)
    ensures Run(c, s, events + [e]) == Next(c, Run(c, s, events), e.event, e.at)
    decreases |events|
  {
    if events == [] {
      assert (events + [e])[1..] == [];
    } else {
      RunOneMore(c, Next(c, s, events[0].event, events[0].at), events[1..], e);
      assert (events + [e])[1..] == events[1..] + [e];
    }
  }

  /** A breaker that stays closed has every outcome on record: the failures and the successes of the run, in order, after those
   *  it started with. */
  lemma {:induction false} ClosedRunsRecordEverything(c: Config, s: Spec, events: seq<Timed>)
    requires StaysClosed(c, s, events)
    ensures Run(c, s, events) ==
            s.(failures := s.failures + Times(events, Failure), successes := s.successes + Times(events, Success))
    decreases |events|
  {
    assert Run(c, s, events[..0]).state == Closed;
    if events == [] {
      assert s.failures + [] == s.failures && s.successes + [] == s.successes;
    } else {
      var rest, last := events[..|events| - 1], events[|events| - 1];
      assert events == rest + [last] && events[..|events|] == events;
      forall n | 0 <= n <= |rest| ensures Run(c, s, rest[..n]).state == Closed {
        assert rest[..n] == events[..n];
      }
      ClosedRunsRecordEverything(c, s, rest);
      RunOneMore(c, s, rest, last);
      Appended(s.failures, Times(rest, Failure), last.at);
      Appended(s.successes, Times(rest, Success), last.at);
    }
  }

  lemma Appended(a: seq<Time>, b: seq<Time>, t: Time)
    ensures a + b + [t] == a + (b + [t]) && a + (b + []) == a + b
  {
  }

  /** The events of one kind later than `limit`, by their places. */
  function Since(events: seq<Timed>, kind: Event, limit: Time): set<nat> {
    set i: nat | i < |events| && events[i].event == kind && limit < events[i].at
  }

  lemma {:induction false} LaterCounts(events: seq<Timed>, kind: Event, limit: Time)
    ensures |Later(Times(events, kind), limit)| == |Since(events, kind, limit)|
    decreases |events|
  {
    if events == [] {
      assert Since(events, kind, limit) == {};
    } else {
      var n := |events| - 1;
      LaterCounts(events[..n], kind, limit);
      LaterOfAppend(Times(events[..n], kind), events[n].at, limit);
      assert Times(events[..n], kind) + [] == Times(events[..n], kind);
      SinceStep(events, kind, limit);
    }
  }

  lemma SinceStep(events: seq<Timed>, kind: Event, limit: Time)
    requires events != []
    ensures var n := |events| - 1;
            |Since(events, kind, limit)| == |Since(events[..n], kind, limit)| + if events[n].event == kind && limit < events[n].at then 1 else 0
  {
    var n := |events| - 1;
    SameBefore(events, kind, limit);
    var before, all := Since(events[..n], kind, limit), Since(events, kind, limit);
    if events[n].event == kind && limit < events[n].at {
      assert n in all && n !in before;
      assert all == before + {n};
    } else {
      assert n !in all;
      assert all == before;
    }
  }

  lemma SameBefore(events: seq<Timed>, kind: Event, limit: Time)
    requires events != []
    ensures forall i :: i in Since(events, kind, limit) && i < |events| - 1 ==> i in Since(events[..|events| - 1], kind, limit)
    ensures forall i :: i in Since(events[..|events| - 1], kind, limit) ==> i < |events| - 1 && i in Since(events, kind, limit)
    ensures forall i :: i in Since(events, kind, limit) ==> i < |events|
  {
    var rest := events[..|events| - 1];
    forall i | i in Since(events, kind, limit) && i < |events| - 1 ensures i in Since(rest, kind, limit) {
      assert rest[i] == events[i];
    }
    forall i | i in Since(rest, kind, limit) ensures i in Since(events, kind, limit) {
      assert rest[i] == events[i];
    }
  }

  /** Is the window that ends with the last of these events bad: at least `minRequests` outcomes in it, and a share of failures
   *  at or above the threshold? */
  predicate BadWindow(c: Config, events: seq<Timed>)
    requires events != []
  {
    var limit := events[|events| - 1].at - c.windowMs;
    var failures, outcomes := |Since(events, Failure, limit)|, |Since(events, Failure, limit)| + |Since(events, Success, limit)|;
    c.minRequests <= outcomes && 0 < outcomes && RateReached(c, failures, outcomes)
  }

  predicate RateReached(c: Config, failures: nat, outcomes: nat) {
    failures as real >= c.thresholdRate * outcomes as real
  }

  /** Since it was new or last closed, a breaker has stayed closed through `events`. One more event opens it exactly when it is
   *  a failure that makes the window a bad one. */
  lemma {:induction false} OpensExactlyWhen(c: Config, t0: Time, events: seq<Timed>, e: Timed)
    requires StaysClosed(c, Spec(Closed, [], [], t0), events)
    ensures Run(c, Spec(Closed, [], [], t0), events + [e]).state ==
            if e.event == Failure && BadWindow(c, events + [e]) then Open else Closed
  {
    var s := Spec(Closed, [], [], t0);
    ClosedRunsRecordEverything(c, s, events);
    RunOneMore(c, s, events, e);
    assert [] + Times(events, Failure) == Times(events, Failure) && [] + Times(events, Success) == Times(events, Success);
    assert s.(failures := Times(events, Failure), successes := Times(events, Success)).state == Closed;
    LeavingClosedExactlyWhen(c, Run(c, s, events), e.event, e.at);
    if e.event == Failure {
      WindowOfTheEvents(c, Run(c, s, events), events, e);
    }
  }

  lemma WindowOfTheEvents(c: Config, s: Spec, events: seq<Timed>, e: Timed)
    requires s.failures == Times(events, Failure) && s.successes == Times(events, Success) && e.event == Failure
    ensures WindowTrips(c, s, e.at) <==> BadWindow(c, events + [e])
  {
    var all, limit := events + [e], e.at - c.windowMs;
    TimesOfAppend(events, e);
    LaterCounts(all, Failure, limit);
    LaterCounts(all, Success, limit);
    TripsExactlyWhen(c, |Since(all, Failure, limit)|, |Since(all, Success, limit)|);
  }

  lemma TimesOfAppend(events: seq<Timed>, e: Timed)
    requires e.event == Failure
    ensures Times(events + [e], Failure) == Times(events, Failure) + [e.at] && Times(events + [e], Success) == Times(events, Success)
  {
    assert (events + [e])[..|events|] == events;
    assert Times(events, Success) + [] == Times(events, Success);
  }

  /** So a breaker that was closed and no longer is met, while closed, a failure that made the window a bad one, and not before. */
  lemma {:induction false} OpensOnlyOnABadWindow(c: Config, t0: Time, events: seq<Timed>) returns (i: nat)
    requires Run(c, Spec(Closed, [], [], t0), events).state != Closed
    ensures i < |events| && events[i].event == Failure && StaysClosed(c, Spec(Closed, [], [], t0), events[..i])
    ensures BadWindow(c, events[..i + 1]) && Run(c, Spec(Closed, [], [], t0), events[..i + 1]).state == Open
    ensures forall k :: 0 <= k < i && events[k].event == Failure ==> !BadWindow(c, events[..k + 1])
  {
    var s := Spec(Closed, [], [], t0);
    assert events[..|events|] == events;
    i := FirstNotClosed(c, s, events, |events|);
    assert events[..i + 1] == events[..i] + [events[i]];
    OpensExactlyWhen(c, t0, events[..i], events[i]);
    forall k | 0 <= k < i && events[k].event == Failure ensures !BadWindow(c, events[..k + 1]) {
      PrefixStaysClosed(c, s, events[..i], k);
      assert events[..i][..k] == events[..k] && events[..k + 1] == events[..k] + [events[k]] && events[..i][..k + 1] == events[..k + 1];
      OpensExactlyWhen(c, t0, events[..k], events[k]);
    }
  }

  lemma PrefixStaysClosed(c: Config, s: Spec, events: seq<Timed>, n: nat)
    requires StaysClosed(c, s, events) && n <= |events|
    ensures StaysClosed(c, s, events[..n])
  {
    forall m | 0 <= m <= n ensures Run(c, s, events[..n][..m]).state == Closed {
      assert events[..n][..m] == events[..m];
    }
  }

  /** The first event after which a run is not closed. */
  lemma {:induction false} FirstNotClosed(c: Config, s: Spec, events: seq<Timed>, n: nat) returns (i: nat)
    requires s.state == Closed && n <= |events| && Run(c, s, events[..n]).state != Closed
    ensures i < n && StaysClosed(c, s, events[..i]) && Run(c, s, events[..i + 1]).state != Closed
    decreases n
  {
    if k :| 0 <= k < n && Run(c, s, events[..k]).state != Closed {
      i := FirstNotClosed(c, s, events, k);
    } else {
      i := n - 1;
      forall m | 0 <= m <= i ensures Run(c, s, events[..i][..m]).state == Closed {
        assert events[..i][..m] == events[..m];
      }
    }
  }

  /** What a bad window is, without the division. */
  lemma TripsExactlyWhen(c: Config, failures: nat, successes: nat)
    ensures Trips(c, failures, successes) <==>
      c.minRequests <= failures + successes && 0 < failures + successes && RateReached(c, failures, failures + successes)
  {
    if 0 < failures + successes {
      RateAtLeast(failures as real, (failures + successes) as real, c.thresholdRate);
    }
  }

  lemma RateAtLeast(f: real, total: real, rate: real)
    requires 0.0 < total
    ensures f / total >= rate <==> f >= rate * total
  {
    var q := f / total;
    assert f == q * total;
    if q >= rate {
      assert q * total >= rate * total;
    } else {
      assert q * total < rate * total;
    }
  }

  /** A probe decides alone: success closes the breaker with a clean slate, failure reopens it for a full cooldown. */
  lemma {:induction false} ProbeDecides(c: Config, s: Spec, now: Time, events: seq<Timed>)
    requires s.state == HalfOpen
    requires forall i :: 0 <= i < |events| ==> events[i].at < now + c.cooldownMs
    ensures Next(c, s, Success, now) == Spec(Closed, [], [], now)
    ensures Run(c, Next(c, s, Failure, now), events).state == Open
  {
    OpenRefusesUntilCooldown(c, Next(c, s, Failure, now), events);
  }

  // --------------------------------------------------------------------- code

  /** The pruned list answers every question about the present and the future as the full one does. */
  ghost predicate Agree(pruned: seq<Time>, full: seq<Time>, from: Time) {
    forall limit :: from <= limit ==> SameAfter(pruned, full, limit)
  }

  predicate SameAfter(pruned: seq<Time>, full: seq<Time>, limit: Time) {
    Later(pruned, limit) == Later(full, limit)
  }

  lemma PruningAgrees(pruned: seq<Time>, full: seq<Time>, from: Time, limit: Time)
    requires Agree(pruned, full, from) && from <= limit
    ensures Agree(Later(pruned, limit), full, limit)
  {
    forall l | limit <= l ensures SameAfter(Later(pruned, limit), full, l) {
      assert SameAfter(pruned, full, l);
      LaterOfLater(pruned, limit, l);
    }
  }

  lemma PushingAgrees(pruned: seq<Time>, full: seq<Time>, from: Time, t: Time)
    requires Agree(pruned, full, from)
    ensures Agree(pruned + [t], full + [t], from)
  {
    forall l | from <= l ensures SameAfter(pruned + [t], full + [t], l) {
      assert SameAfter(pruned, full, l);
      LaterOfAppend(pruned, t, l);
      LaterOfAppend(full, t, l);
    }
  }

  lemma PrunedIsCurrent(before: seq<Time>, pruned: seq<Time>, full: seq<Time>, limit: Time)
    requires pruned == Later(before, limit) && Agree(pruned, full, limit)
    ensures pruned == Later(full, limit)
  {
    LaterOfLater(before, limit, limit);
    assert SameAfter(pruned, full, limit);
  }

  class SimpleCircuitBreaker {
    const config: Config
    var state: State
    var failures: seq<Time>
    var successes: seq<Time>
    var lastStateChange: Time
    /** The unpruned history this breaker stands for, and the latest time it has seen. */
    ghost var full: Spec
    ghost var clock: Time

    ghost predicate Valid()
      reads this
    {
      && state == full.state && lastStateChange == full.changedAt
      && Agree(failures, full.failures, clock - config.windowMs)
      && Agree(successes, full.successes, clock - config.windowMs)
    }

    constructor (config: Config, now: Time)
      ensures Valid() && full == Spec(Closed, [], [], now) && clock == now && this.config == config
    {
      this.config := config;
      state, failures, successes, lastStateChange := Closed, [], [], now;
      full, clock := Spec(Closed, [], [], now), now;
    }

    method CleanOldMetrics(now: Time)
      requires Valid() && clock <= now
      modifies this`failures, this`successes, this`clock
      ensures Valid() && clock == now
      ensures failures == Later(old(failures), now - config.windowMs) && successes == Later(old(successes), now - config.windowMs)
    {
      PruningAgrees(failures, full.failures, clock - config.windowMs, now - config.windowMs);
      PruningAgrees(successes, full.successes, clock - config.windowMs, now - config.windowMs);
      failures := Later(failures, now - config.windowMs);
      successes := Later(successes, now - config.windowMs);
      clock := now;
    }

    /** Every method takes the time of the call; the clock never runs backwards. */
    method CheckCall(now: Time) returns (allowed: bool)
      requires Valid() && clock <= now
      modifies this
      ensures Valid() && clock == now
      ensures full == Next(config, old(full), Check, now)
      ensures allowed == Allows(config, old(full), now)
    {
      CleanOldMetrics(now);
      if state == Open {
        if now - lastStateChange >= config.cooldownMs {
          TransitionTo(HalfOpen, now);
          return true;
        }
        return false;
      }
      return true;
    }

    method RecordSuccess(now: Time)
      requires Valid() && clock <= now
      modifies this
      ensures Valid() && clock == now
      ensures full == Next(config, old(full), Success, now)
    {
      clock := now;
      if state == HalfOpen {
        TransitionTo(Closed, now);
        failures, successes := [], [];
        full := full.(failures := [], successes := []);
      } else if state == Closed {
        PushingAgrees(successes, full.successes, clock - config.windowMs, now);
        successes := successes + [now];
        full := full.(successes := full.successes + [now]);
      }
    }

    method RecordFailure(now: Time)
      requires Valid() && clock <= now
      modifies this
      ensures Valid() && clock == now
      ensures full == Next(config, old(full), Failure, now)
    {
      clock := now;
      if state == HalfOpen || state == Closed {
        PushingAgrees(failures, full.failures, clock - config.windowMs, now);
        failures := failures + [now];
        full := full.(failures := full.failures + [now]);
        CheckFailureRate(now);
      }
    }

    method TransitionTo(newState: State, now: Time)
      requires Valid()
      modifies this`state, this`lastStateChange, this`full
      ensures Valid() && full == old(full).(state := newState, changedAt := now) && state == newState
    {
      state, lastStateChange := newState, now;
      full := full.(state := newState, changedAt := now);
    }

    method CheckFailureRate(now: Time)
      requires Valid() && clock <= now
      modifies this
      ensures Valid() && clock == now
      ensures full ==
        if old(full).state == HalfOpen
           || (old(full).state == Closed
               && Trips(config, |Later(old(full).failures, now - config.windowMs)|, |Later(old(full).successes, now - config.windowMs)|))
        then old(full).(state := Open, changedAt := now) else old(full)
    {
      CleanOldMetrics(now);
      PrunedIsCurrent(old(failures), failures, full.failures, now - config.windowMs);
      PrunedIsCurrent(old(successes), successes, full.successes, now - config.windowMs);
      var total := |failures| + |successes|;
      if state == HalfOpen {
        TransitionTo(Open, now);
      } else if state == Closed && total >= config.minRequests {
        // With no outcome in the window the rate is not a number, and nothing happens.
        if 0 < total && |failures| as real / total as real >= config.thresholdRate {
          TransitionTo(Open, now);
        }
      }
    }
  }
}
