/** The outbox table: leased, token-fenced claims over rows of pending events. */
module Outbox {
  import opened Prelude

  datatype Channel = Internal | External

  /** What a person gets to see of an event, if anything. */
  datatype Activity = Activity(channel: Channel, recipients: seq<Uuid>, excluded: set<Uuid>)

  datatype Event = Event(id: Uuid, projectId: Uuid, actorSub: Uuid, activity: Option<Activity>)

  datatype Status = Pending | Processing | Published | Failed

  datatype Row = Row(
    payload: Event,
    status: Status,
    attempts: nat,
    availableAt: Time,
    claimToken: Option<Uuid>,
    claimedAt: Option<Time>,
    publishedAt: Option<Time>,
    lastError: Option<string>,
    createdAt: Time)

  type Table = map<Uuid, Row>

  const MAX_ERROR_LENGTH := 1000
  const BACKOFF_STEP_MS := 5_000
  const MAX_BACKOFF_MS := 300_000
  /** From this exponent on, POWER(2, attempts) overflows a double and the statement is aborted. */
  const POWER_OVERFLOW := 1024
  const DAY_MS := 86_400_000

  function NewRow(payload: Event, now: Time): Row {
    Row(payload, Pending, 0, now, None, None, None, None, now)
  }

  function CompactError(error: string): string {
    if |error| <= MAX_ERROR_LENGTH then error else error[..MAX_ERROR_LENGTH]
  }

  function Pow2(n: nat): nat {
    if n == 0 then 1 else 2 * Pow2(n - 1)
  }

  function BackoffMs(attempts: nat): int {
    if Pow2(attempts) * BACKOFF_STEP_MS < MAX_BACKOFF_MS then Pow2(attempts) * BACKOFF_STEP_MS else MAX_BACKOFF_MS
  }

  lemma {:induction false} Pow2Monotone(a: nat, b: nat)
    requires a <= b
    ensures 1 <= Pow2(a) <= Pow2(b)
    decreases b
  {
    if a < b {
      Pow2Monotone(a, b - 1);
    } else if 0 < a {
      Pow2Monotone(a - 1, a - 1);
    }
  }

  /** The delay never shrinks, starts at five seconds, doubles with every retry and is five minutes from the sixth on. */
  lemma {:induction false} BackoffGrowsToItsCap(a: nat, b: nat)
    requires a <= b
    ensures BACKOFF_STEP_MS <= BackoffMs(a) <= BackoffMs(b) <= MAX_BACKOFF_MS
    ensures BackoffMs(a) == MAX_BACKOFF_MS <==> 6 <= a
    ensures BackoffMs(0) == 5_000 && BackoffMs(a + 1) == if BackoffMs(a) < 150_000 then 2 * BackoffMs(a) else 300_000
  {
    Pow2Monotone(a, b);
    assert Pow2(5) == 32 && Pow2(6) == 64 by {
      assert Pow2(3) == 8;
    }
    if 6 <= a {
      Pow2Monotone(6, a);
    } else {
      Pow2Monotone(a, 5);
    }
  }

  predicate Claimable(row: Row, now: Time, timeoutMs: int) {
    || (row.status in {Pending, Failed} && row.availableAt <= now)
    || (row.status == Processing && row.claimedAt.Some? && row.claimedAt.value <= now - timeoutMs)
  }

  /** Does `row` still belong to the worker cycle with this token? */
  predicate Holds(row: Row, token: Uuid) {
    row.status == Processing && row.claimToken == Some(token)
  }

  predicate Prunable(row: Row, cutoff: Time) {
    row.status == Published && row.publishedAt.Some? && row.publishedAt.value <= cutoff
  }

  function ClaimedRow(row: Row, token: Uuid, now: Time): Row {
    row.(status := Processing, claimToken := Some(token), claimedAt := Some(now))
  }

  function PublishedRow(row: Row, now: Time): Row {
    row.(status := Published, publishedAt := Some(now), lastError := None, claimToken := None, claimedAt := None)
  }

  function FailedRow(row: Row, now: Time, error: string): Row {
    row.(status := Failed, attempts := row.attempts + 1, availableAt := now + BackoffMs(row.attempts),
         lastError := Some(CompactError(error)), claimToken := None, claimedAt := None)
  }

  function ClaimRows(t: Table, ids: set<Uuid>, token: Uuid, now: Time): Table {
    map id | id in t :: if id in ids then ClaimedRow(t[id], token, now) else t[id]
  }

  function PublishRows(t: Table, ids: set<Uuid>, token: Uuid, now: Time): Table {
    map id | id in t :: if id in ids && Holds(t[id], token) then PublishedRow(t[id], now) else t[id]
  }

  function FailRow(t: Table, id: Uuid, token: Uuid, now: Time, error: string): Table {
    if id in t && Holds(t[id], token) && t[id].attempts < POWER_OVERFLOW
    then t[id := FailedRow(t[id], now, error)] else t
  }

  function ClaimableIds(t: Table, locked: set<Uuid>, now: Time, timeoutMs: int): set<Uuid> {
    set id | id in t && id !in locked && Claimable(t[id], now, timeoutMs)
  }

  /** `batch` is what the claim may return: the oldest claimable rows nobody has locked, in order, up to the limit. */
  predicate IsOldestBatch(t: Table, candidates: set<Uuid>, limit: nat, batch: seq<Uuid>)
    requires candidates <= t.Keys
  {
    && Distinct(batch)
    && |batch| <= limit
    && (forall i :: 0 <= i < |batch| ==> batch[i] in candidates)
    && (forall i, j :: 0 <= i < j < |batch| ==> t[batch[i]].createdAt <= t[batch[j]].createdAt)
    && (forall id :: id in candidates && id !in batch ==>
          |batch| == limit && forall i :: 0 <= i < |batch| ==> t[batch[i]].createdAt <= t[id].createdAt)
  }

  /** What counts as pending: rows that are due and rows in the hands of a worker. */
  function Waiting(t: Table, now: Time): set<Uuid> {
    set id | id in t && IsWaiting(t[id], now)
  }

  predicate IsWaiting(row: Row, now: Time) {
    (row.status in {Pending, Failed} && row.availableAt <= now) || row.status == Processing
  }

  /** Whatever a worker could claim counts as pending; what counts and cannot be claimed is locked or still leased. When
   *  nothing counts, every row is published or waits for its retry. */
  lemma PendingCoversClaimable(t: Table, locked: set<Uuid>, now: Time, timeoutMs: int)
    ensures ClaimableIds(t, locked, now, timeoutMs) <= Waiting(t, now)
    ensures |ClaimableIds(t, locked, now, timeoutMs)| <= |Waiting(t, now)|
    ensures forall id :: id in Waiting(t, now) - ClaimableIds(t, locked, now, timeoutMs) ==> id in locked || t[id].status == Processing
    ensures |Waiting(t, now)| == 0 <==> forall id :: id in t ==> t[id].status == Published || (t[id].status != Processing && now < t[id].availableAt)
  {
    var claimable, waiting := ClaimableIds(t, locked, now, timeoutMs), Waiting(t, now);
    assert claimable <= waiting;
    assert waiting == claimable + (waiting - claimable);
    assert |waiting| == 0 <==> waiting == {};
    assert waiting == {} <==> forall id :: id in t ==> id !in waiting;
  }

  lemma RemovalShrinks(t: Table, ids: set<Uuid>)
    requires ids <= t.Keys
    ensures |t - ids| == |t| - |ids|
  {
    assert t.Keys == (t - ids).Keys + ids;
    assert |t.Keys| == |(t - ids).Keys| + |ids|;
  }

  class OutboxTable {
    var rows: Table

    constructor ()
      ensures rows == map[]
    {
      rows := map[];
    }

    /** The new row can be claimed from `now` on, and the claims of all other rows are what they were. */
    method CreateEvent(id: Uuid, payload: Event, now: Time)
      requires id !in rows
      modifies this
      ensures rows == old(rows)[id := NewRow(payload, now)]
      ensures forall locked: set<Uuid>, at: Time, timeoutMs: int ::
        ClaimableIds(rows, locked, at, timeoutMs) ==
        ClaimableIds(old(rows), locked, at, timeoutMs) + if now <= at && id !in locked then {id} else {}
    {
      rows := rows[id := NewRow(payload, now)];
    }

    /** The oldest of a non-empty set of rows. */
    method Oldest(candidates: set<Uuid>) returns (oldest: Uuid)
      requires candidates != {} && candidates <= rows.Keys
      ensures oldest in candidates
      ensures forall id :: id in candidates ==> rows[oldest].createdAt <= rows[id].createdAt
    {
      oldest :| oldest in candidates;
      var rest := candidates - {oldest};
      while rest != {}
        invariant rest <= candidates && oldest in candidates
        invariant forall id :: id in candidates - rest ==> rows[oldest].createdAt <= rows[id].createdAt
      {
        var id :| id in rest;
        if rows[id].createdAt < rows[oldest].createdAt {
          oldest := id;
        }
        rest := rest - {id};
      }
    }

    /** `locked` are the rows other transactions hold; the claim skips them. */
    method ClaimPending(limit: nat, token: Uuid, now: Time, timeoutMs: int, locked: set<Uuid>)
      returns (batch: seq<Uuid>)
      modifies this
      ensures IsOldestBatch(old(rows), ClaimableIds(old(rows), locked, now, timeoutMs), limit, batch)
      ensures forall i, j :: 0 <= i < j < |batch| ==> old(rows)[batch[i]].createdAt <= old(rows)[batch[j]].createdAt
      ensures rows == ClaimRows(old(rows), SeqSet(batch), token, now)
    {
      batch := [];
      var candidates := ClaimableIds(rows, locked, now, timeoutMs);
      var rest := candidates;
      while |batch| < limit && rest != {}
        invariant rows == old(rows)
        invariant candidates == SeqSet(batch) + rest && SeqSet(batch) !! rest
        invariant forall i :: 0 <= i < |batch| ==> batch[i] in candidates
        invariant Distinct(batch) && |batch| <= limit
        invariant forall i, j :: 0 <= i < j < |batch| ==> rows[batch[i]].createdAt <= rows[batch[j]].createdAt
        invariant forall i, id :: 0 <= i < |batch| && id in rest ==> rows[batch[i]].createdAt <= rows[id].createdAt
        decreases rest
      {
        var id := Oldest(rest);
        assert id !in batch;
        batch := batch + [id];
        rest := rest - {id};
      }
      rows := ClaimRows(rows, SeqSet(batch), token, now);
    }

    method CountPending(now: Time) returns (count: nat)
      ensures count == |Waiting(rows, now)|
    {
      count := 0;
      var rest := rows.Keys;
      while rest != {}
        invariant rest <= rows.Keys && count == |Waiting(rows, now) - rest|
      {
        var id :| id in rest;
        if IsWaiting(rows[id], now) {
          assert Waiting(rows, now) - (rest - {id}) == (Waiting(rows, now) - rest) + {id};
          count := count + 1;
        } else {
          assert Waiting(rows, now) - (rest - {id}) == Waiting(rows, now) - rest;
        }
        rest := rest - {id};
      }
      assert Waiting(rows, now) - rest == Waiting(rows, now);
    }

    method MarkPublished(ids: seq<Uuid>, token: Uuid, now: Time) returns (changed: set<Uuid>)
      modifies this
      ensures rows == PublishRows(old(rows), SeqSet(ids), token, now)
      ensures changed == set id | id in old(rows) && id in ids && Holds(old(rows)[id], token)
      ensures forall id :: id in changed ==>
        rows[id] == old(rows)[id].(status := Published, publishedAt := Some(now), lastError := None, claimToken := None, claimedAt := None)
    {
      changed := {};
      if ids == [] {
        return;
      }
      changed := set id | id in rows && id in ids && Holds(rows[id], token);
      rows := PublishRows(rows, SeqSet(ids), token, now);
    }

    /** Fails with an error when the backoff expression overflows; the row then keeps its lease until it expires. */
    method MarkFailed(id: Uuid, token: Uuid, now: Time, error: string) returns (r: Result<bool, ()>)
      modifies this
      ensures rows == FailRow(old(rows), id, token, now, error)
      ensures r.Err? <==> id in old(rows) && Holds(old(rows)[id], token) && POWER_OVERFLOW <= old(rows)[id].attempts
      ensures r.Ok? ==> r.value == (id in old(rows) && Holds(old(rows)[id], token))
      ensures r == Ok(true) ==>
        && rows[id].status == Failed && rows[id].attempts == old(rows)[id].attempts + 1 && rows[id].publishedAt == old(rows)[id].publishedAt
        && rows[id].lastError == Some(if |error| <= 1000 then error else error[..1000])
        && rows[id].payload == old(rows)[id].payload && rows[id].createdAt == old(rows)[id].createdAt
    {
      if id !in rows || !Holds(rows[id], token) {
        return Ok(false);
      }
      if POWER_OVERFLOW <= rows[id].attempts {
        return Err(());
      }
      rows := rows[id := FailedRow(rows[id], now, error)];
      return Ok(true);
    }

    /** Deletes expired published rows batch by batch, until a batch is not full; `locks` are the rows other transactions hold
     *  during each batch. */
    method PrunePublished(now: Time, retentionDays: nat, batchSize: nat, locks: nat -> set<Uuid>) returns (removed: nat, batches: nat)
      requires 0 < batchSize
      modifies this
      ensures rows.Keys <= old(rows).Keys
      ensures forall id :: id in rows ==> rows[id] == old(rows)[id]
      ensures forall id :: id in old(rows) && id !in rows ==>
        var row := old(rows)[id]; row.status == Published && row.publishedAt.Some? && row.publishedAt.value + retentionDays * 86_400_000 <= now
      ensures removed == |old(rows)| - |rows|
      ensures 0 < batches
      ensures forall id :: id in rows && id !in locks(batches - 1) && rows[id].status == Published && rows[id].publishedAt.Some? ==>
        now < rows[id].publishedAt.value + retentionDays * 86_400_000
    {
      var cutoff := now - retentionDays * DAY_MS;
      removed, batches := 0, 0;
      while true
        invariant rows.Keys <= old(rows).Keys
        invariant forall id :: id in rows ==> rows[id] == old(rows)[id]
        invariant forall id :: id in old(rows) && id !in rows ==> Prunable(old(rows)[id], cutoff)
        invariant removed == |old(rows)| - |rows|
        decreases |rows|
      {
        var locked := locks(batches);
        batches := batches + 1;
        var candidates := set id | id in rows && id !in locked && Prunable(rows[id], cutoff);
        var batch := Take(candidates, batchSize);
        ghost var before := rows;
        rows := rows - batch;
        RemovalShrinks(before, batch);
        removed := removed + |batch|;
        if |batch| < batchSize {
          break;
        }
      }
    }

    /** Up to `n` elements of `s`; all of them when there are fewer than `n`. */
    static method Take(s: set<Uuid>, n: nat) returns (part: set<Uuid>)
      ensures part <= s && |part| <= n
      ensures |part| < n ==> part == s
    {
      part := {};
      var rest := s;
      while |part| < n && rest != {}
        invariant part + rest == s && part !! rest && |part| <= n
        decreases rest
      {
        var x :| x in rest;
        part, rest := part + {x}, rest - {x};
      }
    }
  }
}
