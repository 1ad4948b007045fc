/** Every interleaving of any number of outbox workers: committing, claiming, appending to the stream, confirming, pruning.
 *
 *  A worker run is one `Cycle`; its position in `cycles` stands for the random claim token. A worker that crashes is a
 *  cycle that takes no further step, so crashes need no step of their own. */
module OutboxRuns {
  import opened Prelude
  import opened Outbox

  /** A stream entry, remembering the pipeline command that wrote it. */
  datatype Entry =
    | Copy(cycle: nat, slot: nat, row: Uuid, payload: Event)
    | Foreign(kind: Kind)

  /** `executed` commands of the pipeline have reached Redis; `reports[i]` is whether the worker saw command i succeed. */
  datatype Cycle = Cycle(batch: seq<Uuid>, executed: nat, reports: seq<bool>, returned: bool)

  datatype State = State(rows: Table, committed: map<Uuid, Event>, cycles: seq<Cycle>, log: seq<Entry>)

  datatype Step =
    | Commit(id: Uuid, payload: Event, now: Time)
    | Claim(batch: seq<Uuid>, locked: set<Uuid>, limit: nat, now: Time, timeoutMs: int)
    | Append(t: nat, appended: bool, replied: bool)
    | AppendForeign(kind: Kind)
    | Return(t: nat, threw: bool)
    | MarkPublished(t: nat, now: Time)
    | MarkFailed(t: nat, i: nat, now: Time, error: string)
    | Prune(ids: set<Uuid>, cutoff: Time)

  const INIT := State(map[], map[], [], [])

  function Reported(c: Cycle): set<Uuid>
    requires |c.reports| == |c.batch|
  {
    set i | 0 <= i < |c.batch| && c.reports[i] :: c.batch[i]
  }

  predicate Enabled(s: State, step: Step) {
    match step
    case Commit(id, payload, _) =>
      id !in s.committed && id !in s.rows && forall r :: r in s.committed ==> s.committed[r].id != payload.id
    case Claim(batch, locked, limit, now, timeoutMs) =>
      IsOldestBatch(s.rows, ClaimableIds(s.rows, locked, now, timeoutMs), limit, batch)
    case Append(t, _, _) =>
      t < |s.cycles| && s.cycles[t].executed < |s.cycles[t].batch|
      && |s.cycles[t].reports| == |s.cycles[t].batch| && s.cycles[t].batch[s.cycles[t].executed] in s.committed
    case AppendForeign(kind) => kind != EventMsg
    case Return(t, _) => t < |s.cycles| && !s.cycles[t].returned
    case MarkPublished(t, _) =>
      t < |s.cycles| && s.cycles[t].returned && |s.cycles[t].reports| == |s.cycles[t].batch|
    case MarkFailed(t, i, _, _) =>
      t < |s.cycles| && s.cycles[t].returned
      && i < |s.cycles[t].batch| == |s.cycles[t].reports| && !s.cycles[t].reports[i]
    case Prune(ids, cutoff) => forall r :: r in ids ==> r in s.rows && Prunable(s.rows[r], cutoff)
  }

  function Next(s: State, step: Step): State
    requires Enabled(s, step)
  {
    match step
    case Commit(id, payload, now) =>
      s.(rows := s.rows[id := NewRow(payload, now)], committed := s.committed[id := payload])
    case Claim(batch, _, _, now, _) =>
      s.(rows := ClaimRows(s.rows, SeqSet(batch), |s.cycles|, now),
         cycles := s.cycles + [Cycle(batch, 0, seq(|batch|, _ => false), false)])
    case Append(t, appended, replied) =>
      // The reply is lost when the connection fails or exec() has already thrown.
      var c := s.cycles[t];
      var reports := if appended && replied && !c.returned then c.reports[c.executed := true] else c.reports;
      var r := c.batch[c.executed];
      s.(cycles := s.cycles[t := c.(executed := c.executed + 1, reports := reports)],
         log := if appended then s.log + [Copy(t, c.executed, r, s.committed[r])] else s.log)
    case AppendForeign(kind) => s.(log := s.log + [Foreign(kind)])
    case Return(t, threw) =>
      var c := s.cycles[t];
      var reports := if threw then seq(|c.batch|, _ => false) else c.reports;
      s.(cycles := s.cycles[t := c.(returned := true, reports := reports)])
    case MarkPublished(t, now) => s.(rows := PublishRows(s.rows, Reported(s.cycles[t]), t, now))
    case MarkFailed(t, i, now, error) => s.(rows := FailRow(s.rows, s.cycles[t].batch[i], t, now, error))
    case Prune(ids, _) => s.(rows := s.rows - ids)
  }

  ghost predicate Reaches(s: State, steps: seq<Step>, s': State)
    decreases |steps|
  {
    if steps == [] then s == s'
    else Enabled(s, steps[0]) && Reaches(Next(s, steps[0]), steps[1..], s')
  }

  // ---------------------------------------------------------------- invariant

  predicate IsCopyOf(e: Entry, r: Uuid) {
    e.Copy? && e.row == r
  }

  ghost predicate HasCopy(log: seq<Entry>, r: Uuid) {
    exists k :: 0 <= k < |log| && IsCopyOf(log[k], r)
  }

  ghost predicate SlotWritten(log: seq<Entry>, t: nat, i: nat) {
    exists k :: 0 <= k < |log| && log[k].Copy? && log[k].cycle == t && log[k].slot == i
  }

  /** A row is `processing` exactly when token and claim time are set, and it carries the payload that was committed. */
  ghost predicate RowsOk(s: State) {
    forall r :: r in s.rows ==>
      && r in s.committed && s.rows[r].payload == s.committed[r]
      && (s.rows[r].status == Processing <==> s.rows[r].claimToken.Some?)
      && (s.rows[r].status == Processing <==> s.rows[r].claimedAt.Some?)
  }

  /** Only the latest cycle that claimed a row can hold its lease. */
  ghost predicate LatestHolds(s: State) {
    forall r :: r in s.rows && s.rows[r].claimToken.Some? ==>
      var t := s.rows[r].claimToken.value;
      t < |s.cycles| && r in s.cycles[t].batch && !ClaimedAfter(s, r, t)
  }

  ghost predicate ClaimedAfter(s: State, r: Uuid, t: nat) {
    exists u :: t < u < |s.cycles| && r in s.cycles[u].batch
  }

  ghost predicate CycleOk(s: State, t: nat)
    requires t < |s.cycles|
  {
    var c := s.cycles[t];
    && Distinct(c.batch) && c.executed <= |c.batch| && |c.reports| == |c.batch|
    && (forall i :: 0 <= i < |c.batch| ==> c.batch[i] in s.committed)
    && (forall i :: 0 <= i < |c.batch| && c.reports[i] ==> i < c.executed && SlotWritten(s.log, t, i))
  }

  ghost predicate CyclesOk(s: State) {
    forall t :: 0 <= t < |s.cycles| ==> CycleOk(s, t)
  }

  /** Every copy was written by a pipeline command of its own. */
  ghost predicate LogOk(s: State) {
    && (forall k :: 0 <= k < |s.log| && s.log[k].Copy? ==>
          && s.log[k].cycle < |s.cycles| && s.log[k].slot < s.cycles[s.log[k].cycle].executed <= |s.cycles[s.log[k].cycle].batch|
          && s.cycles[s.log[k].cycle].batch[s.log[k].slot] == s.log[k].row
          && s.log[k].row in s.committed && s.log[k].payload == s.committed[s.log[k].row])
    && (forall k, l :: 0 <= k < l < |s.log| && s.log[k].Copy? && s.log[l].Copy? ==>
          s.log[k].cycle != s.log[l].cycle || s.log[k].slot != s.log[l].slot)
    && (forall k :: 0 <= k < |s.log| && s.log[k].Foreign? ==> s.log[k].kind != EventMsg)
  }

  /** A row leaves the unpublished state, and the table, only after its payload reached the stream. */
  ghost predicate PublishedOk(s: State) {
    forall r :: r in s.committed ==> (r in s.rows && s.rows[r].status != Published) || HasCopy(s.log, r)
  }

  ghost predicate DistinctEvents(s: State) {
    forall r, q :: r in s.committed && q in s.committed && r != q ==> s.committed[r].id != s.committed[q].id
  }

  ghost predicate Inv(s: State) {
    RowsOk(s) && LatestHolds(s) && CyclesOk(s) && LogOk(s) && PublishedOk(s) && DistinctEvents(s)
  }

  // ------------------------------------------------------------- preservation

  lemma LogGrows(s: State, s': State)
    requires CyclesOk(s) && s.cycles == s'.cycles && s.log <= s'.log
    requires forall r :: r in s.committed ==> r in s'.committed
    ensures CyclesOk(s')
    ensures forall r :: HasCopy(s.log, r) ==> HasCopy(s'.log, r)
  {
    CopiesStay(s.log, s'.log);
    forall t | 0 <= t < |s'.cycles| ensures CycleOk(s', t) {
      assert CycleOk(s, t);
      SlotsStay(s.log, s'.log, t);
    }
  }

  lemma SlotsStay(log: seq<Entry>, log': seq<Entry>, t: nat)
    requires log <= log'
    ensures forall i: nat :: SlotWritten(log, t, i) ==> SlotWritten(log', t, i)
  {
    forall i: nat | SlotWritten(log, t, i) ensures SlotWritten(log', t, i) {
      var k :| 0 <= k < |log| && log[k].Copy? && log[k].cycle == t && log[k].slot == i;
      assert log'[k] == log[k];
    }
  }

  lemma ClaimKeepsLeases(s: State, step: Step)
    requires LatestHolds(s) && step.Claim? && Enabled(s, step)
    ensures LatestHolds(Next(s, step))
  {
    var s' := Next(s, step);
    var n := |s.cycles|;
    forall r | r in s'.rows && s'.rows[r].claimToken.Some?
      ensures var t := s'.rows[r].claimToken.value;
              t < |s'.cycles| && r in s'.cycles[t].batch && !ClaimedAfter(s', r, t)
    {
      if r !in step.batch {
        var t := s.rows[r].claimToken.value;
        assert !ClaimedAfter(s, r, t);
        forall u | t < u < |s'.cycles| ensures r !in s'.cycles[u].batch {
          if u < n { assert s'.cycles[u] == s.cycles[u]; }
        }
      }
    }
  }

  lemma ClaimKeepsCycles(s: State, step: Step)
    requires RowsOk(s) && CyclesOk(s) && LogOk(s) && step.Claim? && Enabled(s, step)
    ensures CyclesOk(Next(s, step)) && LogOk(Next(s, step))
  {
    var s' := Next(s, step);
    forall t | 0 <= t < |s'.cycles| ensures CycleOk(s', t) {
      if t < |s.cycles| { assert CycleOk(s, t); }
    }
    assert forall t :: 0 <= t < |s.cycles| ==> s'.cycles[t] == s.cycles[t];
  }

  lemma ClaimKeeps(s: State, step: Step)
    requires Inv(s) && step.Claim? && Enabled(s, step)
    ensures Inv(Next(s, step))
  {
    var s' := Next(s, step);
    ClaimKeepsLeases(s, step);
    ClaimKeepsCycles(s, step);
    assert PublishedOk(s') by {
      forall r | r in s'.committed
        ensures (r in s'.rows && s'.rows[r].status != Published) || HasCopy(s'.log, r)
      {
        assert (r in s.rows && s.rows[r].status != Published) || HasCopy(s.log, r);
      }
    }
  }

  lemma AppendKeeps(s: State, step: Step)
    requires Inv(s) && step.Append? && Enabled(s, step)
    ensures Inv(Next(s, step))
  {
    AppendKeepsCycles(s, step);
    AppendKeepsLog(s, step);
    CopiesStay(s.log, Next(s, step).log);
    BatchesSame(s, Next(s, step));
    assert PublishedOk(s);
  }

  lemma AppendKeepsCycles(s: State, step: Step)
    requires CyclesOk(s) && step.Append? && Enabled(s, step)
    ensures CyclesOk(Next(s, step))
  {
    var s' := Next(s, step);
    var c := s.cycles[step.t];
    assert CycleOk(s, step.t);
    forall t | 0 <= t < |s'.cycles| ensures CycleOk(s', t) {
      assert CycleOk(s, t);
      SlotsStay(s.log, s'.log, t);
      if t == step.t && step.appended {
        assert s'.log[|s.log|] == Copy(t, c.executed, c.batch[c.executed], s.committed[c.batch[c.executed]]);
        assert SlotWritten(s'.log, t, c.executed);
      }
    }
  }

  lemma AppendKeepsLog(s: State, step: Step)
    requires CyclesOk(s) && LogOk(s) && step.Append? && Enabled(s, step)
    ensures LogOk(Next(s, step))
  {
    assert CycleOk(s, step.t);
    var s' := Next(s, step);
    assert forall t :: 0 <= t < |s.cycles| ==> s'.cycles[t].batch == s.cycles[t].batch && s.cycles[t].executed <= s'.cycles[t].executed;
    assert forall k :: 0 <= k < |s.log| ==> s'.log[k] == s.log[k];
  }

  lemma CopiesStay(log: seq<Entry>, log': seq<Entry>)
    requires log <= log'
    ensures forall r :: HasCopy(log, r) ==> HasCopy(log', r)
  {
    forall r | HasCopy(log, r) ensures HasCopy(log', r) {
      var k :| 0 <= k < |log| && IsCopyOf(log[k], r);
      assert log'[k] == log[k];
    }
  }

  lemma BatchesSame(s: State, s': State)
    requires LatestHolds(s) && s.rows == s'.rows && |s.cycles| == |s'.cycles|
    requires forall t :: 0 <= t < |s.cycles| ==> s.cycles[t].batch == s'.cycles[t].batch
    ensures LatestHolds(s')
  {
    forall r | r in s'.rows && s'.rows[r].claimToken.Some?
      ensures !ClaimedAfter(s', r, s'.rows[r].claimToken.value)
    {
      assert !ClaimedAfter(s, r, s.rows[r].claimToken.value);
    }
  }

  lemma ReturnKeeps(s: State, step: Step)
    requires Inv(s) && step.Return? && Enabled(s, step)
    ensures Inv(Next(s, step))
  {
    var s' := Next(s, step);
    forall t | 0 <= t < |s'.cycles| ensures CycleOk(s', t) {
      assert CycleOk(s, t);
    }
    BatchesSame(s, s');
  }

  /** Leases that survive are untouched ones. */
  lemma FewerLeases(s: State, s': State)
    requires LatestHolds(s) && s.cycles == s'.cycles
    requires forall r :: r in s'.rows && s'.rows[r].claimToken.Some? ==>
                           r in s.rows && s.rows[r].claimToken == s'.rows[r].claimToken
    ensures LatestHolds(s')
  {
    forall r | r in s'.rows && s'.rows[r].claimToken.Some?
      ensures !ClaimedAfter(s', r, s'.rows[r].claimToken.value)
    {
      assert !ClaimedAfter(s, r, s.rows[r].claimToken.value);
    }
  }

  lemma MarkKeeps(s: State, step: Step)
    requires Inv(s) && (step.MarkPublished? || step.MarkFailed? || step.Prune?) && Enabled(s, step)
    ensures Inv(Next(s, step))
  {
    var s' := Next(s, step);
    MarkKeepsRows(s, step);
    FewerLeases(s, s');
    LogGrows(s, s');
    MarkKeepsPublished(s, step);
  }

  lemma MarkKeepsRows(s: State, step: Step)
    requires RowsOk(s) && (step.MarkPublished? || step.MarkFailed? || step.Prune?) && Enabled(s, step)
    ensures RowsOk(Next(s, step))
    ensures forall r :: r in Next(s, step).rows ==>
              r in s.rows && (Next(s, step).rows[r] == s.rows[r] || Next(s, step).rows[r].claimToken.None?)
  {
  }

  lemma MarkKeepsPublished(s: State, step: Step)
    requires CyclesOk(s) && LogOk(s) && PublishedOk(s)
    requires (step.MarkPublished? || step.MarkFailed? || step.Prune?) && Enabled(s, step)
    ensures PublishedOk(Next(s, step))
  {
    var s' := Next(s, step);
    forall r | r in s'.committed
      ensures (r in s'.rows && s'.rows[r].status != Published) || HasCopy(s'.log, r)
    {
      if step.MarkPublished? && r in Reported(s.cycles[step.t]) {
        ReportedIsCopied(s, step.t, r);
      }
    }
  }

  lemma ReportedIsCopied(s: State, t: nat, r: Uuid)
    requires t < |s.cycles| && CycleOk(s, t) && LogOk(s) && r in Reported(s.cycles[t])
    ensures HasCopy(s.log, r)
  {
    var c := s.cycles[t];
    var i :| 0 <= i < |c.batch| && c.reports[i] && c.batch[i] == r;
    var k :| 0 <= k < |s.log| && s.log[k].Copy? && s.log[k].cycle == t && s.log[k].slot == i;
    assert IsCopyOf(s.log[k], r);
  }

  lemma CommitKeepsLog(s: State, step: Step)
    requires LogOk(s) && step.Commit? && Enabled(s, step)
    ensures LogOk(Next(s, step))
  {
    var s' := Next(s, step);
    assert forall r :: r in s.committed ==> r in s'.committed && s'.committed[r] == s.committed[r];
  }

  lemma CommitKeepsRows(s: State, step: Step)
    requires RowsOk(s) && PublishedOk(s) && DistinctEvents(s) && step.Commit? && Enabled(s, step)
    ensures RowsOk(Next(s, step)) && PublishedOk(Next(s, step)) && DistinctEvents(Next(s, step))
  {
    var s' := Next(s, step);
    forall r | r in s'.committed
      ensures (r in s'.rows && s'.rows[r].status != Published) || HasCopy(s'.log, r)
    {
      if r != step.id {
        assert (r in s.rows && s.rows[r].status != Published) || HasCopy(s.log, r);
      }
    }
  }

  lemma CommitKeeps(s: State, step: Step)
    requires Inv(s) && step.Commit? && Enabled(s, step)
    ensures Inv(Next(s, step))
  {
    var s' := Next(s, step);
    CommitKeepsRows(s, step);
    CommitKeepsLog(s, step);
    FewerLeases(s, s');
    LogGrows(s, s');
  }

  lemma ForeignKeeps(s: State, step: Step)
    requires Inv(s) && step.AppendForeign? && Enabled(s, step)
    ensures Inv(Next(s, step))
  {
    var s' := Next(s, step);
    FewerLeases(s, s');
    LogGrows(s, s');
  }

  lemma StepKeeps(s: State, step: Step)
    requires Inv(s) && Enabled(s, step)
    ensures Inv(Next(s, step))
  {
    match step
    case Commit(_, _, _) => CommitKeeps(s, step);
    case Claim(_, _, _, _, _) => ClaimKeeps(s, step);
    case Append(_, _, _) => AppendKeeps(s, step);
    case AppendForeign(_) => ForeignKeeps(s, step);
    case Return(_, _) => ReturnKeeps(s, step);
    case _ => MarkKeeps(s, step);
  }

  lemma InitOk()
    ensures Inv(INIT)
  {
  }

  lemma {:induction false} RunKeeps(s: State, steps: seq<Step>, s': State)
    requires Inv(s) && Reaches(s, steps, s')
    ensures Inv(s')
    decreases |steps|
  {
    if steps != [] {
      StepKeeps(s, steps[0]);
      RunKeeps(Next(s, steps[0]), steps[1..], s');
    }
  }

  lemma Reachable(steps: seq<Step>, s: State)
    requires Reaches(INIT, steps, s)
    ensures Inv(s)
  {
    InitOk();
    RunKeeps(INIT, steps, s);
  }

  // -------------------------------------------------------------- main results

  /** In every reachable state: leases are well formed, and what is published or pruned has reached the stream. */
  lemma {:induction false} NothingLeavesTheOutboxUnpublished(steps: seq<Step>, s: State, r: Uuid)
    requires Reaches(INIT, steps, s) && r in s.committed
    ensures r in s.rows ==> s.rows[r].payload == s.committed[r]
    ensures r in s.rows ==> (s.rows[r].status == Processing <==> s.rows[r].claimToken.Some? && s.rows[r].claimedAt.Some?)
    ensures r !in s.rows || s.rows[r].status == Published ==>
              exists k :: 0 <= k < |s.log| && IsCopyOf(s.log[k], r) && s.log[k].payload == s.committed[r]
  {
    Reachable(steps, s);
    if r !in s.rows || s.rows[r].status == Published {
      assert HasCopy(s.log, r);
    }
  }

  /** A worker whose lease was taken over changes nothing when it later marks the row. */
  lemma {:induction false} TakenOverWorkerIsFenced(steps: seq<Step>, s: State, step: Step, r: Uuid, later: nat)
    requires Reaches(INIT, steps, s)
    requires (step.MarkPublished? || step.MarkFailed?) && Enabled(s, step)
    requires step.t < later < |s.cycles| && r in s.cycles[later].batch
    ensures r in Next(s, step).rows <==> r in s.rows
    ensures r in s.rows ==> Next(s, step).rows[r] == s.rows[r]
  {
    ReachableLeases(steps, s);
    OlderCycleIsFenced(s, step, r, later);
  }

  lemma ReachableLeases(steps: seq<Step>, s: State)
    requires Reaches(INIT, steps, s)
    ensures LatestHolds(s)
  {
    Reachable(steps, s);
  }

  lemma OlderCycleIsFenced(s: State, step: Step, r: Uuid, later: nat)
    requires LatestHolds(s) && (step.MarkPublished? || step.MarkFailed?) && Enabled(s, step)
    requires step.t < later < |s.cycles| && r in s.cycles[later].batch
    ensures r in Next(s, step).rows <==> r in s.rows
    ensures r in s.rows ==> Next(s, step).rows[r] == s.rows[r]
  {
    assert ClaimedAfter(s, r, step.t);
  }

  function CopiesOf(s: State, r: Uuid): set<nat> {
    set k: nat | 0 <= k < |s.log| && IsCopyOf(s.log[k], r)
  }

  function ClaimsOf(s: State, r: Uuid): set<nat> {
    set t: nat | 0 <= t < |s.cycles| && r in s.cycles[t].batch
  }

  /** Republication is bounded: a row has at most one stream copy per time it was claimed. */
  lemma {:induction false} CopiesNeverExceedClaims(steps: seq<Step>, s: State, r: Uuid)
    requires Reaches(INIT, steps, s)
    ensures |CopiesOf(s, r)| <= |ClaimsOf(s, r)|
  {
    ReachableCopies(steps, s);
    CopiesAreBounded(s, r);
  }

  lemma ReachableCopies(steps: seq<Step>, s: State)
    requires Reaches(INIT, steps, s)
    ensures LogOk(s) && CyclesOk(s)
  {
    Reachable(steps, s);
  }

  lemma CopiesAreBounded(s: State, r: Uuid)
    requires LogOk(s) && CyclesOk(s)
    ensures |CopiesOf(s, r)| <= |ClaimsOf(s, r)|
  {
    var f := map k | k in CopiesOf(s, r) :: s.log[k].cycle;
    forall k, l | k in CopiesOf(s, r) && l in CopiesOf(s, r) && k != l
      ensures f[k] != f[l]
    {
      CopiesComeFromDifferentClaims(s, r, k, l);
    }
    InjectionBound(CopiesOf(s, r), ClaimsOf(s, r), f);
  }

  lemma CopiesComeFromDifferentClaims(s: State, r: Uuid, k: nat, l: nat)
    requires LogOk(s) && CyclesOk(s) && k in CopiesOf(s, r) && l in CopiesOf(s, r) && k != l
    ensures s.log[k].cycle != s.log[l].cycle
  {
    assert CycleOk(s, s.log[k].cycle);
  }

  /** A committed event can be claimed from its commit on, and not before. */
  lemma CommittedEventsCanBeClaimed(s: State, step: Step, at: Time, timeoutMs: int)
    requires step.Commit? && Enabled(s, step)
    ensures step.id in ClaimableIds(Next(s, step).rows, {}, at, timeoutMs) <==> step.now <= at
    ensures Next(s, step).rows[step.id].payload == Next(s, step).committed[step.id] == step.payload
  {
  }

  /** A claim gets no row that is locked, published, waiting for its retry, or under a lease that is not over. */
  lemma {:induction false} OnlyDueRowsAreClaimed(steps: seq<Step>, s: State, step: Step, r: Uuid)
    requires Reaches(INIT, steps, s) && step.Claim? && Enabled(s, step) && r in step.batch
    ensures r in s.rows && r !in step.locked && s.rows[r].status != Published
    ensures match s.rows[r].claimedAt
            case Some(since) => since + step.timeoutMs <= step.now
            case None => s.rows[r].availableAt <= step.now
  {
    Reachable(steps, s);
    ClaimedRowIsDue(s, step, r);
  }

  lemma ClaimedRowIsDue(s: State, step: Step, r: Uuid)
    requires RowsOk(s) && step.Claim? && Enabled(s, step) && r in step.batch
    ensures r in s.rows && r !in step.locked && s.rows[r].status != Published
    ensures match s.rows[r].claimedAt
            case Some(since) => since + step.timeoutMs <= step.now
            case None => s.rows[r].availableAt <= step.now
  {
    var i :| 0 <= i < |step.batch| && step.batch[i] == r;
    assert step.batch[i] in ClaimableIds(s.rows, step.locked, step.now, step.timeoutMs);
  }

  /** No step of the run claims the row or is a mark by whoever holds it. */
  predicate LeavesAlone(steps: seq<Step>, row: Row, r: Uuid) {
    forall i :: 0 <= i < |steps| ==>
      && (steps[i].Claim? ==> r !in steps[i].batch)
      && (steps[i].MarkPublished? || steps[i].MarkFailed? ==> row.claimToken != Some(steps[i].t))
  }

  lemma {:induction false} RowStays(s: State, steps: seq<Step>, s': State, r: Uuid)
    requires Reaches(s, steps, s') && r in s.rows && s.rows[r].status != Published && LeavesAlone(steps, s.rows[r], r)
    ensures r in s'.rows && s'.rows[r] == s.rows[r]
    decreases |steps|
  {
    if steps != [] {
      RowSurvives(s, steps[0], r);
      RowStays(Next(s, steps[0]), steps[1..], s', r);
    }
  }

  lemma RowSurvives(s: State, step: Step, r: Uuid)
    requires Enabled(s, step) && r in s.rows && s.rows[r].status != Published && LeavesAlone([step], s.rows[r], r)
    ensures r in Next(s, step).rows && Next(s, step).rows[r] == s.rows[r]
  {
    assert [step][0] == step;
  }

  /** A lease is exclusive: as long as the worker that claimed a row has not marked it, the next claim of the row comes at least
   *  that claim's timeout later. */
  lemma {:induction false} ClaimsAreATimeoutApart(steps: seq<Step>, s: State, first: Step, between: seq<Step>, s': State,
                                                  second: Step, r: Uuid)
    requires Reaches(INIT, steps, s) && first.Claim? && Enabled(s, first) && r in first.batch
    requires Reaches(Next(s, first), between, s') && second.Claim? && Enabled(s', second) && r in second.batch
    requires forall i :: 0 <= i < |between| && between[i].Claim? ==> r !in between[i].batch
    requires forall i :: 0 <= i < |between| && (between[i].MarkPublished? || between[i].MarkFailed?) ==> between[i].t != |s.cycles|
    ensures first.now + second.timeoutMs <= second.now
  {
    Reachable(steps, s);
    ClaimedRowIsDue(s, first, r);
    var claimed := Next(s, first);
    assert claimed.rows[r].claimedAt == Some(first.now) && claimed.rows[r].claimToken == Some(|s.cycles|);
    RowStays(claimed, between, s', r);
    StepKeeps(s, first);
    RunKeeps(claimed, between, s');
    ClaimedRowIsDue(s', second, r);
  }

  /** The worker that holds a row marks it failed. */
  predicate Fails(s: State, step: Step, r: Uuid)
    requires Enabled(s, step)
  {
    step.MarkFailed? && s.cycles[step.t].batch[step.i] == r && r in s.rows && s.rows[r].claimToken == Some(step.t)
  }

  /** After a failed attempt the row has no holder, and the next claim of it comes no earlier than the backoff of that attempt. */
  lemma {:induction false} RetriesWaitForTheBackoff(steps: seq<Step>, s: State, failure: Step, between: seq<Step>, s': State,
                                                    claim: Step, r: Uuid)
    requires Reaches(INIT, steps, s) && Enabled(s, failure) && Fails(s, failure, r) && s.rows[r].attempts < POWER_OVERFLOW
    requires Reaches(Next(s, failure), between, s') && claim.Claim? && Enabled(s', claim) && r in claim.batch
    requires forall i :: 0 <= i < |between| && between[i].Claim? ==> r !in between[i].batch
    ensures failure.now + BackoffMs(s.rows[r].attempts) <= claim.now
  {
    Reachable(steps, s);
    var failed := Next(s, failure);
    assert failed.rows[r].claimToken == None && failed.rows[r].status == Failed;
    RowStays(failed, between, s', r);
    StepKeeps(s, failure);
    RunKeeps(failed, between, s');
    ClaimedRowIsDue(s', claim, r);
  }

  /** How often the row was marked failed by its holder along a run, not counting marks the backoff made overflow. */
  ghost function FailuresOf(s: State, steps: seq<Step>, r: Uuid): nat
    decreases |steps|
  {
    if steps == [] || !Enabled(s, steps[0]) then 0
    else (if Fails(s, steps[0], r) && s.rows[r].attempts < POWER_OVERFLOW then 1 else 0) + FailuresOf(Next(s, steps[0]), steps[1..], r)
  }

  /** A row's number of attempts is the number of its failures so far. */
  lemma {:induction false} AttemptsAreFailures(steps: seq<Step>, s: State, r: Uuid)
    requires Reaches(INIT, steps, s) && r in s.rows
    ensures s.rows[r].attempts == FailuresOf(INIT, steps, r)
  {
    InitOk();
    AttemptsCountFailures(INIT, steps, s, r);
  }

  function AttemptsOf(s: State, r: Uuid): nat {
    if r in s.rows then s.rows[r].attempts else 0
  }

  lemma {:induction false} AttemptsCountFailures(s: State, steps: seq<Step>, s': State, r: Uuid)
    requires Inv(s) && Reaches(s, steps, s') && r in s'.rows
    ensures s'.rows[r].attempts == AttemptsOf(s, r) + FailuresOf(s, steps, r)
    ensures r !in s.rows ==> r !in s.committed
    decreases |steps|
  {
    if steps != [] {
      StepKeeps(s, steps[0]);
      AttemptsCountFailures(Next(s, steps[0]), steps[1..], s', r);
      AttemptsStep(s, steps[0], r);
    }
  }

  lemma AttemptsStep(s: State, step: Step, r: Uuid)
    requires RowsOk(s) && Enabled(s, step) && (r in Next(s, step).rows || r !in Next(s, step).committed)
    ensures r in s.rows || r !in s.committed
    ensures AttemptsOf(Next(s, step), r) ==
            AttemptsOf(s, r) + if Fails(s, step, r) && s.rows[r].attempts < POWER_OVERFLOW then 1 else 0
  {
  }

  /** No row gets stuck: whatever happened to its workers, an unpublished row can be claimed again from some time on. */
  lemma {:induction false} UnpublishedRowsStayClaimable(steps: seq<Step>, s: State, r: Uuid, timeoutMs: int, now: Time)
    requires Reaches(INIT, steps, s) && r in s.rows && s.rows[r].status != Published
    requires if s.rows[r].claimedAt.Some? then s.rows[r].claimedAt.value + timeoutMs <= now else s.rows[r].availableAt <= now
    ensures Claimable(s.rows[r], now, timeoutMs)
    ensures forall limit: nat, batch :: IsOldestBatch(s.rows, ClaimableIds(s.rows, {}, now, timeoutMs), limit, batch) && r !in batch ==>
              |batch| == limit && forall i :: 0 <= i < |batch| ==> s.rows[batch[i]].createdAt <= s.rows[r].createdAt
  {
    Reachable(steps, s);
    WaitingRowIsClaimable(s, r, timeoutMs, now);
  }

  lemma WaitingRowIsClaimable(s: State, r: Uuid, timeoutMs: int, now: Time)
    requires RowsOk(s) && r in s.rows && s.rows[r].status != Published
    requires if s.rows[r].claimedAt.Some? then s.rows[r].claimedAt.value + timeoutMs <= now else s.rows[r].availableAt <= now
    ensures Claimable(s.rows[r], now, timeoutMs) && r in ClaimableIds(s.rows, {}, now, timeoutMs)
  {
  }
}
