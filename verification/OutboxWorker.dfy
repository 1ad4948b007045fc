/** The cycle of the outbox worker as written, each command a step of the interleaved machine, with other workers, commits
 *  and pruning acting between any two commands. */
module OutboxWorker {
  import opened Prelude
  import opened Outbox
  import Runs = OutboxRuns

  const ERROR := "publish failed"

  /** The elements of `s` whose flag is set, in order. */
  function Selected<T>(s: seq<T>, flags: seq<bool>): seq<T>
    requires |s| == |flags|
  {
    if s == [] then []
    else Selected(s[..|s| - 1], flags[..|s| - 1]) + if flags[|s| - 1] then [s[|s| - 1]] else []
  }

  lemma SelectedOneMore<T>(s: seq<T>, flags: seq<bool>, i: nat, picked: seq<T>, before: seq<bool>)
    requires i < |s| == |flags| && before == flags[..i] && picked == Selected(s[..i], before)
    ensures Selected(s[..i + 1], flags[..i + 1]) == picked + if flags[i] then [s[i]] else []
  {
    assert s[..i + 1][..i] == s[..i] && flags[..i + 1][..i] == flags[..i];
  }

  lemma {:induction false} SelectedElements(batch: seq<Uuid>, flags: seq<bool>)
    requires |batch| == |flags|
    ensures forall id :: id in Selected(batch, flags) <==> exists i :: 0 <= i < |batch| && flags[i] && batch[i] == id
  {
    if batch != [] {
      var n := |batch| - 1;
      SelectedElements(batch[..n], flags[..n]);
      assert forall i :: 0 <= i < n ==> batch[..n][i] == batch[i] && flags[..n][i] == flags[i];
    }
  }

  function Unanswered(n: nat): seq<bool> {
    seq(n, _ => false)
  }

  /** What becomes of a pipeline: the fate of each command, and, when exec() rejects, after how many commands. */
  datatype Wire = Wire(fates: nat -> Delivery, rejectsAfter: Option<nat>)

  function Sent(w: Wire, n: nat): nat {
    if w.rejectsAfter.Some? && w.rejectsAfter.value < n then w.rejectsAfter.value else n
  }

  /** What the worker gets to see of `n` commands. */
  function Reports(w: Wire, n: nat): seq<bool> {
    seq(n, i requires 0 <= i => w.rejectsAfter.None? && w.fates(i).Replied?)
  }

  function PayloadsOf(rows: Table, batch: seq<Uuid>): seq<Event>
    requires forall i :: 0 <= i < |batch| ==> batch[i] in rows
  {
    seq(|batch|, i requires 0 <= i < |batch| => rows[batch[i]].payload)
  }

  // ------------------------------------------------- what others leave alone

  /** Steps only the worker of cycle `t` takes. What it has sent may still reach Redis after exec() threw. */
  predicate IsOwn(s: Runs.State, step: Runs.Step, t: nat) {
    match step
    case Append(u, _, _) => u == t && t < |s.cycles| && !s.cycles[t].returned
    case Return(u, _) => u == t
    case MarkPublished(u, _) => u == t
    case MarkFailed(u, _, _, _) => u == t
    case _ => false
  }

  /** What only grows. */
  ghost predicate Grown(s: Runs.State, s': Runs.State) {
    && |s.cycles| <= |s'.cycles| && (forall u :: 0 <= u < |s.cycles| ==> s'.cycles[u].batch == s.cycles[u].batch)
    && (forall r :: r in s.committed ==> r in s'.committed && s'.committed[r] == s.committed[r])
    && s.log <= s'.log
  }

  /** What only the worker of cycle `t` changes. */
  ghost predicate SameCycle(s: Runs.State, s': Runs.State, t: nat)
    requires t < |s.cycles| <= |s'.cycles|
  {
    if s.cycles[t].returned then s'.cycles[t].returned && s'.cycles[t].reports == s.cycles[t].reports
    else s'.cycles[t] == s.cycles[t]
  }

  /** A row keeps its content, unless it is published and pruned. */
  predicate RowKept(rows: Table, rows': Table, r: Uuid) {
    if r !in rows then r !in rows'
    else if r in rows' then rows'[r] == rows[r]
    else rows[r].status == Published
  }

  /** The rows of cycle `t` stay as they are, unless another cycle claims them. */
  ghost predicate RowsKept(s: Runs.State, s': Runs.State, t: nat)
    requires t < |s.cycles|
  {
    forall r :: r in s.cycles[t].batch ==> Runs.ClaimedAfter(s', r, t) || RowKept(s.rows, s'.rows, r)
  }

  lemma OthersLetGrow(s: Runs.State, step: Runs.Step, t: nat)
    requires Runs.Enabled(s, step) && !IsOwn(s, step, t) && t < |s.cycles|
    ensures Grown(s, Runs.Next(s, step)) && SameCycle(s, Runs.Next(s, step), t)
  {
  }

  lemma OthersKeepRows(s: Runs.State, step: Runs.Step, t: nat)
    requires Runs.RowsOk(s) && Runs.LatestHolds(s) && Runs.CyclesOk(s)
    requires Runs.Enabled(s, step) && !IsOwn(s, step, t) && t < |s.cycles|
    ensures RowsKept(s, Runs.Next(s, step), t)
  {
    var s' := Runs.Next(s, step);
    forall r | r in s.cycles[t].batch ensures Runs.ClaimedAfter(s', r, t) || RowKept(s.rows, s'.rows, r) {
      OthersKeepRow(s, step, t, r);
    }
  }

  lemma OthersKeepRow(s: Runs.State, step: Runs.Step, t: nat, r: Uuid)
    requires Runs.RowsOk(s) && Runs.LatestHolds(s) && Runs.CyclesOk(s)
    requires Runs.Enabled(s, step) && !IsOwn(s, step, t) && t < |s.cycles| && r in s.cycles[t].batch
    ensures Runs.ClaimedAfter(Runs.Next(s, step), r, t) || RowKept(s.rows, Runs.Next(s, step).rows, r)
  {
    var s' := Runs.Next(s, step);
    assert Runs.CycleOk(s, t);
    if r in s.rows && s.rows[r].claimToken.Some? && s.rows[r].claimToken.value != t {
      HolderIsLater(s, t, r);
      ClaimsStay(s, s', t, r);
    } else if step.Claim? && r in step.batch {
      assert s'.cycles[|s.cycles|].batch == step.batch;
    }
  }

  /** Of the cycles that claimed a row, the holder is the last. */
  lemma HolderIsLater(s: Runs.State, t: nat, r: Uuid)
    requires Runs.LatestHolds(s) && t < |s.cycles| && r in s.cycles[t].batch
    requires r in s.rows && s.rows[r].claimToken.Some? && s.rows[r].claimToken.value != t
    ensures Runs.ClaimedAfter(s, r, t)
  {
    var u := s.rows[r].claimToken.value;
    assert !Runs.ClaimedAfter(s, r, u) && r in s.cycles[u].batch;
  }

  lemma ClaimsStay(s: Runs.State, s': Runs.State, t: nat, r: Uuid)
    requires |s.cycles| <= |s'.cycles| && forall u :: 0 <= u < |s.cycles| ==> s'.cycles[u].batch == s.cycles[u].batch
    requires Runs.ClaimedAfter(s, r, t)
    ensures Runs.ClaimedAfter(s', r, t)
  {
    var u :| t < u < |s.cycles| && r in s.cycles[u].batch;
    assert r in s'.cycles[u].batch;
  }

  lemma KeptTwice(s: Runs.State, m: Runs.State, s': Runs.State, t: nat)
    requires Grown(s, m) && Grown(m, s') && t < |s.cycles| && RowsKept(s, m, t) && RowsKept(m, s', t)
    ensures Grown(s, s') && RowsKept(s, s', t)
  {
    forall r | r in s.cycles[t].batch ensures Runs.ClaimedAfter(s', r, t) || RowKept(s.rows, s'.rows, r) {
      if Runs.ClaimedAfter(m, r, t) {
        ClaimsStay(m, s', t, r);
      }
    }
  }

  // --------------------------------------------------- what a cycle makes of a row

  /** What a mark of its holder makes of a claimed row. An overflow leaves it claimed. */
  function Settle(row: Row, published: bool, now: Time): Row {
    if published then PublishedRow(row, now)
    else if row.attempts < POWER_OVERFLOW then FailedRow(row, now, ERROR)
    else row
  }

  /** Row `r`, claimed by cycle `t` as `row`: a later cycle has claimed it, or it is what this cycle made of it. */
  ghost predicate Disposed(s: Runs.State, t: nat, r: Uuid, row: Row, reported: bool, marked: bool) {
    || Runs.ClaimedAfter(s, r, t)
    || (!marked && r in s.rows && s.rows[r] == row)
    || (marked && reported && r !in s.rows)
    || (marked && r in s.rows && exists at :: s.rows[r] == Settle(row, reported, at))
  }

  /** Each row of cycle `t` is disposed of, except those the marks under way still wait for. */
  ghost predicate Confirming(s: Runs.State, t: nat, claimed: seq<Row>, publishing: bool, todo: set<nat>) {
    && t < |s.cycles| && s.cycles[t].returned
    && |claimed| == |s.cycles[t].batch| == |s.cycles[t].reports|
    && forall i :: 0 <= i < |claimed| ==>
         Disposed(s, t, s.cycles[t].batch[i], claimed[i], s.cycles[t].reports[i],
                  if s.cycles[t].reports[i] then !publishing else i !in todo)
  }

  lemma OthersKeepDisposed(s: Runs.State, s': Runs.State, t: nat, r: Uuid, row: Row, reported: bool, marked: bool)
    requires t < |s.cycles| && Grown(s, s') && RowsKept(s, s', t) && r in s.cycles[t].batch && Holds(row, t)
    requires Disposed(s, t, r, row, reported, marked)
    ensures Disposed(s', t, r, row, reported, marked)
  {
    if Runs.ClaimedAfter(s, r, t) {
      ClaimsStay(s, s', t, r);
    }
  }

  lemma OthersKeepConfirming(s: Runs.State, s': Runs.State, t: nat, claimed: seq<Row>, publishing: bool, todo: set<nat>)
    requires Confirming(s, t, claimed, publishing, todo) && Grown(s, s') && SameCycle(s, s', t) && RowsKept(s, s', t)
    requires forall i :: 0 <= i < |claimed| ==> Holds(claimed[i], t)
    ensures Confirming(s', t, claimed, publishing, todo)
  {
    forall i | 0 <= i < |claimed|
      ensures Disposed(s', t, s'.cycles[t].batch[i], claimed[i], s'.cycles[t].reports[i],
                       if s'.cycles[t].reports[i] then !publishing else i !in todo)
    {
      OthersKeepDisposed(s, s', t, s.cycles[t].batch[i], claimed[i], s.cycles[t].reports[i],
                         if s.cycles[t].reports[i] then !publishing else i !in todo);
    }
  }

  /** A mark changes a row only while no later cycle has claimed it. */
  lemma MarkFailedDisposes(s: Runs.State, t: nat, claimed: seq<Row>, publishing: bool, todo: set<nat>, i: nat, at: Time)
    requires Runs.CyclesOk(s) && Runs.LatestHolds(s) && Confirming(s, t, claimed, publishing, todo)
    requires forall k :: 0 <= k < |claimed| ==> Holds(claimed[k], t)
    requires i < |claimed| && !s.cycles[t].reports[i] && i in todo
    ensures Confirming(Runs.Next(s, Runs.MarkFailed(t, i, at, ERROR)), t, claimed, publishing, todo - {i})
    ensures var r := s.cycles[t].batch[i];
            && (Runs.ClaimedAfter(s, r, t) || (r in s.rows && s.rows[r] == claimed[i]))
            && (r in s.rows && Holds(s.rows[r], t) ==> s.rows[r] == claimed[i])
  {
    var s', batch := Runs.Next(s, Runs.MarkFailed(t, i, at, ERROR)), s.cycles[t].batch;
    assert Runs.CycleOk(s, t);
    forall k | 0 <= k < |claimed|
      ensures Disposed(s', t, batch[k], claimed[k], s.cycles[t].reports[k],
                       if s.cycles[t].reports[k] then !publishing else k !in todo - {i})
    {
      assert Disposed(s, t, batch[k], claimed[k], s.cycles[t].reports[k], if s.cycles[t].reports[k] then !publishing else k !in todo);
      SameClaims(s, s', t, batch[k]);
      if k == i && !Runs.ClaimedAfter(s, batch[i], t) {
        assert s'.rows[batch[i]] == Settle(claimed[i], false, at);
      }
    }
  }

  lemma MarkPublishedDisposes(s: Runs.State, t: nat, claimed: seq<Row>, todo: set<nat>, at: Time)
    requires Runs.CyclesOk(s) && Runs.LatestHolds(s) && Confirming(s, t, claimed, true, todo)
    requires forall k :: 0 <= k < |claimed| ==> Holds(claimed[k], t)
    ensures Confirming(Runs.Next(s, Runs.MarkPublished(t, at)), t, claimed, false, todo)
    ensures forall i :: 0 <= i < |claimed| && s.cycles[t].reports[i] ==>
              var r := s.cycles[t].batch[i];
              Runs.ClaimedAfter(s, r, t) || (r in s.rows && s.rows[r] == claimed[i])
  {
    var s', batch, reports := Runs.Next(s, Runs.MarkPublished(t, at)), s.cycles[t].batch, s.cycles[t].reports;
    assert Runs.CycleOk(s, t);
    forall k | 0 <= k < |claimed|
      ensures Disposed(s', t, batch[k], claimed[k], reports[k], if reports[k] then true else k !in todo)
    {
      assert Disposed(s, t, batch[k], claimed[k], reports[k], if reports[k] then false else k !in todo);
      SameClaims(s, s', t, batch[k]);
      OnlyReportedAreReported(s, t, k);
      if reports[k] && !Runs.ClaimedAfter(s, batch[k], t) {
        assert s'.rows[batch[k]] == Settle(claimed[k], true, at);
      }
    }
  }

  lemma SameClaims(s: Runs.State, s': Runs.State, t: nat, r: Uuid)
    requires s'.cycles == s.cycles
    ensures Runs.ClaimedAfter(s', r, t) <==> Runs.ClaimedAfter(s, r, t)
  {
  }

  lemma OnlyReportedAreReported(s: Runs.State, t: nat, k: nat)
    requires t < |s.cycles| && Runs.CycleOk(s, t) && k < |s.cycles[t].batch|
    ensures s.cycles[t].batch[k] in Runs.Reported(s.cycles[t]) <==> s.cycles[t].reports[k]
  {
  }

  // --------------------------------------------------------------------- code

  lemma {:induction false} ReachesOneMore(s: Runs.State, steps: seq<Runs.Step>, m: Runs.State, step: Runs.Step)
    requires Runs.Reaches(s, steps, m) && Runs.Enabled(m, step)
    ensures Runs.Reaches(s, steps + [step], Runs.Next(m, step))
    decreases |steps|
  {
    if steps == [] {
      assert Runs.Reaches(Runs.Next(m, step), [], Runs.Next(m, step));
      assert (steps + [step])[1..] == [];
    } else {
      ReachesOneMore(Runs.Next(s, steps[0]), steps[1..], m, step);
      assert (steps + [step])[1..] == steps[1..] + [step];
    }
  }

  /** The outbox table and the stream, shared by all workers. A claim token is the number of cycles before its own. */
  class SharedOutbox {
    const table: OutboxTable
    var committed: map<Uuid, Event>
    var cycles: seq<Runs.Cycle>
    var log: seq<Runs.Entry>
    ghost var steps: seq<Runs.Step>

    function State(): Runs.State
      reads this, table
    {
      Runs.State(table.rows, committed, cycles, log)
    }

    /** The state is the outcome of a run of the machine. */
    ghost predicate Valid()
      reads this, table
    {
      Runs.Reaches(Runs.INIT, steps, State())
    }

    constructor ()
      ensures Valid() && fresh(table) && State() == Runs.INIT
    {
      table := new OutboxTable();
      committed, cycles, log, steps := map[], [], [], [];
    }

    ghost method Record(before: Runs.State, step: Runs.Step)
      requires Runs.Reaches(Runs.INIT, steps, before) && Runs.Enabled(before, step) && State() == Runs.Next(before, step)
      modifies this`steps
      ensures Valid() && Runs.Inv(State())
    {
      ReachesOneMore(Runs.INIT, steps, before, step);
      steps := steps + [step];
      Runs.Reachable(steps, State());
    }

    method Take(step: Runs.Step)
      requires Valid() && Runs.Enabled(State(), step)
      modifies this, table
      ensures Valid() && Runs.Inv(State()) && State() == Runs.Next(old(State()), step)
    {
      ghost var before := State();
      var after := Runs.Next(State(), step);
      table.rows, committed, cycles, log := after.rows, after.committed, after.cycles, after.log;
      Record(before, step);
    }

    /** Whatever other workers, commits and pruning do before the next command of cycle `t`. */
    method Others(t: nat)
      requires Valid() && t < |cycles|
      modifies this, table
      ensures Valid() && Runs.Inv(State())
      ensures Grown(old(State()), State()) && SameCycle(old(State()), State(), t) && RowsKept(old(State()), State(), t)
    {
      Runs.Reachable(steps, State());
      var count: nat := *;
      while 0 < count
        invariant Valid() && Runs.Inv(State())
        invariant Grown(old(State()), State()) && SameCycle(old(State()), State(), t) && RowsKept(old(State()), State(), t)
      {
        var step: Runs.Step := *;
        if Runs.Enabled(State(), step) && !IsOwn(State(), step, t) {
          ghost var before := State();
          OthersLetGrow(before, step, t);
          OthersKeepRows(before, step, t);
          Take(step);
          KeptTwice(old(State()), before, State(), t);
        }
        count := count - 1;
      }
    }

    /** The claim statement; `locked` are the rows other transactions hold right now. */
    method ClaimPending(limit: nat, now: Time, timeoutMs: int, locked: set<Uuid>)
      returns (t: nat, batch: seq<Uuid>, payloads: seq<Event>)
      requires Valid()
      modifies this, table
      ensures Valid() && Runs.Inv(State()) && t == |old(cycles)|
      ensures IsOldestBatch(old(table.rows), ClaimableIds(old(table.rows), locked, now, timeoutMs), limit, batch)
      ensures State() == Runs.Next(old(State()), Runs.Claim(batch, locked, limit, now, timeoutMs))
      ensures payloads == PayloadsOf(old(table.rows), batch)
    {
      t := |cycles|;
      batch := table.ClaimPending(limit, t, now, timeoutMs, locked);
      cycles := cycles + [Runs.Cycle(batch, 0, seq(|batch|, _ => false), false)];
      payloads := PayloadsOf(table.rows, batch);
      assert payloads == PayloadsOf(old(table.rows), batch);
      Record(old(State()), Runs.Claim(batch, locked, limit, now, timeoutMs));
    }

    /** One XADD of the pipeline. It may take effect without its reply being seen, never the other way round. */
    method Xadd(t: nat, payload: Event, fate: Delivery) returns (replied: bool)
      requires Valid() && t < |cycles| && !cycles[t].returned
      requires cycles[t].executed < |cycles[t].batch| == |cycles[t].reports|
      requires var r := cycles[t].batch[cycles[t].executed]; r in committed && committed[r] == payload
      modifies this, table
      ensures Valid() && Runs.Inv(State()) && replied == fate.Replied?
      ensures State() == Runs.Next(old(State()), Runs.Append(t, !fate.NotSent?, replied))
    {
      replied := fate.Replied?;
      Take(Runs.Append(t, !fate.NotSent?, replied));
    }

    /** Publishes the reported rows the cycle still holds. Rows a later cycle has claimed stay as they are. */
    method MarkPublished(t: nat, ids: seq<Uuid>, at: Time) returns (changed: set<Uuid>)
      requires Valid() && t < |cycles| && cycles[t].returned && |cycles[t].reports| == |cycles[t].batch|
      requires SeqSet(ids) == Runs.Reported(cycles[t])
      modifies this, table
      ensures Valid() && Runs.Inv(State()) && State() == Runs.Next(old(State()), Runs.MarkPublished(t, at))
      ensures changed == set id | id in old(table.rows) && id in ids && Holds(old(table.rows)[id], t)
      ensures forall r :: Runs.ClaimedAfter(old(State()), r, t) ==>
        (r in table.rows <==> r in old(table.rows)) && (r in table.rows ==> table.rows[r] == old(table.rows)[r])
    {
      Runs.Reachable(steps, State());
      changed := table.MarkPublished(ids, t, at);
      Record(old(State()), Runs.MarkPublished(t, at));
      Fenced(old(State()), Runs.MarkPublished(t, at));
    }

    /** Reschedules an unreported row if the cycle still holds it. A row a later cycle has claimed stays as it is. */
    method MarkFailed(t: nat, i: nat, at: Time) returns (r: Result<bool, ()>)
      requires Valid() && t < |cycles| && cycles[t].returned
      requires i < |cycles[t].batch| == |cycles[t].reports| && !cycles[t].reports[i]
      modifies this, table
      ensures Valid() && Runs.Inv(State()) && State() == Runs.Next(old(State()), Runs.MarkFailed(t, i, at, ERROR))
      ensures var id, rows := cycles[t].batch[i], old(table.rows);
        && (r.Err? <==> id in rows && Holds(rows[id], t) && POWER_OVERFLOW <= rows[id].attempts)
        && (r.Ok? ==> r.value == (id in rows && Holds(rows[id], t)))
      ensures forall r :: Runs.ClaimedAfter(old(State()), r, t) ==>
        (r in table.rows <==> r in old(table.rows)) && (r in table.rows ==> table.rows[r] == old(table.rows)[r])
    {
      Runs.Reachable(steps, State());
      r := table.MarkFailed(cycles[t].batch[i], t, at, ERROR);
      Record(old(State()), Runs.MarkFailed(t, i, at, ERROR));
      Fenced(old(State()), Runs.MarkFailed(t, i, at, ERROR));
    }
  }

  lemma Fenced(s: Runs.State, step: Runs.Step)
    requires Runs.LatestHolds(s) && (step.MarkPublished? || step.MarkFailed?) && Runs.Enabled(s, step)
    ensures forall r :: Runs.ClaimedAfter(s, r, step.t) ==>
      (r in Runs.Next(s, step).rows <==> r in s.rows) && (r in s.rows ==> Runs.Next(s, step).rows[r] == s.rows[r])
  {
    forall r | Runs.ClaimedAfter(s, r, step.t)
      ensures (r in Runs.Next(s, step).rows <==> r in s.rows) && (r in s.rows ==> Runs.Next(s, step).rows[r] == s.rows[r])
    {
      var later :| step.t < later < |s.cycles| && r in s.cycles[later].batch;
      Runs.OlderCycleIsFenced(s, step, r, later);
    }
  }

  /** Where the pipeline of cycle `t` is after the first replies; rows and what grows are as at `start` or later. */
  ghost predicate Sending(start: Runs.State, s: Runs.State, t: nat, replies: seq<bool>) {
    && t < |start.cycles| && |replies| <= |start.cycles[t].batch| && Grown(start, s) && RowsKept(start, s, t)
    && s.cycles[t] == Runs.Cycle(start.cycles[t].batch, |replies|, replies + Unanswered(|start.cycles[t].batch| - |replies|), false)
  }

  lemma OthersKeepSending(start: Runs.State, s: Runs.State, s': Runs.State, t: nat, replies: seq<bool>)
    requires Sending(start, s, t, replies) && Grown(s, s') && SameCycle(s, s', t) && RowsKept(s, s', t)
    ensures Sending(start, s', t, replies)
  {
    KeptTwice(start, s, s', t);
  }

  lemma AppendKeepsSending(start: Runs.State, s: Runs.State, t: nat, replies: seq<bool>, a: bool, r: bool)
    requires Sending(start, s, t, replies) && |replies| < |start.cycles[t].batch| && (r ==> a)
    requires Runs.Enabled(s, Runs.Append(t, a, r))
    ensures Sending(start, Runs.Next(s, Runs.Append(t, a, r)), t, replies + [r])
  {
    var s', n := Runs.Next(s, Runs.Append(t, a, r)), |start.cycles[t].batch|;
    var flags := replies + Unanswered(n - |replies|);
    assert (if a && r then flags[|replies| := true] else flags) == replies + [r] + Unanswered(n - |replies| - 1);
    KeptTwice(start, s, s', t);
  }

  lemma ReturnEffect(s: Runs.State, t: nat, threw: bool)
    requires Runs.Enabled(s, Runs.Return(t, threw))
    ensures var s' := Runs.Next(s, Runs.Return(t, threw));
            && Grown(s, s') && RowsKept(s, s', t) && s'.cycles[t].returned
            && s'.cycles[t].executed == s.cycles[t].executed
            && s'.cycles[t].reports == if threw then Unanswered(|s.cycles[t].batch|) else s.cycles[t].reports
  {
  }

  /** The commands that have reached Redis have their copies in the stream, each under its own number. */
  ghost predicate Streamed(log: seq<Runs.Entry>, t: nat, batch: seq<Uuid>, payloads: seq<Event>, w: Wire, n: nat)
    requires n <= |batch| == |payloads|
  {
    forall i :: 0 <= i < n && !w.fates(i).NotSent? ==> InStream(log, t, i, batch[i], payloads[i])
  }

  /** The stream has the copy that command `i` of cycle `t` wrote. */
  ghost predicate InStream(log: seq<Runs.Entry>, t: nat, i: nat, r: Uuid, payload: Event) {
    exists k :: 0 <= k < |log| && log[k] == Runs.Copy(t, i, r, payload)
  }

  lemma StreamedStays(log: seq<Runs.Entry>, log': seq<Runs.Entry>, t: nat, batch: seq<Uuid>, payloads: seq<Event>, w: Wire, n: nat)
    requires n <= |batch| == |payloads| && log <= log' && Streamed(log, t, batch, payloads, w, n)
    ensures Streamed(log', t, batch, payloads, w, n)
  {
    forall i | 0 <= i < n && !w.fates(i).NotSent? ensures InStream(log', t, i, batch[i], payloads[i]) {
      var k :| 0 <= k < |log| && log[k] == Runs.Copy(t, i, batch[i], payloads[i]);
      assert log'[k] == log[k];
    }
  }

  /** Sends one XADD per payload. When exec() rejects, every command counts as failed, whatever reached Redis or still will. */
  method Pipeline(sh: SharedOutbox, t: nat, payloads: seq<Event>, w: Wire) returns (reports: seq<bool>)
    requires sh.Valid() && t < |sh.cycles| && |payloads| == |sh.cycles[t].batch|
    requires sh.cycles[t] == Runs.Cycle(sh.cycles[t].batch, 0, Unanswered(|payloads|), false)
    requires forall i :: 0 <= i < |payloads| ==>
      sh.cycles[t].batch[i] in sh.committed && sh.committed[sh.cycles[t].batch[i]] == payloads[i]
    modifies sh, sh.table
    ensures sh.Valid() && Runs.Inv(sh.State())
    ensures Grown(old(sh.State()), sh.State()) && RowsKept(old(sh.State()), sh.State(), t)
    ensures sh.cycles[t].returned && sh.cycles[t].reports == reports == Reports(w, |payloads|)
    ensures w.rejectsAfter.None? ==> sh.cycles[t].executed == |payloads|
    ensures forall i :: 0 <= i < |payloads| && reports[i] ==> InStream(sh.log, t, i, sh.cycles[t].batch[i], payloads[i])
    ensures Streamed(sh.log, t, sh.cycles[t].batch, payloads, w, Sent(w, |payloads|))
  {
    ghost var start, batch := sh.State(), sh.cycles[t].batch;
    var n := Sent(w, |payloads|);
    var replies := [];
    assert replies + Unanswered(|payloads|) == Unanswered(|payloads|);
    while |replies| < n
      invariant |replies| <= n && sh.Valid() && Sending(start, sh.State(), t, replies)
      invariant forall i :: 0 <= i < |replies| ==> replies[i] == w.fates(i).Replied?
      invariant Streamed(sh.log, t, batch, payloads, w, |replies|)
    {
      var replied := SendNext(sh, t, payloads, w, start, replies);
      replies := replies + [replied];
    }
    ghost var before := sh.State();
    sh.Others(t);
    OthersKeepSending(start, before, sh.State(), t, replies);
    ghost var mid := sh.State();
    sh.Take(Runs.Return(t, w.rejectsAfter.Some?));
    ReturnEffect(mid, t, w.rejectsAfter.Some?);
    KeptTwice(start, mid, sh.State(), t);
    StreamedStays(before.log, sh.log, t, batch, payloads, w, n);
    assert w.rejectsAfter.Some? || replies + Unanswered(0) == replies;
    reports := if w.rejectsAfter.Some? then Unanswered(|payloads|) else replies;
    assert reports == Reports(w, |payloads|);
  }

  method SendNext(sh: SharedOutbox, t: nat, payloads: seq<Event>, w: Wire, ghost start: Runs.State, replies: seq<bool>)
    returns (replied: bool)
    requires sh.Valid() && Sending(start, sh.State(), t, replies) && |replies| < |start.cycles[t].batch| == |payloads|
    requires var r := start.cycles[t].batch[|replies|]; r in start.committed && start.committed[r] == payloads[|replies|]
    requires Streamed(sh.log, t, start.cycles[t].batch, payloads, w, |replies|)
    modifies sh, sh.table
    ensures sh.Valid() && Sending(start, sh.State(), t, replies + [replied]) && replied == w.fates(|replies|).Replied?
    ensures Streamed(sh.log, t, start.cycles[t].batch, payloads, w, |replies| + 1)
  {
    ghost var before, batch, i := sh.State(), start.cycles[t].batch, |replies|;
    sh.Others(t);
    OthersKeepSending(start, before, sh.State(), t, replies);
    ghost var mid := sh.State();
    var fate := w.fates(|replies|);
    replied := sh.Xadd(t, payloads[|replies|], fate);
    AppendKeepsSending(start, mid, t, replies, !fate.NotSent?, replied);
    StreamedStays(before.log, sh.log, t, batch, payloads, w, i);
    if !fate.NotSent? {
      assert sh.log[|mid.log|] == Runs.Copy(t, i, batch[i], payloads[i]);
    }
  }

  // ------------------------------------------------------------- confirmation

  /** Who was counted as published: rows this cycle still held when it marked them. */
  ghost predicate PublishedTallied(s: Runs.State, t: nat, publishing: bool, published: set<Uuid>)
    requires t < |s.cycles| && |s.cycles[t].batch| == |s.cycles[t].reports|
  {
    var batch, reports := s.cycles[t].batch, s.cycles[t].reports;
    && published <= SeqSet(batch)
    && (forall i :: 0 <= i < |batch| && batch[i] in published ==> reports[i] && !publishing)
    && (forall i :: 0 <= i < |batch| && reports[i] && !publishing ==> batch[i] in published || Runs.ClaimedAfter(s, batch[i], t))
  }

  /** Who was counted as failed. The others were claimed by a later cycle, or the backoff overflowed. */
  ghost predicate FailedTallied(s: Runs.State, t: nat, claimed: seq<Row>, todo: set<nat>, failed: set<Uuid>, overflow: bool)
    requires t < |s.cycles| && |claimed| == |s.cycles[t].batch| == |s.cycles[t].reports|
  {
    var batch, reports := s.cycles[t].batch, s.cycles[t].reports;
    && failed <= SeqSet(batch)
    && (forall i :: 0 <= i < |batch| && batch[i] in failed ==> !reports[i] && i !in todo && claimed[i].attempts < POWER_OVERFLOW)
    && (forall i :: 0 <= i < |batch| && !reports[i] && i !in todo ==>
          batch[i] in failed || Runs.ClaimedAfter(s, batch[i], t) || (overflow && POWER_OVERFLOW <= claimed[i].attempts))
    && (overflow ==> exists i :: 0 <= i < |batch| && !reports[i] && POWER_OVERFLOW <= claimed[i].attempts)
  }

  ghost predicate Tallied(s: Runs.State, t: nat, claimed: seq<Row>, publishing: bool, todo: set<nat>,
                          published: set<Uuid>, failed: set<Uuid>, overflow: bool)
    requires t < |s.cycles| && |claimed| == |s.cycles[t].batch| == |s.cycles[t].reports|
  {
    PublishedTallied(s, t, publishing, published) && FailedTallied(s, t, claimed, todo, failed, overflow)
  }

  lemma OthersKeepTallied(s: Runs.State, s': Runs.State, t: nat, claimed: seq<Row>, publishing: bool, todo: set<nat>,
                          published: set<Uuid>, failed: set<Uuid>, overflow: bool)
    requires t < |s.cycles| && s.cycles[t].returned && |claimed| == |s.cycles[t].batch| == |s.cycles[t].reports|
    requires Grown(s, s') && SameCycle(s, s', t)
    requires Tallied(s, t, claimed, publishing, todo, published, failed, overflow)
    ensures Tallied(s', t, claimed, publishing, todo, published, failed, overflow)
  {
    forall r | Runs.ClaimedAfter(s, r, t) ensures Runs.ClaimedAfter(s', r, t) {
      ClaimsStay(s, s', t, r);
    }
  }

  ghost predicate Progress(s: Runs.State, t: nat, claimed: seq<Row>, publishing: bool, todo: set<nat>,
                           published: set<Uuid>, failed: set<Uuid>, overflow: bool) {
    && Confirming(s, t, claimed, publishing, todo) && Tallied(s, t, claimed, publishing, todo, published, failed, overflow)
    && (forall i :: 0 <= i < |claimed| ==> Holds(claimed[i], t))
    && (forall i :: i in todo ==> i < |claimed| && !s.cycles[t].reports[i])
    && (publishing ==> published == {})
  }

  /** Others act, and what this cycle has made of its rows stands. */
  method OthersMeanwhile(sh: SharedOutbox, t: nat, ghost claimed: seq<Row>, ghost publishing: bool, ghost todo: set<nat>,
                         ghost published: set<Uuid>, ghost failed: set<Uuid>, ghost overflow: bool)
    requires sh.Valid() && Progress(sh.State(), t, claimed, publishing, todo, published, failed, overflow)
    modifies sh, sh.table
    ensures sh.Valid() && Runs.Inv(sh.State()) && Progress(sh.State(), t, claimed, publishing, todo, published, failed, overflow)
    ensures Grown(old(sh.State()), sh.State()) && SameCycle(old(sh.State()), sh.State(), t)
  {
    ghost var before := sh.State();
    sh.Others(t);
    OthersKeepConfirming(before, sh.State(), t, claimed, publishing, todo);
    OthersKeepTallied(before, sh.State(), t, claimed, publishing, todo, published, failed, overflow);
  }

  /** Marks one unreported row failed. */
  method ConfirmFailed(sh: SharedOutbox, t: nat, i: nat, ghost claimed: seq<Row>, ghost publishing: bool, ghost todo: set<nat>,
                       ghost published: set<Uuid>, ghost failed: set<Uuid>, overflow: bool)
    returns (counted: bool, overflow': bool, ghost failed': set<Uuid>)
    requires sh.Valid() && Progress(sh.State(), t, claimed, publishing, todo, published, failed, overflow) && i in todo
    modifies sh, sh.table
    ensures sh.Valid() && Progress(sh.State(), t, claimed, publishing, todo - {i}, published, failed', overflow')
    ensures sh.cycles[t].batch == old(sh.cycles)[t].batch && sh.cycles[t].reports == old(sh.cycles)[t].reports
    ensures |failed'| == |failed| + (if counted then 1 else 0) && old(sh.log) <= sh.log
  {
    OthersMeanwhile(sh, t, claimed, publishing, todo, published, failed, overflow);
    ghost var before := sh.State();
    var at: Time := *;
    var r := sh.MarkFailed(t, i, at);
    counted, overflow' := r == Ok(true), overflow || r.Err?;
    failed' := if counted then failed + {sh.cycles[t].batch[i]} else failed;
    FailedIsConfirmed(before, sh.State(), t, claimed, publishing, todo, published, failed, overflow, i, at, r);
  }

  lemma FailedIsConfirmed(s: Runs.State, s': Runs.State, t: nat, claimed: seq<Row>, publishing: bool, todo: set<nat>,
                          published: set<Uuid>, failed: set<Uuid>, overflow: bool, i: nat, at: Time, r: Result<bool, ()>)
    requires Runs.CyclesOk(s) && Runs.LatestHolds(s)
    requires Progress(s, t, claimed, publishing, todo, published, failed, overflow) && i in todo
    requires Runs.Enabled(s, Runs.MarkFailed(t, i, at, ERROR)) && s' == Runs.Next(s, Runs.MarkFailed(t, i, at, ERROR))
    requires var id := s.cycles[t].batch[i];
      && (r.Err? <==> id in s.rows && Holds(s.rows[id], t) && POWER_OVERFLOW <= s.rows[id].attempts)
      && (r.Ok? ==> r.value == (id in s.rows && Holds(s.rows[id], t)))
    ensures var failed' := if r == Ok(true) then failed + {s.cycles[t].batch[i]} else failed;
      && Progress(s', t, claimed, publishing, todo - {i}, published, failed', overflow || r.Err?)
      && |failed'| == |failed| + if r == Ok(true) then 1 else 0
  {
    assert Runs.CycleOk(s, t);
    MarkFailedDisposes(s, t, claimed, publishing, todo, i, at);
    FailedIsTallied(s, s', t, claimed, todo, failed, overflow, i, r);
    PublishedStaysTallied(s, s', t, publishing, published);
  }

  lemma PublishedStaysTallied(s: Runs.State, s': Runs.State, t: nat, publishing: bool, published: set<Uuid>)
    requires t < |s.cycles| && |s.cycles[t].batch| == |s.cycles[t].reports| && s'.cycles == s.cycles
    requires PublishedTallied(s, t, publishing, published)
    ensures PublishedTallied(s', t, publishing, published)
  {
    forall id ensures Runs.ClaimedAfter(s', id, t) <==> Runs.ClaimedAfter(s, id, t) {
      SameClaims(s, s', t, id);
    }
  }

  lemma FailedIsTallied(s: Runs.State, s': Runs.State, t: nat, claimed: seq<Row>, todo: set<nat>, failed: set<Uuid>, overflow: bool,
                        i: nat, r: Result<bool, ()>)
    requires t < |s.cycles| && |claimed| == |s.cycles[t].batch| == |s.cycles[t].reports| && s'.cycles == s.cycles
    requires Distinct(s.cycles[t].batch) && FailedTallied(s, t, claimed, todo, failed, overflow)
    requires i < |claimed| && !s.cycles[t].reports[i] && i in todo && Holds(claimed[i], t)
    requires var id := s.cycles[t].batch[i];
      && (Runs.ClaimedAfter(s, id, t) || (id in s.rows && s.rows[id] == claimed[i]))
      && (id in s.rows && Holds(s.rows[id], t) ==> s.rows[id] == claimed[i])
      && (r.Err? <==> id in s.rows && Holds(s.rows[id], t) && POWER_OVERFLOW <= s.rows[id].attempts)
      && (r.Ok? ==> r.value == (id in s.rows && Holds(s.rows[id], t)))
    ensures var failed' := if r == Ok(true) then failed + {s.cycles[t].batch[i]} else failed;
      && FailedTallied(s', t, claimed, todo - {i}, failed', overflow || r.Err?)
      && |failed'| == |failed| + if r == Ok(true) then 1 else 0
  {
    forall id ensures Runs.ClaimedAfter(s', id, t) <==> Runs.ClaimedAfter(s, id, t) {
      SameClaims(s, s', t, id);
    }
    assert s.cycles[t].batch[i] !in failed;
  }

  /** Marks the reported rows published. */
  method ConfirmPublished(sh: SharedOutbox, t: nat, ids: seq<Uuid>, ghost claimed: seq<Row>, ghost todo: set<nat>,
                          ghost failed: set<Uuid>, ghost overflow: bool)
    returns (published: set<Uuid>)
    requires sh.Valid() && Progress(sh.State(), t, claimed, true, todo, {}, failed, overflow)
    requires SeqSet(ids) == Runs.Reported(sh.cycles[t])
    modifies sh, sh.table
    ensures sh.Valid() && Progress(sh.State(), t, claimed, false, todo, published, failed, overflow)
    ensures sh.cycles[t].batch == old(sh.cycles)[t].batch && sh.cycles[t].reports == old(sh.cycles)[t].reports
    ensures old(sh.log) <= sh.log
  {
    OthersMeanwhile(sh, t, claimed, true, todo, {}, failed, overflow);
    ghost var before := sh.State();
    var at: Time := *;
    MarkPublishedDisposes(before, t, claimed, todo, at);
    published := sh.MarkPublished(t, ids, at);
    PublishedIsTallied(before, sh.State(), t, claimed, todo, published, failed, overflow);
  }

  lemma PublishedIsTallied(s: Runs.State, s': Runs.State, t: nat, claimed: seq<Row>, todo: set<nat>,
                           published: set<Uuid>, failed: set<Uuid>, overflow: bool)
    requires t < |s.cycles| && |claimed| == |s.cycles[t].batch| == |s.cycles[t].reports| && s'.cycles == s.cycles
    requires Runs.CycleOk(s, t) && Tallied(s, t, claimed, true, todo, {}, failed, overflow)
    requires forall k :: 0 <= k < |claimed| ==> Holds(claimed[k], t)
    requires forall i :: 0 <= i < |claimed| && s.cycles[t].reports[i] ==>
      var id := s.cycles[t].batch[i]; Runs.ClaimedAfter(s, id, t) || (id in s.rows && s.rows[id] == claimed[i])
    requires published == set id | id in s.rows && id in Runs.Reported(s.cycles[t]) && Holds(s.rows[id], t)
    ensures Tallied(s', t, claimed, false, todo, published, failed, overflow)
  {
    forall id | Runs.ClaimedAfter(s, id, t) ensures Runs.ClaimedAfter(s', id, t) {
      SameClaims(s, s', t, id);
    }
    forall k | 0 <= k < |claimed| ensures s.cycles[t].batch[k] in Runs.Reported(s.cycles[t]) <==> s.cycles[t].reports[k] {
      OnlyReportedAreReported(s, t, k);
    }
  }

  /** Splits the batch by its reports into the ids to publish and the places to fail. */
  method SplitBatch(batch: seq<Uuid>, reports: seq<bool>) returns (publishedIds: seq<Uuid>, failing: set<nat>)
    requires |reports| == |batch|
    ensures publishedIds == Selected(batch, reports)
    ensures failing == set i: nat | i < |batch| && !reports[i]
  {
    publishedIds, failing := [], {};
    var i := 0;
    while i < |batch|
      invariant 0 <= i <= |batch| && publishedIds == Selected(batch[..i], reports[..i])
      invariant failing == set k: nat | k < i && !reports[k]
    {
      SelectedOneMore(batch, reports, i, publishedIds, reports[..i]);
      if reports[i] {
        publishedIds := publishedIds + [batch[i]];
      } else {
        failing := failing + {i};
      }
      i := i + 1;
    }
    assert reports[..i] == reports && batch[..i] == batch;
  }

  lemma NothingConfirmedYet(s: Runs.State, t: nat, claimed: seq<Row>, todo: set<nat>)
    requires t < |s.cycles| && s.cycles[t].returned && |claimed| == |s.cycles[t].batch| == |s.cycles[t].reports|
    requires forall i :: 0 <= i < |claimed| ==> Holds(claimed[i], t)
    requires forall i :: 0 <= i < |claimed| ==> Disposed(s, t, s.cycles[t].batch[i], claimed[i], s.cycles[t].reports[i], false)
    requires todo == set i: nat | i < |claimed| && !s.cycles[t].reports[i]
    ensures Progress(s, t, claimed, true, todo, {}, {}, false)
  {
  }

  /** Confirms a batch: its statements are under way together and take effect in any order. An overflow rejects at once, with
   *  the statements in `publishing` and `todo` still under way. */
  method ConfirmBatch(sh: SharedOutbox, t: nat, ghost claimed: seq<Row>)
    returns (published: nat, failed: nat, overflow: bool, publishing: bool, todo: set<nat>,
             ghost publishedRows: set<Uuid>, ghost failedRows: set<Uuid>)
    requires sh.Valid() && t < |sh.cycles| && sh.cycles[t].returned
    requires |claimed| == |sh.cycles[t].batch| == |sh.cycles[t].reports|
    requires forall i :: 0 <= i < |claimed| ==> Holds(claimed[i], t)
    requires forall i :: 0 <= i < |claimed| ==> Disposed(sh.State(), t, sh.cycles[t].batch[i], claimed[i], sh.cycles[t].reports[i], false)
    modifies sh, sh.table
    ensures sh.Valid() && t < |sh.cycles| && sh.cycles[t].batch == old(sh.cycles)[t].batch && sh.cycles[t].reports == old(sh.cycles)[t].reports
    ensures Progress(sh.State(), t, claimed, publishing, todo, publishedRows, failedRows, overflow)
    ensures !overflow ==> !publishing && todo == {}
    ensures published == |publishedRows| && failed == |failedRows| && old(sh.log) <= sh.log
  {
    var batch, reports := sh.cycles[t].batch, sh.cycles[t].reports;
    var publishedIds;
    publishedIds, todo := SplitBatch(batch, reports);
    SelectedElements(batch, reports);
    assert SeqSet(publishedIds) == Runs.Reported(sh.cycles[t]);
    NothingConfirmedYet(sh.State(), t, claimed, todo);
    publishing := true;
    published, failed, overflow, publishedRows, failedRows := 0, 0, false, {}, {};
    while publishing || todo != {}
      invariant sh.Valid() && Progress(sh.State(), t, claimed, publishing, todo, publishedRows, failedRows, overflow)
      invariant sh.cycles[t].batch == batch && sh.cycles[t].reports == reports && old(sh.log) <= sh.log
      invariant published == |publishedRows| && failed == |failedRows|
      decreases publishing, todo
    {
      var rejects: bool, first: bool := *, *;
      if overflow && rejects {
        break;
      }
      if publishing && (first || todo == {}) {
        var changed := ConfirmPublished(sh, t, publishedIds, claimed, todo, failedRows, overflow);
        publishing, published, publishedRows := false, |changed|, changed;
      } else {
        var i :| i in todo;
        var counted;
        counted, overflow, failedRows := ConfirmFailed(sh, t, i, claimed, publishing, todo, publishedRows, failedRows, overflow);
        todo := todo - {i};
        failed := failed + if counted then 1 else 0;
      }
    }
  }

  /** Publishes a claimed batch and confirms what came of it. */
  method PublishBatch(sh: SharedOutbox, t: nat, payloads: seq<Event>, w: Wire, ghost claimed: seq<Row>)
    returns (published: nat, failed: nat, overflow: bool, publishing: bool, todo: set<nat>,
             ghost publishedRows: set<Uuid>, ghost failedRows: set<Uuid>)
    requires sh.Valid() && t < |sh.cycles| && |payloads| == |claimed| == |sh.cycles[t].batch|
    requires sh.cycles[t] == Runs.Cycle(sh.cycles[t].batch, 0, Unanswered(|payloads|), false)
    requires forall i :: 0 <= i < |payloads| ==>
      sh.cycles[t].batch[i] in sh.committed && sh.committed[sh.cycles[t].batch[i]] == payloads[i]
    requires forall i :: 0 <= i < |claimed| ==>
      Holds(claimed[i], t) && sh.cycles[t].batch[i] in sh.table.rows && sh.table.rows[sh.cycles[t].batch[i]] == claimed[i]
    modifies sh, sh.table
    ensures sh.Valid() && t < |sh.cycles| && sh.cycles[t].batch == old(sh.cycles)[t].batch
    ensures Progress(sh.State(), t, claimed, publishing, todo, publishedRows, failedRows, overflow)
    ensures !overflow ==> !publishing && todo == {}
    ensures published == |publishedRows| && failed == |failedRows|
    ensures sh.cycles[t].reports == Reports(w, |payloads|)
    ensures Streamed(sh.log, t, sh.cycles[t].batch, payloads, w, Sent(w, |payloads|))
  {
    ghost var start, batch := sh.State(), sh.cycles[t].batch;
    var reports := Pipeline(sh, t, payloads, w);
    ghost var log := sh.log;
    KeptAreDisposed(start, sh.State(), t, claimed);
    published, failed, overflow, publishing, todo, publishedRows, failedRows := ConfirmBatch(sh, t, claimed);
    if !overflow {
      OthersMeanwhile(sh, t, claimed, false, {}, publishedRows, failedRows, false);
    }
    StreamedStays(log, sh.log, t, batch, payloads, w, Sent(w, |payloads|));
  }

  function ClaimedRows(rows: Table, batch: seq<Uuid>, t: nat, now: Time): seq<Row>
    requires forall i :: 0 <= i < |batch| ==> batch[i] in rows
  {
    seq(|batch|, i requires 0 <= i < |batch| => ClaimedRow(rows[batch[i]], t, now))
  }

  /** What a cycle is remembered by: its token, the rows at its claim, and whose marks it counted. */
  datatype Run = Run(token: nat, batch: seq<Uuid>, claimed: seq<Row>, publishing: bool, todo: set<nat>,
                     published: set<Uuid>, failed: set<Uuid>, countedAt: Time)

  /** The worker cycle, while other workers, commits and pruning go on. Each claimed row ends as its report says, unless a
   *  later cycle has claimed it; an error is the rejected promise of a backoff overflow, and may come while the marks in
   *  `publishing` and `todo` are still under way. */
  method RunCollabOutbox(sh: SharedOutbox, connected: bool, limit: nat, now: Time, timeoutMs: int, locked: set<Uuid>, w: Wire)
    returns (r: Result<(nat, nat, nat), ()>, ghost run: Run)
    requires sh.Valid()
    modifies sh, sh.table
    ensures sh.Valid()
    ensures !connected ==> r == Ok((0, 0, 0)) && sh.State() == old(sh.State())
    ensures connected ==> IsOldestBatch(old(sh.table.rows), ClaimableIds(old(sh.table.rows), locked, now, timeoutMs), limit, run.batch)
    ensures connected ==> run.token == |old(sh.cycles)| < |sh.cycles| && sh.cycles[run.token].batch == run.batch
    ensures connected ==> run.claimed == ClaimedRows(old(sh.table.rows), run.batch, run.token, now)
    ensures connected && run.batch != [] ==> Confirming(sh.State(), run.token, run.claimed, run.publishing, run.todo)
    ensures connected && run.batch != [] ==> sh.cycles[run.token].reports == Reports(w, |run.batch|)
    ensures connected && run.batch != [] ==>
      (forall id :: id in run.batch ==> id in old(sh.table.rows)) && |run.claimed| == |run.batch|
      && Streamed(sh.log, run.token, run.batch, PayloadsOf(old(sh.table.rows), run.batch), w, Sent(w, |run.batch|))
    ensures connected && run.batch != [] ==> forall i :: 0 <= i < |run.batch| && sh.cycles[run.token].reports[i] ==>
              Runs.SlotWritten(sh.log, run.token, i)
    ensures connected && run.batch != [] ==>
              Tallied(sh.State(), run.token, run.claimed, run.publishing, run.todo, run.published, run.failed, r.Err?)
    ensures r.Ok? ==> !run.publishing && run.todo == {}
    ensures connected && run.batch == [] ==> r.Ok? && run.published == run.failed == {}
    ensures connected && r.Ok? ==> r.value == (|run.published|, |run.failed|, |Waiting(sh.table.rows, run.countedAt)|)
    ensures connected && r.Ok? && (forall id :: id in run.batch ==> !Runs.ClaimedAfter(sh.State(), id, run.token)) ==>
              r.value.0 + r.value.1 == |run.batch|
  {
    if !connected {
      return Ok((0, 0, 0)), Run(0, [], [], false, {}, {}, {}, now);
    }
    Runs.Reachable(sh.steps, sh.State());
    var t, batch, payloads := sh.ClaimPending(limit, now, timeoutMs, locked);
    ghost var claimed := ClaimedRows(old(sh.table.rows), batch, t, now);
    if batch == [] {
      var pending := sh.table.CountPending(now);
      return Ok((0, 0, pending)), Run(t, batch, claimed, false, {}, {}, {}, now);
    }
    ClaimedAreHeld(old(sh.State()), Runs.Claim(batch, locked, limit, now, timeoutMs), sh.State(), claimed);
    var published, failed, overflow, publishing, todo;
    ghost var publishedRows, failedRows;
    published, failed, overflow, publishing, todo, publishedRows, failedRows := PublishBatch(sh, t, payloads, w, claimed);
    Runs.Reachable(sh.steps, sh.State());
    ReportedAreWritten(sh.State(), t);
    run := Run(t, batch, claimed, publishing, todo, publishedRows, failedRows, now);
    if overflow {
      return Err(()), run;
    }
    TallyAddsUp(sh.State(), t, claimed, publishedRows, failedRows, overflow);
    var later: Time := *;
    var pending := sh.table.CountPending(later);
    run := run.(countedAt := later);
    r := Ok((published, failed, pending));
  }

  lemma ClaimedAreHeld(s: Runs.State, step: Runs.Step, s': Runs.State, claimed: seq<Row>)
    requires Runs.RowsOk(s) && step.Claim? && Runs.Enabled(s, step) && s' == Runs.Next(s, step)
    requires claimed == ClaimedRows(s.rows, step.batch, |s.cycles|, step.now)
    ensures s'.cycles[|s.cycles|] == Runs.Cycle(step.batch, 0, Unanswered(|step.batch|), false)
    ensures forall i :: 0 <= i < |claimed| ==> Holds(claimed[i], |s.cycles|) && step.batch[i] in s'.rows && s'.rows[step.batch[i]] == claimed[i]
    ensures forall i :: 0 <= i < |claimed| ==> step.batch[i] in s'.committed && s'.committed[step.batch[i]] == s.rows[step.batch[i]].payload
  {
  }

  lemma KeptAreDisposed(s: Runs.State, s': Runs.State, t: nat, claimed: seq<Row>)
    requires t < |s.cycles| && |claimed| == |s.cycles[t].batch| && RowsKept(s, s', t)
    requires forall i :: 0 <= i < |claimed| ==>
      Holds(claimed[i], t) && s.cycles[t].batch[i] in s.rows && s.rows[s.cycles[t].batch[i]] == claimed[i]
    ensures forall i, reported :: 0 <= i < |claimed| ==> Disposed(s', t, s.cycles[t].batch[i], claimed[i], reported, false)
  {
    forall i, reported | 0 <= i < |claimed| ensures Disposed(s', t, s.cycles[t].batch[i], claimed[i], reported, false) {
      var r := s.cycles[t].batch[i];
      assert Runs.ClaimedAfter(s', r, t) || RowKept(s.rows, s'.rows, r);
    }
  }

  lemma ReportedAreWritten(s: Runs.State, t: nat)
    requires Runs.CyclesOk(s) && t < |s.cycles|
    ensures |s.cycles[t].reports| == |s.cycles[t].batch|
    ensures forall i :: 0 <= i < |s.cycles[t].batch| && s.cycles[t].reports[i] ==> Runs.SlotWritten(s.log, t, i)
  {
    assert Runs.CycleOk(s, t);
  }

  /** When nobody took a row over, all of the batch is counted. */
  lemma TallyAddsUp(s: Runs.State, t: nat, claimed: seq<Row>, published: set<Uuid>, failed: set<Uuid>, overflow: bool)
    requires Runs.CyclesOk(s) && t < |s.cycles| && |claimed| == |s.cycles[t].batch| == |s.cycles[t].reports|
    requires Tallied(s, t, claimed, false, {}, published, failed, overflow)
    ensures !overflow && (forall id :: id in s.cycles[t].batch ==> !Runs.ClaimedAfter(s, id, t)) ==>
              |published| + |failed| == |s.cycles[t].batch|
  {
    assert Runs.CycleOk(s, t);
    var batch := s.cycles[t].batch;
    DistinctSize(batch);
    assert forall i :: 0 <= i < |batch| ==> !(batch[i] in published && batch[i] in failed);
    assert published !! failed;
    assert |published + failed| == |published| + |failed|;
    if !overflow && forall id :: id in batch ==> !Runs.ClaimedAfter(s, id, t) {
      forall id | id in batch ensures id in published + failed {
        var i :| 0 <= i < |batch| && batch[i] == id;
      }
      assert published + failed == SeqSet(batch);
    }
  }
}
