/** Runs of valid operations on a new board that end where an invariant would not: what the exact conditions shut out can
 *  happen. */
module BoardCounterexamples {
  import opened Prelude
  import opened TaskProgress
  import opened Text
  import opened BoardTasks
  import opened BoardRuns

  // ------------------------------------------------------------- boards with one task

  lemma OneTask(b: Board, t: Uuid, key: ColumnKey, score: nat)
    requires b.tasks.Keys == {t} && KeyOf(b, t) == key && Score(b, t) == score
    ensures Aggregate(b) == Summary(
      if key == DoneKey then Completed else if key == ClientApprovalKey then InReview
      else if key != PendingKey then InProgress else Todo, score)
  {
    assert Scores(b) == map[t := score] && Keys(b) == map[t := key];
    OneScore(t, score);
    OneKey(t, key);
  }

  lemma OneScore(t: Uuid, score: nat)
    ensures Average(map[t := score]) == score
  {
    assert t in map[t := score];
    AverageBounds(map[t := score], score, score);
  }

  lemma OneKey(t: Uuid, key: ColumnKey)
    ensures StatusOf(map[t := key]) ==
      if key == DoneKey then Completed else if key == ClientApprovalKey then InReview
      else if key != PendingKey then InProgress else Todo
  {
    forall k ensures WithKey(map[t := key], k) == if key == k then {t} else {} {
    }
  }

  lemma TwoSteps(b: Board, first: Op, second: Op)
    requires Valid(b, first) && Valid(Apply(b, first), second)
    ensures Reaches(b, [first, second], Apply(Apply(b, first), second))
  {
    var b' := Apply(Apply(b, first), second);
    assert Reaches(b', [], b');
    assert Reaches(Apply(b, first), [second], b');
    assert [first, second][1..] == [second];
  }

  /** The board after the first creation, of a task without subtasks. */
  lemma FirstTask(columns: map<Uuid, ColumnKey>, t: Uuid, column: Uuid, now: Time)
    requires column in columns
    ensures var op := Create(t, NewTask(column, "", 0, [], true), [], now);
      && Valid(EmptyBoard(columns), op) && Outcome(EmptyBoard(columns), op).Ok?
      && var b, final := Apply(EmptyBoard(columns), op), IsFinal(columns[column]);
         && b.columns == columns && b.subtasks == map[] && Synced(b)
         && b.tasks == map[t := Task(column, "", if final then 100 else 0, None, None, None, None, None, true,
                                     if final then Some(now) else None, now)]
  {
    var op := Create(t, NewTask(column, "", 0, [], true), [], now);
    assert Valid(EmptyBoard(columns), op);
    EmptyBoardIsInOrder(columns);
    RequestKeepsSynced(EmptyBoard(columns), op);
    CreateEffect(EmptyBoard(columns), op);
  }

  // ------------------------------------------------------------------ stale summary

  /** One task without subtasks waits for the client since `since`, and the project shows it. */
  ghost predicate ShowsWaiting(b: Board, t: Uuid, blocked: Uuid, since: Time) {
    && b.tasks.Keys == {t} && b.subtasks == map[] && KeyOf(b, t) == ClientApprovalKey
    && b.tasks[t].approvalRequestedAt.GetOr(b.tasks[t].updatedAt) == since
    && blocked in b.columns && b.columns[blocked] == BlockedKey && b.summary == Summary(InReview, 75)
  }

  lemma FirstTaskWaits(t: Uuid, review: Uuid, blocked: Uuid, since: Time)
    requires review != blocked
    ensures var create := Create(t, NewTask(review, "", 0, [], true), [], since);
      var b := EmptyBoard(map[review := ClientApprovalKey, blocked := BlockedKey]);
      Valid(b, create) && ShowsWaiting(Apply(b, create), t, blocked, since)
  {
    var b := EmptyBoard(map[review := ClientApprovalKey, blocked := BlockedKey]);
    FirstTask(b.columns, t, review, since);
    OneTask(Apply(b, Create(t, NewTask(review, "", 0, [], true), [], since)), t, ClientApprovalKey, 75);
  }

  /** A task is created in review and nobody answers: after the timeout the project keeps showing 75 percent in review,
   *  truly it is at 10 in progress. */
  lemma {:induction false} TimeoutJobCanLeaveSummaryStale(t: Uuid, review: Uuid, blocked: Uuid, since: Time, timeoutMs: int)
    returns (ops: seq<Op>, b: Board)
    requires review != blocked
    ensures Reaches(EmptyBoard(map[review := ClientApprovalKey, blocked := BlockedKey]), ops, b)
    ensures b.summary == Summary(InReview, 75) && Aggregate(b) == Summary(InProgress, 10)
  {
    var empty := EmptyBoard(map[review := ClientApprovalKey, blocked := BlockedKey]);
    var create := Create(t, NewTask(review, "", 0, [], true), [], since);
    FirstTaskWaits(t, review, blocked, since);
    b := WaitingGoesStale(Apply(empty, create), t, blocked, since, timeoutMs);
    TwoSteps(empty, create, Sla({t}, since + timeoutMs, timeoutMs));
    ops := [create, Sla({t}, since + timeoutMs, timeoutMs)];
  }

  lemma WaitingGoesStale(waiting: Board, t: Uuid, blocked: Uuid, since: Time, timeoutMs: int) returns (b: Board)
    requires ShowsWaiting(waiting, t, blocked, since)
    ensures var sla := Sla({t}, since + timeoutMs, timeoutMs); Valid(waiting, sla) && b == Apply(waiting, sla)
    ensures b.summary == Summary(InReview, 75) && Aggregate(b) == Summary(InProgress, 10)
  {
    var sla := Sla({t}, since + timeoutMs, timeoutMs);
    OneIsOverdue(waiting, t, since, timeoutMs);
    b := Apply(waiting, sla);
    SlaIsTheCheck(waiting, sla);
    TimeoutOfOne(waiting, t, blocked, since + timeoutMs, b);
  }

  lemma SlaIsTheCheck(b: Board, op: Op)
    requires op.Sla? && Valid(b, op)
    ensures Apply(b, op) == CheckSla(b, op.ids, op.now)
  {
  }

  lemma OneIsOverdue(b: Board, t: Uuid, since: Time, timeoutMs: int)
    requires b.tasks.Keys == {t} && KeyOf(b, t) == ClientApprovalKey
    requires b.tasks[t].approvalRequestedAt.GetOr(b.tasks[t].updatedAt) <= since
    ensures Valid(b, Sla({t}, since + timeoutMs, timeoutMs))
  {
    assert t in Overdue(b, since + timeoutMs, timeoutMs);
  }

  lemma TimeoutOfOne(b: Board, t: Uuid, blocked: Uuid, now: Time, b': Board)
    requires b.tasks.Keys == {t} && b.subtasks == map[] && blocked in b.columns && b.columns[blocked] == BlockedKey
    requires b' == CheckSla(b, {t}, now)
    ensures b'.summary == b.summary && Aggregate(b') == Summary(InProgress, 10)
  {
    TimeoutEffect(b, {t}, now);
    BlockedAlone(b', t);
  }

  lemma BlockedAlone(b: Board, t: Uuid)
    requires b.tasks.Keys == {t} && b.subtasks == map[] && KeyOf(b, t) == BlockedKey
    ensures Aggregate(b) == Summary(InProgress, 10)
  {
    OneTask(b, t, BlockedKey, 10);
  }

  // --------------------------------------------------------------------- open gate

  /** A task is created as done and blocked: it keeps its completion time outside the final column. */
  lemma {:induction false} CompletedTaskCanBeBlocked(t: Uuid, done: Uuid, blocked: Uuid, reason: string, actor: Uuid, now: Time)
    returns (ops: seq<Op>, b: Board)
    requires done != blocked && NonBlank(reason)
    ensures Reaches(EmptyBoard(map[done := DoneKey, blocked := BlockedKey]), ops, b)
    ensures t in b.tasks && KeyOf(b, t) == BlockedKey && b.tasks[t].completedAt == Some(now) && !GateOk(b, t)
  {
    var columns := map[done := DoneKey, blocked := BlockedKey];
    var create := Create(t, NewTask(done, "", 0, [], true), [], now);
    FirstTask(columns, t, done, now);
    var finished := Apply(EmptyBoard(columns), create);
    var block := Block(t, reason, actor, now);
    BlockDone(finished, t, blocked, reason, actor, now);
    TwoSteps(EmptyBoard(columns), create, block);
    ops, b := [create, block], Apply(finished, block);
  }

  lemma BlockDone(b: Board, t: Uuid, blocked: Uuid, reason: string, actor: Uuid, now: Time)
    requires t in b.tasks && b.tasks[t].completedAt.Some? && NonBlank(reason)
    requires blocked in b.columns && b.columns[blocked] == BlockedKey
    ensures var b' := Apply(b, Block(t, reason, actor, now));
      t in b'.tasks && KeyOf(b', t) == BlockedKey && b'.tasks[t].completedAt == b.tasks[t].completedAt && !GateOk(b', t)
  {
    BlockEffect(b, Block(t, reason, actor, now));
  }

  /** An open task is unblocked into the final column: the project counts as completed at zero percent. */
  lemma {:induction false} UnfinishedTaskCanBeUnblockedIntoDone(t: Uuid, pending: Uuid, done: Uuid, s: Uuid, now: Time)
    returns (ops: seq<Op>, b: Board)
    requires pending != done
    ensures Reaches(EmptyBoard(map[pending := PendingKey, done := DoneKey]), ops, b)
    ensures t in b.tasks && KeyOf(b, t) == DoneKey && b.tasks[t].completedAt.None? && !GateOk(b, t)
    ensures StoredOf(b.subtasks, t) == {s} && CompletedOf(b.subtasks, t) == {}
    ensures b.summary == Summary(Completed, 0)
  {
    var columns := map[pending := PendingKey, done := DoneKey];
    var create := Create(t, NewTask(pending, "", 0, [SubtaskInput(None, "", false, None, None)], true), [s], now);
    OpenTask(columns, t, pending, s, now);
    var open := Apply(EmptyBoard(columns), create);
    var unblock := Unblock(t, Some(done), now);
    UnblockOpenTask(open, t, done, now);
    TwoSteps(EmptyBoard(columns), create, unblock);
    ops, b := [create, unblock], Apply(open, unblock);
  }

  lemma UnblockOpenTask(b: Board, t: Uuid, done: Uuid, now: Time)
    requires Derived(b) && Synced(b) && b.tasks.Keys == {t} && done in b.columns && b.columns[done] == DoneKey
    requires StoredOf(b.subtasks, t) != {} && b.tasks[t].completedAt.None? && b.tasks[t].checklistProgress == 0
    ensures var b' := Apply(b, Unblock(t, Some(done), now));
      && b'.subtasks == b.subtasks && t in b'.tasks && KeyOf(b', t) == DoneKey && b'.tasks[t].completedAt.None? && !GateOk(b', t)
      && b'.summary == Summary(Completed, 0)
  {
    var unblock := Unblock(t, Some(done), now);
    UnblockEffect(b, unblock);
    RequestKeepsSynced(b, unblock);
    OneTask(Apply(b, unblock), t, DoneKey, 0);
  }

  lemma OpenTask(columns: map<Uuid, ColumnKey>, t: Uuid, column: Uuid, s: Uuid, now: Time)
    requires column in columns && !IsFinal(columns[column])
    ensures var op := Create(t, NewTask(column, "", 0, [SubtaskInput(None, "", false, None, None)], true), [s], now);
      && Valid(EmptyBoard(columns), op) && Outcome(EmptyBoard(columns), op).Ok?
      && var b := Apply(EmptyBoard(columns), op);
         && b.columns == columns && Derived(b) && Synced(b)
         && StoredOf(b.subtasks, t) == {s} && CompletedOf(b.subtasks, t) == {}
         && b.tasks == map[t := Task(column, "", 0, None, None, None, None, None, true, None, now)]
  {
    var input := SubtaskInput(None, "", false, None, None);
    var op := Create(t, NewTask(column, "", 0, [input], true), [s], now);
    var empty := EmptyBoard(columns);
    EmptyBoardIsInOrder(columns);
    assert Valid(empty, op);
    OneOpenSubtask(t, input, s);
    CreateEffect(empty, op);
    RequestKeepsSynced(empty, op);
    StepKeepsDerived(empty, op);
  }

  lemma OneOpenSubtask(t: Uuid, input: SubtaskInput, s: Uuid)
    requires input == SubtaskInput(None, "", false, None, None)
    ensures CountCompleted([input]) == 0 && ChecklistProgress(1, 0) == 0
    ensures UpsertSubtasks(map[], t, [input], [s]) == Ok(map[s := Subtask(t, "", false, None, 0)])
  {
    assert [input][..0] == [];
    assert Inserted(map[], map[], t, [input], [s], 0) == map[];
  }
}
