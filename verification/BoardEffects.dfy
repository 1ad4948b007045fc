/** What the board operations do to a task as its users see it: progress, the cause of a block, the approval clock, and what the
 *  project shows. */
module BoardEffects {
  import opened Prelude
  import opened TaskProgress
  import opened Text
  import opened BoardTasks
  import opened BoardRuns

  // ------------------------------------------------------------ when it succeeds

  /** No two inputs name the same subtask, and none names a subtask of another task. */
  predicate NamesItsOwn(b: Board, id: Uuid, inputs: seq<SubtaskInput>) {
    && (forall i, j :: 0 <= i < j < |inputs| && inputs[i].id.Some? ==> inputs[i].id != inputs[j].id)
    && (forall i :: 0 <= i < |inputs| && inputs[i].id.Some? && inputs[i].id.value in b.subtasks ==>
          b.subtasks[inputs[i].id.value].taskId == id)
  }

  /** A final column refuses a task with more than one in two hundred subtasks open. */
  predicate Admits(key: ColumnKey, total: nat, completed: nat) {
    (key == DoneKey || key == CompletedKey) && 0 < total ==> 200 * (total - completed) <= total
  }

  lemma NamesItsOwnExactlyWhen(b: Board, id: Uuid, inputs: seq<SubtaskInput>)
    ensures NamesItsOwn(b, id, inputs) <==> !HasDuplicateIds(inputs) && !HasForeignId(b.subtasks, id, inputs)
  {
  }

  /** A creation succeeds exactly in a column of the board that admits the task, with subtasks of its own; the row says what was
   *  asked for, and nothing about blocks and approvals. */
  lemma CreateSucceedsExactlyWhen(b: Board, op: Op)
    requires op.Create? && Valid(b, op)
    ensures Outcome(b, op).Ok? <==>
      && op.p.columnId in b.columns && Admits(b.columns[op.p.columnId], |op.p.subtasks|, CountCompleted(op.p.subtasks))
      && NamesItsOwn(b, op.id, op.p.subtasks)
    ensures Outcome(b, op).Ok? ==>
      && op.id in Apply(b, op).tasks
      && var t := Apply(b, op).tasks[op.id];
         && t.columnId == op.p.columnId && t.title == op.p.title && t.isClientVisible == op.p.isClientVisible
         && NoBlockData(t) && t.approvalRequestedAt == None && t.updatedAt == op.now
  {
    NamesItsOwnExactlyWhen(b, op.id, op.p.subtasks);
    if op.p.columnId in b.columns {
      GateHolds(b.columns[op.p.columnId], |op.p.subtasks|, CountCompleted(op.p.subtasks), op.p.checklistProgress, None, op.now);
    }
  }

  /** An update succeeds exactly when the task is there, its old and new columns are, the new one admits it with the subtasks it
   *  then has, and the subtasks given are its own. */
  lemma UpdateSucceedsExactlyWhen(b: Board, op: Op)
    requires Derived(b) && op.Update? && Valid(b, op)
    ensures Outcome(b, op).Ok? <==>
      && op.id in b.tasks && UpdateTarget(b, op) in b.columns
      && Admits(b.columns[UpdateTarget(b, op)], UpdateTotal(b, op), UpdateCompleted(b, op))
      && (op.patch.subtasks.Some? ==> NamesItsOwn(b, op.id, op.patch.subtasks.value))
  {
    if op.patch.subtasks.Some? {
      NamesItsOwnExactlyWhen(b, op.id, op.patch.subtasks.value);
    }
    if op.id in b.tasks && UpdateTarget(b, op) in b.columns {
      assert ProgressOk(b, op.id);
      CompletedAreStored(b.subtasks, op.id);
      GateHolds(b.columns[UpdateTarget(b, op)], UpdateTotal(b, op), UpdateCompleted(b, op),
                op.patch.checklistProgress.GetOr(b.tasks[op.id].checklistProgress), b.tasks[op.id].completedAt, op.now);
    }
  }

  /** A task can be blocked whenever the board has a column for it; unblocked, it goes to the column asked for, else to one in
   *  progress, else to a pending one. */
  lemma MoveSucceedsExactlyWhen(b: Board, op: Op)
    requires (op.Block? || op.Unblock?) && Valid(b, op)
    ensures op.Block? ==> (Outcome(b, op).Ok? <==> op.id in b.tasks && exists c :: c in b.columns && b.columns[c] == BlockedKey)
    ensures op.Unblock? && op.target.Some? ==>
      (Outcome(b, op).Ok? <==> op.id in b.tasks && op.target.value in b.columns && b.columns[op.target.value] != BlockedKey)
    ensures op.Unblock? && op.target.None? ==>
      (Outcome(b, op).Ok? <==>
         op.id in b.tasks && exists c :: c in b.columns && (b.columns[c] == DoingKey || b.columns[c] == PendingKey))
    ensures op.Unblock? && Outcome(b, op).Ok? ==>
      var c := Apply(b, op).tasks[op.id].columnId;
      && (op.target.Some? ==> c == op.target.value)
      && (op.target.None? ==>
            c in b.columns && b.columns[c] == if exists d :: d in b.columns && b.columns[d] == DoingKey then DoingKey else PendingKey)
  {
    if op.Unblock? && Outcome(b, op).Ok? {
      UnblockEffect(b, op);
    }
  }

  // ------------------------------------------------------------------- progress

  /** Does the update leave a task without subtasks? */
  predicate WithoutSubtasks(b: Board, op: Op)
    requires op.Update?
  {
    if op.patch.subtasks.Some? then op.patch.subtasks.value == [] else StoredOf(b.subtasks, op.id) == {}
  }

  /** A task without subtasks outside a final column keeps its progress unless the update names one, which is then stored; only
   *  100 becomes 0. */
  lemma UpdateStoresProgress(b: Board, op: Op)
    requires Derived(b) && op.Update? && Valid(b, op) && Outcome(b, op).Ok? && WithoutSubtasks(b, op)
    requires b.columns[UpdateTarget(b, op)] != DoneKey && b.columns[UpdateTarget(b, op)] != CompletedKey
    ensures var before, after := b.tasks[op.id].checklistProgress, Apply(b, op).tasks[op.id].checklistProgress;
            match op.patch.checklistProgress
            case None => after == if before < 100 then before else 0
            case Some(given) => after == if given < 100 then given else 0
  {
    UpdateEffect(b, op);
    ResolvedWithoutSubtasks(b, op);
  }

  lemma ResolvedWithoutSubtasks(b: Board, op: Op)
    requires Derived(b) && op.Update? && Valid(b, op) && WithoutSubtasks(b, op) && op.id in b.tasks
    requires UpdateTarget(b, op) in b.columns && UpdateResolved(b, op).Ok?
    requires b.columns[UpdateTarget(b, op)] != DoneKey && b.columns[UpdateTarget(b, op)] != CompletedKey
    ensures var given := op.patch.checklistProgress.GetOr(b.tasks[op.id].checklistProgress);
            UpdateResolved(b, op).value.progress == if given < 100 then given else 0
  {
    assert ProgressOk(b, op.id);
    assert UpdateTotal(b, op) == 0;
    CompletedAreStored(b.subtasks, op.id);
    GateHolds(b.columns[UpdateTarget(b, op)], UpdateTotal(b, op), UpdateCompleted(b, op),
              op.patch.checklistProgress.GetOr(b.tasks[op.id].checklistProgress), b.tasks[op.id].completedAt, op.now);
  }

  lemma CreateStoresProgress(b: Board, op: Op)
    requires op.Create? && Valid(b, op) && Outcome(b, op).Ok? && op.p.subtasks == []
    requires b.columns[op.p.columnId] != DoneKey && b.columns[op.p.columnId] != CompletedKey
    ensures Apply(b, op).tasks[op.id].checklistProgress == if op.p.checklistProgress < 100 then op.p.checklistProgress else 0
  {
    CreateEffect(b, op);
    GateHolds(b.columns[op.p.columnId], 0, 0, op.p.checklistProgress, None, op.now);
  }

  // ----------------------------------------------------------- the cause of a block

  /** The words stored for a reason somebody gave or did not give. */
  predicate IsReason(stored: Option<string>, given: Option<string>) {
    stored == Some(if given.Some? && NonBlank(given.value) then Trim(given.value) else "Impedimento interno")
  }

  lemma GivenReason(given: Option<string>)
    ensures IsReason(Some(ReasonOrDefault(given)), given)
  {
    StoredTextIsNonBlank(given);
  }

  /** An update into the blocked column records reason, type, time and person; one within it changes only the reason and type it
   *  gives; one out of it forgets all four; any other leaves them alone. */
  lemma UpdateRecordsTheCause(b: Board, op: Op)
    requires op.Update? && Valid(b, op) && Outcome(b, op).Ok?
    ensures var t, t' := b.tasks[op.id], Apply(b, op).tasks[op.id];
            var from, to := b.columns[t.columnId], b.columns[t'.columnId];
            var reason, kind := op.patch.blockReason, op.patch.blockType;
            if from != BlockedKey && to == BlockedKey then
              && IsReason(t'.blockReason, reason.GetOr(None)) && t'.blockedAt == Some(op.now) && t'.blockedBySub == Some(op.actor)
              && t'.blockType == Some(if kind.Some? && kind.value.Some? then kind.value.value else InternalImpediment)
            else if to == BlockedKey then
              && (if reason.Some? then IsReason(t'.blockReason, reason.value) else t'.blockReason == t.blockReason)
              && t'.blockType == (if kind.Some? && kind.value.Some? then kind.value else t.blockType)
              && t'.blockedAt == t.blockedAt && t'.blockedBySub == t.blockedBySub
            else if from == BlockedKey then NoBlockData(t')
            else t'.blockReason == t.blockReason && t'.blockType == t.blockType
                 && t'.blockedAt == t.blockedAt && t'.blockedBySub == t.blockedBySub
  {
    UpdateEffect(b, op);
    GivenReason(op.patch.blockReason.GetOr(None));
    if op.patch.blockReason.Some? {
      GivenReason(op.patch.blockReason.value);
    }
  }

  /** Blocking, unblocking and the timeout change where a task stands and why, and neither its title nor its progress nor when it
   *  was completed. */
  lemma MovesKeepTheWork(b: Board, op: Op, t: Uuid)
    requires Valid(b, op) && (op.Block? || op.Unblock? || op.Sla?) && Outcome(b, op).Ok? && t in b.tasks
    ensures t in Apply(b, op).tasks
    ensures var was, row := b.tasks[t], Apply(b, op).tasks[t];
            && row.title == was.title && row.checklistProgress == was.checklistProgress && row.completedAt == was.completedAt
            && (op.Block? && op.id == t ==>
                  KeyOf(Apply(b, op), t) == BlockedKey && row.blockReason == Some(op.reason) && row.blockType == Some(InternalImpediment)
                  && row.blockedAt == Some(op.now) && row.blockedBySub == Some(op.actor))
            && (op.Unblock? && op.id == t ==> KeyOf(Apply(b, op), t) != BlockedKey && NoBlockData(row))
            && (op.Sla? && t in op.ids && HasColumn(b, BlockedKey) ==>
                  KeyOf(Apply(b, op), t) == BlockedKey && row.blockType == Some(ClientTimeout) && row.blockedAt == Some(op.now)
                  && row.blockedBySub == None && row.isClientVisible && row.updatedAt == op.now
                  && row.blockReason == Some(TIMEOUT_REASON))
            && ((!op.Sla? && op.id != t) || (op.Sla? && t !in op.ids) ==> row == was)
  {
    if op.Block? {
      BlockEffect(b, op);
    } else if op.Unblock? {
      UnblockEffect(b, op);
    }
  }

  /** An update changes the title, column and visibility it names; going to the client makes a task visible. */
  lemma UpdateChangesWhatItNames(b: Board, op: Op)
    requires op.Update? && Valid(b, op) && Outcome(b, op).Ok?
    ensures var t, t' := b.tasks[op.id], Apply(b, op).tasks[op.id];
            && t'.title == (if op.patch.title.Some? then op.patch.title.value else t.title)
            && t'.columnId == (if op.patch.columnId.Some? then op.patch.columnId.value else t.columnId)
            && t'.isClientVisible ==
                 if b.columns[t'.columnId] == ClientApprovalKey && b.columns[t.columnId] != ClientApprovalKey then true
                 else if op.patch.isClientVisible.Some? then op.patch.isClientVisible.value else t.isClientVisible
  {
    UpdateEffect(b, op);
  }

  // ------------------------------------------------------------ the approval clock

  /** A task that has been with the client since `since`. */
  predicate WithClientSince(b: Board, t: Uuid, since: Time) {
    t in b.tasks && KeyOf(b, t) == ClientApprovalKey && b.tasks[t].approvalRequestedAt == Some(since)
  }

  /** The clock starts when an update moves a task to the client or an unblocking sends it there. */
  lemma ApprovalStarts(b: Board, op: Op)
    requires Structured(b) && Valid(b, op) && (op.Update? || op.Unblock?) && Outcome(b, op).Ok?
    requires KeyOf(Apply(b, op), op.id) == ClientApprovalKey && (op.Update? ==> KeyOf(b, op.id) != ClientApprovalKey)
    ensures WithClientSince(Apply(b, op), op.id, op.now)
  {
    if op.Update? {
      UpdateEffect(b, op);
    } else {
      UnblockEffect(b, op);
    }
  }

  /** Does the task stay with the client all along, and is it never sent there anew? */
  ghost predicate StaysWithClient(b: Board, ops: seq<Op>, t: Uuid)
    decreases |ops|
  {
    t in b.tasks && KeyOf(b, t) == ClientApprovalKey
    && (ops == [] || (Valid(b, ops[0]) && !(ops[0].Unblock? && ops[0].id == t) && StaysWithClient(Apply(b, ops[0]), ops[1..], t)))
  }

  lemma ApprovalGoesOn(b: Board, op: Op, t: Uuid, since: Time)
    requires Structured(b) && Valid(b, op) && WithClientSince(b, t, since) && !(op.Unblock? && op.id == t)
    requires t in Apply(b, op).tasks && KeyOf(Apply(b, op), t) == ClientApprovalKey
    ensures WithClientSince(Apply(b, op), t, since)
  {
    if Outcome(b, op).Ok? {
      match op
      case Create(_, _, _, _) => CreateEffect(b, op);
      case Update(_, _, _, _, _) => UpdateEffect(b, op);
      case Block(_, _, _, _) => BlockEffect(b, op);
      case Unblock(_, _, _) => UnblockEffect(b, op);
      case Sla(_, _, _) =>
    }
  }

  /** Whatever else is done to it or to other tasks meanwhile, a task is overdue from exactly one timeout after it went to the
   *  client. */
  lemma {:induction false} OverdueExactlyWhen(b: Board, ops: seq<Op>, b': Board, t: Uuid, since: Time, now: Time, timeoutMs: int)
    requires Derived(b) && Reaches(b, ops, b') && WithClientSince(b, t, since) && StaysWithClient(b, ops, t)
    ensures t in Overdue(b', now, timeoutMs) <==> since + timeoutMs <= now
    decreases |ops|
  {
    if ops != [] {
      ApprovalGoesOn(b, ops[0], t, since);
      StepKeepsDerived(b, ops[0]);
      OverdueExactlyWhen(Apply(b, ops[0]), ops[1..], b', t, since, now, timeoutMs);
    }
  }

  /** A task created with the client has no such time; its clock starts anew with every update. */
  lemma CreatedWithClientWaitsFromItsLastChange(b: Board, op: Op, now: Time, timeoutMs: int)
    requires Structured(b) && Valid(b, op) && (op.Create? || op.Update?) && Outcome(b, op).Ok?
    requires KeyOf(Apply(b, op), op.id) == ClientApprovalKey
    requires op.Update? ==> KeyOf(b, op.id) == ClientApprovalKey && b.tasks[op.id].approvalRequestedAt.None?
    ensures op.id in Overdue(Apply(b, op), now, timeoutMs) <==> op.now + timeoutMs <= now
  {
    if op.Create? {
      CreateEffect(b, op);
    } else {
      UpdateEffect(b, op);
    }
  }

  // ------------------------------------------------------- what the project shows

  /** The status by its meaning: completed when there are tasks and all are done, in review when one waits for the client, in
   *  progress when one is not pending. */
  lemma StatusExactly(keys: map<Uuid, ColumnKey>)
    ensures StatusOf(keys) == Completed <==> keys != map[] && forall t :: t in keys ==> keys[t] == DoneKey
    ensures StatusOf(keys) == InReview <==> exists t :: t in keys && keys[t] == ClientApprovalKey
    ensures StatusOf(keys) == Todo <==> forall t :: t in keys ==> keys[t] == PendingKey
  {
    AllOrNotAll(keys, DoneKey);
    AllOrNotAll(keys, PendingKey);
    if keys == map[] {
      assert WithKey(keys, ClientApprovalKey) == {} && WithKey(keys, PendingKey) == {};
    } else {
      var t :| t in keys;
      assert keys[t] == DoneKey ==> t !in WithKey(keys, PendingKey);
    }
    if t :| t in keys && keys[t] == ClientApprovalKey {
      assert t in WithKey(keys, ClientApprovalKey);
    }
  }

  lemma AllOrNotAll(keys: map<Uuid, ColumnKey>, key: ColumnKey)
    ensures |WithKey(keys, key)| == |keys| <==> forall t :: t in keys ==> keys[t] == key
    ensures |WithKey(keys, key)| <= |keys|
  {
    assert |keys.Keys| == |keys|;
    SubsetSize(WithKey(keys, key), keys.Keys);
    if |WithKey(keys, key)| == |keys| {
      AllHaveKey(keys, key);
    }
    if forall t :: t in keys ==> keys[t] == key {
      assert WithKey(keys, key) == keys.Keys;
    }
  }

  /** The project progress is the average of the scores rounded to the nearest whole number, halves upwards. */
  lemma AverageIsNearest(score: map<Uuid, int>, low: nat, high: nat)
    requires score != map[] && forall t :: t in score ==> low <= score[t] <= high
    ensures var n, sum, p := |score|, Sum(score.Keys, score), Average(score);
            0 < n && (2 * p - 1) * n <= 2 * sum < (2 * p + 1) * n
  {
    SumBounds(score.Keys, score, low, high);
    assert |score.Keys| == |score| && score.Keys != {};
    AverageBounds(score, low, high);
    RoundedIsNearest(Sum(score.Keys, score), |score|, Average(score));
  }

  lemma RoundedIsNearest(sum: int, n: nat, p: nat)
    requires 0 < n && 0 <= sum && p == Rounded(sum, n)
    ensures (2 * p - 1) * n <= 2 * sum < (2 * p + 1) * n
  {
    QuotientAtLeast(2 * sum + n, 2 * n, p);
    QuotientAtLeast(2 * sum + n, 2 * n, p + 1);
    assert p * (2 * n) == 2 * p * n && (p + 1) * (2 * n) == 2 * p * n + 2 * n;
    assert (2 * p - 1) * n == 2 * p * n - n && (2 * p + 1) * n == 2 * p * n + n;
  }

  /** Creations, moves and updates that name column, progress or subtasks leave the project with the summary of its tasks, whatever
   *  it showed before. */
  lemma RequestsRefreshTheSummary(b: Board, op: Op)
    requires Valid(b, op) && !op.Sla? && Outcome(b, op).Ok?
    requires op.Update? ==> op.patch.columnId.Some? || op.patch.checklistProgress.Some? || op.patch.subtasks.Some?
    ensures Synced(Apply(b, op))
  {
    SyncMakesSynced(Apply(b, op).(summary := b.summary));
    match op
    case Create(_, _, _, _) => CreateEffect(b, op);
    case Update(_, _, _, _, _) => UpdateEffect(b, op);
    case Block(_, _, _, _) => BlockEffect(b, op);
    case Unblock(_, _, _) => UnblockEffect(b, op);
  }

  /** What a project shows whose tasks all stand in one column and have no subtasks. */
  lemma {:induction false} OneColumnProject(b: Board, key: ColumnKey)
    requires b.tasks != map[] && forall t :: t in b.tasks ==> KeyOf(b, t) == key && StoredOf(b.subtasks, t) == {}
    ensures Aggregate(b) ==
      if key == PendingKey then Summary(Todo, 0)
      else if key == DoingKey then Summary(InProgress, 25)
      else if key == InternalReviewKey then Summary(InProgress, 50)
      else if key == ClientApprovalKey then Summary(InReview, 75)
      else if key == BlockedKey then Summary(InProgress, 10)
      else if key == DoneKey then Summary(Completed, 100)
      else Summary(InProgress, 0)
  {
    var t :| t in b.tasks;
    assert t in Keys(b) && t in Scores(b);
    assert Keys(b)[t] == key && Scores(b)[t] == Score(b, t);
    StatusExactly(Keys(b));
    var score := Scores(b)[t];
    AverageBounds(Scores(b), score, score);
  }

  /** What a task with subtasks contributes is the progress of its subtasks, wherever it stands. */
  lemma SubtasksDecideTheScore(b: Board, t: Uuid)
    requires Derived(b) && t in b.tasks && StoredOf(b.subtasks, t) != {}
    ensures Scores(b)[t] == ChecklistProgress(|StoredOf(b.subtasks, t)|, |CompletedOf(b.subtasks, t)|)
  {
    assert ProgressOk(b, t);
  }
}
