/** What every run of board operations keeps, one operation after the other. */
module BoardRuns {
  import opened Prelude
  import opened TaskProgress
  import opened Text
  import opened BoardTasks

  datatype Op =
    | Create(id: Uuid, p: NewTask, newIds: seq<Uuid>, now: Time)
    | Update(id: Uuid, patch: Patch, actor: Uuid, newIds: seq<Uuid>, now: Time)
    | Block(id: Uuid, reason: string, actor: Uuid, now: Time)
    | Unblock(id: Uuid, target: Option<Uuid>, now: Time)
    | Sla(ids: set<Uuid>, now: Time, timeoutMs: int)

  /** What the request validation and the database guarantee about an operation before it runs. */
  ghost predicate Valid(b: Board, op: Op) {
    match op
    case Create(id, p, newIds, _) =>
      id !in b.tasks && 0 <= p.checklistProgress <= 100 && FreshIds(b.subtasks, p.subtasks, newIds)
    case Update(_, p, _, newIds, _) =>
      && (p.checklistProgress.Some? ==> 0 <= p.checklistProgress.value <= 100)
      && (p.subtasks.Some? ==> FreshIds(b.subtasks, p.subtasks.value, newIds))
    case Block(_, reason, _, _) => NonBlank(reason)
    case Unblock(_, _, _) => true
    case Sla(ids, now, timeoutMs) => ids <= Overdue(b, now, timeoutMs) && |ids| <= SLA_LIMIT
  }

  ghost function Outcome(b: Board, op: Op): Result<Board, Error>
    requires Valid(b, op)
  {
    match op
    case Create(id, p, newIds, now) => CreateTask(b, id, p, newIds, now)
    case Update(id, p, actor, newIds, now) => UpdateTask(b, id, p, actor, newIds, now)
    case Block(id, reason, actor, now) => BlockTask(b, id, reason, actor, now)
    case Unblock(id, target, now) => UnblockTask(b, id, target, now)
    case Sla(ids, now, _) => Ok(CheckSla(b, ids, now))
  }

  /** A failed operation is rolled back. */
  ghost function Apply(b: Board, op: Op): Board
    requires Valid(b, op)
  {
    match Outcome(b, op)
    case Ok(b') => b'
    case Err(_) => b
  }

  ghost predicate Reaches(b: Board, ops: seq<Op>, b': Board)
    decreases |ops|
  {
    if ops == [] then b == b'
    else Valid(b, ops[0]) && Reaches(Apply(b, ops[0]), ops[1..], b')
  }

  // ---------------------------------------------------------- structure and progress

  ghost predicate Structured(b: Board) {
    && (forall t :: t in b.tasks ==> b.tasks[t].columnId in b.columns)
    && (forall s :: s in b.subtasks ==> b.subtasks[s].taskId in b.tasks)
  }

  /** A task with stored subtasks shows the progress computed from them, and progress is a percentage. */
  ghost predicate ProgressOk(b: Board, t: Uuid)
    requires t in b.tasks
  {
    && 0 <= b.tasks[t].checklistProgress <= 100
    && (StoredOf(b.subtasks, t) != {} ==>
          b.tasks[t].checklistProgress == ChecklistProgress(|StoredOf(b.subtasks, t)|, |CompletedOf(b.subtasks, t)|))
  }

  ghost predicate Derived(b: Board) {
    Structured(b) && forall t :: t in b.tasks ==> ProgressOk(b, t)
  }

  lemma OtherTasksKeepProgress(b: Board, b': Board, id: Uuid)
    requires Derived(b) && b'.columns == b.columns
    requires forall t :: t in b'.tasks && t != id ==> t in b.tasks && b'.tasks[t].checklistProgress == b.tasks[t].checklistProgress
    requires forall t :: t != id ==>
      StoredOf(b'.subtasks, t) == StoredOf(b.subtasks, t) && CompletedOf(b'.subtasks, t) == CompletedOf(b.subtasks, t)
    requires id in b'.tasks ==> ProgressOk(b', id)
    requires Structured(b')
    ensures Derived(b')
  {
  }

  lemma NoSubtasksYet(b: Board, id: Uuid)
    requires Structured(b) && id !in b.tasks
    ensures StoredOf(b.subtasks, id) == {} && CompletedOf(b.subtasks, id) == {}
  {
  }

  /** After replacing the subtasks of `id`, progress derived from the inputs is progress derived from the table. */
  lemma ReplacedSubtasksKeepDerived(b: Board, b': Board, id: Uuid, inputs: seq<SubtaskInput>, newIds: seq<Uuid>)
    requires Derived(b) && FreshIds(b.subtasks, inputs, newIds) && UpsertSubtasks(b.subtasks, id, inputs, newIds) == Ok(b'.subtasks)
    requires b'.columns == b.columns && b'.tasks.Keys == b.tasks.Keys + {id}
    requires forall t :: t in b.tasks && t != id ==> b'.tasks[t] == b.tasks[t]
    requires b'.tasks[id].columnId in b.columns && 0 <= b'.tasks[id].checklistProgress <= 100
    requires inputs != [] ==> b'.tasks[id].checklistProgress == ChecklistProgress(|inputs|, CountCompleted(inputs))
    ensures Derived(b')
  {
    UpsertReplacesTheSet(b.subtasks, id, inputs, newIds);
    forall s | s in b'.subtasks ensures b'.subtasks[s].taskId in b'.tasks {
      var t := b'.subtasks[s].taskId;
      if t != id {
        assert s in StoredOf(b'.subtasks, t);
        assert s in StoredOf(b.subtasks, t);
      }
    }
    if StoredOf(b'.subtasks, id) != {} {
      assert |StoredOf(b'.subtasks, id)| != 0;
    }
    OtherTasksKeepProgress(b, b', id);
  }

  // ---------------------------------------------------- what an operation writes

  function CreateResolved(b: Board, op: Op): Result<Resolved, Error>
    requires op.Create? && op.p.columnId in b.columns
  {
    Resolve(b.columns[op.p.columnId], |op.p.subtasks|, CountCompleted(op.p.subtasks), op.p.checklistProgress, None, op.now)
  }

  lemma CreateEffect(b: Board, op: Op)
    requires op.Create? && Valid(b, op) && Outcome(b, op).Ok?
    ensures op.p.columnId in b.columns && CreateResolved(b, op).Ok?
    ensures var b', p := Apply(b, op), op.p;
            && b'.columns == b.columns
            && b'.tasks == b.tasks[op.id := NewRow(p.columnId, p, CreateResolved(b, op).value, op.now)]
            && (if p.subtasks == [] then b'.subtasks == b.subtasks
                else UpsertSubtasks(b.subtasks, op.id, p.subtasks, op.newIds) == Ok(b'.subtasks))
            && b' == Sync(b'.(summary := b.summary))
  {
  }

  function UpdateTarget(b: Board, op: Op): Uuid
    requires op.Update? && op.id in b.tasks
  {
    op.patch.columnId.GetOr(b.tasks[op.id].columnId)
  }

  function UpdateTotal(b: Board, op: Op): nat
    requires op.Update?
  {
    if op.patch.subtasks.Some? then |op.patch.subtasks.value| else |StoredOf(b.subtasks, op.id)|
  }

  function UpdateCompleted(b: Board, op: Op): nat
    requires op.Update?
  {
    if op.patch.subtasks.Some? then CountCompleted(op.patch.subtasks.value) else |CompletedOf(b.subtasks, op.id)|
  }

  function UpdateResolved(b: Board, op: Op): Result<Resolved, Error>
    requires op.Update? && op.id in b.tasks && UpdateTarget(b, op) in b.columns
  {
    Resolve(b.columns[UpdateTarget(b, op)], UpdateTotal(b, op), UpdateCompleted(b, op),
            op.patch.checklistProgress.GetOr(b.tasks[op.id].checklistProgress), b.tasks[op.id].completedAt, op.now)
  }

  lemma UpdateEffect(b: Board, op: Op)
    requires op.Update? && Valid(b, op) && Outcome(b, op).Ok?
    ensures op.id in b.tasks && b.tasks[op.id].columnId in b.columns
    ensures UpdateTarget(b, op) in b.columns && UpdateResolved(b, op).Ok?
    ensures var b', p, t := Apply(b, op), op.patch, b.tasks[op.id];
            && b'.columns == b.columns
            && b'.tasks == b.tasks[op.id :=
                 PatchedTask(t, UpdateTarget(b, op), b.columns[t.columnId], b.columns[UpdateTarget(b, op)], p,
                             UpdateResolved(b, op).value, op.actor, op.now)]
            && (if p.subtasks.None? then b'.subtasks == b.subtasks
                else UpsertSubtasks(b.subtasks, op.id, p.subtasks.value, op.newIds) == Ok(b'.subtasks))
            && (ProgressChanged(p) ==> b' == Sync(b'.(summary := b.summary)))
            && (!ProgressChanged(p) ==> b'.summary == b.summary)
  {
  }

  lemma BlockEffect(b: Board, op: Op)
    requires Valid(b, op) && op.Block? && Outcome(b, op).Ok?
    ensures op.id in b.tasks && HasColumn(b, BlockedKey)
    ensures var moved := b.tasks[op.id := BlockedRow(b.tasks[op.id], ColumnWith(b, BlockedKey), op.reason, op.actor, op.now)];
            Apply(b, op) == Sync(b.(tasks := moved))
  {
  }

  lemma UnblockEffect(b: Board, op: Op)
    requires Valid(b, op) && op.Unblock? && Outcome(b, op).Ok?
    ensures op.id in b.tasks && UnblockTarget(b, op.target).Some?
    ensures var to := UnblockTarget(b, op.target).value;
            && to in b.columns && b.columns[to] != BlockedKey
            && Apply(b, op) == Sync(b.(tasks := b.tasks[op.id := UnblockedRow(b.tasks[op.id], to, b.columns[to], op.now)]))
  {
  }

  lemma CreateResolvedFacts(b: Board, op: Op)
    requires op.Create? && Valid(b, op) && op.p.columnId in b.columns && CreateResolved(b, op).Ok?
    ensures var r, key, n := CreateResolved(b, op).value, b.columns[op.p.columnId], |op.p.subtasks|;
            && 0 <= r.progress <= 100 && (r.completedAt.Some? <==> IsFinal(key)) && (IsFinal(key) ==> r.progress == 100)
            && (0 < n ==> r.progress == ChecklistProgress(n, CountCompleted(op.p.subtasks)))
  {
    GateHolds(b.columns[op.p.columnId], |op.p.subtasks|, CountCompleted(op.p.subtasks), op.p.checklistProgress, None, op.now);
  }

  lemma UpdateResolvedFacts(b: Board, op: Op)
    requires Derived(b) && op.Update? && Valid(b, op) && op.id in b.tasks
    requires UpdateTarget(b, op) in b.columns && UpdateResolved(b, op).Ok?
    ensures var r, key, n := UpdateResolved(b, op).value, b.columns[UpdateTarget(b, op)], UpdateTotal(b, op);
            && 0 <= r.progress <= 100 && (r.completedAt.Some? <==> IsFinal(key)) && (IsFinal(key) ==> r.progress == 100)
            && (0 < n ==> r.progress == ChecklistProgress(n, UpdateCompleted(b, op)))
  {
    assert ProgressOk(b, op.id);
    CompletedAreStored(b.subtasks, op.id);
    GateHolds(b.columns[UpdateTarget(b, op)], UpdateTotal(b, op), UpdateCompleted(b, op),
              op.patch.checklistProgress.GetOr(b.tasks[op.id].checklistProgress), b.tasks[op.id].completedAt, op.now);
  }

  // ------------------------------------------------------------- preservation

  lemma CreateKeepsDerived(b: Board, op: Op)
    requires Derived(b) && op.Create? && Valid(b, op) && Outcome(b, op).Ok?
    ensures Derived(Apply(b, op))
  {
    CreateEffect(b, op);
    CreateResolvedFacts(b, op);
    NoSubtasksYet(b, op.id);
    RowWritten(b, op.id, Apply(b, op), op.p.subtasks, op.newIds, op.p.subtasks != []);
  }

  /** One task row and, when asked, its subtasks were written. */
  lemma RowWritten(b: Board, id: Uuid, b': Board, inputs: seq<SubtaskInput>, newIds: seq<Uuid>, replaced: bool)
    requires Derived(b) && b'.columns == b.columns && id in b'.tasks && b'.tasks == b.tasks[id := b'.tasks[id]]
    requires b'.tasks[id].columnId in b.columns && 0 <= b'.tasks[id].checklistProgress <= 100
    requires replaced ==> FreshIds(b.subtasks, inputs, newIds) && UpsertSubtasks(b.subtasks, id, inputs, newIds) == Ok(b'.subtasks)
    requires replaced && inputs != [] ==> b'.tasks[id].checklistProgress == ChecklistProgress(|inputs|, CountCompleted(inputs))
    requires !replaced ==> b'.subtasks == b.subtasks && ProgressOk(b', id)
    ensures Derived(b')
  {
    if replaced {
      ReplacedSubtasksKeepDerived(b, b', id, inputs, newIds);
    } else {
      OtherTasksKeepProgress(b, b', id);
    }
  }

  lemma UpdateKeepsDerived(b: Board, op: Op)
    requires Derived(b) && op.Update? && Valid(b, op) && Outcome(b, op).Ok?
    ensures Derived(Apply(b, op))
  {
    UpdateEffect(b, op);
    UpdateResolvedFacts(b, op);
    StoredCount(b.subtasks, op.id);
    RowWritten(b, op.id, Apply(b, op), op.patch.subtasks.GetOr([]), op.newIds, op.patch.subtasks.Some?);
  }

  lemma StoredCount(subtasks: Subtasks, t: Uuid)
    ensures StoredOf(subtasks, t) != {} ==> 0 < |StoredOf(subtasks, t)|
  {
  }

  lemma MoveKeepsDerived(b: Board, op: Op)
    requires Derived(b) && Valid(b, op) && (op.Block? || op.Unblock?) && Outcome(b, op).Ok?
    ensures Derived(Apply(b, op))
  {
    if op.Block? {
      BlockEffect(b, op);
    } else {
      UnblockEffect(b, op);
    }
    assert ProgressOk(b, op.id);
    RowWritten(b, op.id, Apply(b, op), [], [], false);
  }

  lemma SlaKeepsDerived(b: Board, op: Op)
    requires Derived(b) && Valid(b, op) && op.Sla?
    ensures Derived(Apply(b, op))
  {
    var b' := Apply(b, op);
    forall t | t in b'.tasks ensures ProgressOk(b', t) && b'.tasks[t].columnId in b'.columns {
      assert ProgressOk(b, t);
    }
  }

  lemma StepKeepsDerived(b: Board, op: Op)
    requires Derived(b) && Valid(b, op)
    ensures Derived(Apply(b, op))
  {
    if Outcome(b, op).Ok? {
      match op
      case Create(_, _, _, _) => CreateKeepsDerived(b, op);
      case Update(_, _, _, _, _) => UpdateKeepsDerived(b, op);
      case Sla(_, _, _) => SlaKeepsDerived(b, op);
      case _ => MoveKeepsDerived(b, op);
    }
  }

  /** Derived progress stays true over every run of all five operations. */
  lemma {:induction false} DerivedProgressStaysTrue(b: Board, ops: seq<Op>, b': Board)
    requires Derived(b) && Reaches(b, ops, b')
    ensures Derived(b')
    decreases |ops|
  {
    if ops != [] {
      StepKeepsDerived(b, ops[0]);
      DerivedProgressStaysTrue(Apply(b, ops[0]), ops[1..], b');
    }
  }

  // ------------------------------------------------------------------ summary

  lemma TimesOneMore(x: int, n: nat)
    ensures x * (n + 1) == x * n + x
  {
  }

  lemma {:induction false} SumBounds(ids: set<Uuid>, score: map<Uuid, int>, low: int, high: int)
    requires ids <= score.Keys && forall t :: t in ids ==> low <= score[t] <= high
    ensures low * |ids| <= Sum(ids, score) <= high * |ids|
  {
    if ids != {} {
      var t :| t in ids && Sum(ids, score) == score[t] + Sum(ids - {t}, score);
      SumBounds(ids - {t}, score, low, high);
      assert |ids| == |ids - {t}| + 1;
      TimesOneMore(low, |ids - {t}|);
      TimesOneMore(high, |ids - {t}|);
    }
  }

  lemma RoundedQuotientBounds(total: int, n: nat, low: nat, high: nat)
    requires 0 < n && low * n <= total <= high * n
    ensures low <= (2 * total + n) / (2 * n) <= high
  {
    assert 0 <= low * n;
    QuotientAtLeast(2 * total + n, 2 * n, low);
    assert low * (2 * n) == 2 * (low * n);
    QuotientAtLeast(2 * total + n, 2 * n, high + 1);
    assert (high + 1) * (2 * n) == 2 * (high * n) + 2 * n;
  }

  /** The project progress lies between the lowest and the highest task score. */
  lemma AverageBounds(score: map<Uuid, int>, low: nat, high: nat)
    requires score != map[] && forall t :: t in score ==> low <= score[t] <= high
    ensures low <= Average(score) <= high
  {
    SumBounds(score.Keys, score, low, high);
    assert |score.Keys| == |score|;
    assert score.Keys != {};
    RoundedQuotientBounds(Sum(score.Keys, score), |score|, low, high);
  }

  lemma ScoreIsPercentage(b: Board, t: Uuid)
    requires Derived(b) && t in b.tasks
    ensures 0 <= Score(b, t) <= 100
  {
    assert ProgressOk(b, t);
  }

  /** The aggregate is always a percentage. */
  lemma AggregateIsPercentage(b: Board)
    requires Derived(b)
    ensures 0 <= Aggregate(b).progress <= 100
  {
    forall t | t in Scores(b) ensures 0 <= Scores(b)[t] <= 100 {
      ScoreIsPercentage(b, t);
    }
    if Scores(b) != map[] {
      AverageBounds(Scores(b), 0, 100);
    }
  }

  /** Skipping the summary refresh is sound: an update that touches neither column, progress nor subtasks leaves the
   *  aggregate as it was. */
  lemma {:induction false} SkippingTheRefreshIsSound(b: Board, op: Op)
    requires Derived(b) && op.Update? && Valid(b, op) && Outcome(b, op).Ok? && !ProgressChanged(op.patch)
    ensures Aggregate(Apply(b, op)) == Aggregate(b)
    ensures Apply(b, op).summary == b.summary
  {
    var b' := Apply(b, op);
    UpdateEffect(b, op);
    UpdateResolvedFacts(b, op);
    StoredCount(b.subtasks, op.id);
    assert ProgressOk(b, op.id);
    assert Scores(b') == Scores(b);
    assert Keys(b') == Keys(b);
  }

  ghost predicate Synced(b: Board) {
    b.summary == Aggregate(b)
  }

  lemma AggregateIgnoresSummary(b: Board, summary: Summary)
    ensures Aggregate(b.(summary := summary)) == Aggregate(b)
  {
    var b' := b.(summary := summary);
    assert forall t :: t in b.tasks ==> KeyOf(b', t) == KeyOf(b, t) && Score(b', t) == Score(b, t);
    assert Scores(b') == Scores(b) && Keys(b') == Keys(b);
  }

  lemma SyncMakesSynced(b: Board)
    ensures Synced(Sync(b))
  {
    AggregateIgnoresSummary(b, Aggregate(b));
  }

  lemma RequestKeepsSynced(b: Board, op: Op)
    requires Derived(b) && Synced(b) && Valid(b, op) && !op.Sla?
    ensures Synced(Apply(b, op))
  {
    if Outcome(b, op).Ok? {
      SyncMakesSynced(Apply(b, op).(summary := b.summary));
      if op.Create? {
        CreateEffect(b, op);
      } else if op.Update? {
        UpdateEffect(b, op);
        if !ProgressChanged(op.patch) {
          SkippingTheRefreshIsSound(b, op);
        }
      } else {
        if op.Block? {
          BlockEffect(b, op);
        } else {
          UnblockEffect(b, op);
        }
        assert Apply(b, op) == Sync(Apply(b, op).(summary := b.summary));
      }
    }
  }

  /** Over every run of the four request operations the stored summary is the aggregate of the stored tasks. */
  lemma {:induction false} SummaryStaysExact(b: Board, ops: seq<Op>, b': Board)
    requires Derived(b) && Synced(b) && Reaches(b, ops, b')
    requires forall i :: 0 <= i < |ops| ==> !ops[i].Sla?
    ensures Synced(b') && 0 <= b'.summary.progress <= 100
    decreases |ops|
  {
    AggregateIsPercentage(b);
    if ops != [] {
      RequestKeepsSynced(b, ops[0]);
      StepKeepsDerived(b, ops[0]);
      SummaryStaysExact(Apply(b, ops[0]), ops[1..], b');
    }
  }

  /** The tasks whose score is that of their column. */
  function ScoredByColumn(b: Board, ids: set<Uuid>): set<Uuid> {
    set t | t in ids && StoredOf(b.subtasks, t) == {}
  }

  predicate ReviewRemains(b: Board, ids: set<Uuid>) {
    exists t :: t in b.tasks && t !in ids && KeyOf(b, t) == ClientApprovalKey
  }

  /** Rounding hides that `n` tasks lose `lost` of their `sum` points. */
  predicate LossVanishes(sum: int, lost: int, n: nat)
    requires 0 < n
  {
    Rounded(sum - lost, n) == Rounded(sum, n)
  }

  /** Some task stays in review, and losing 65 points for each task without subtasks vanishes in the rounding. */
  ghost predicate TimeoutGoesUnnoticed(b: Board, ids: set<Uuid>)
    requires b.tasks != map[]
  {
    ReviewRemains(b, ids) && LossVanishes(Sum(b.tasks.Keys, Scores(b)), 65 * |ScoredByColumn(b, ids)|, |b.tasks|)
  }

  /** The timeout job does not refresh the summary, so it keeps it exact only if it moves nothing, or if what it moves cannot
   *  be seen in the summary. */
  lemma TimeoutJobKeepsSummaryExactlyWhen(b: Board, op: Op)
    requires Synced(b) && op.Sla? && Valid(b, op)
    ensures Synced(Apply(b, op)) <==>
            op.ids == {} || !HasColumn(b, BlockedKey) || (b.tasks != map[] && TimeoutGoesUnnoticed(b, op.ids))
  {
    if op.ids == {} || !HasColumn(b, BlockedKey) {
      assert Apply(b, op).tasks == b.tasks;
    } else {
      TimeoutEffect(b, op.ids, op.now);
      TimeoutShowsInAggregate(b, op.ids, Apply(b, op));
    }
  }

  lemma TimeoutShowsInAggregate(b: Board, ids: set<Uuid>, b': Board)
    requires ids != {} && forall t :: t in ids ==> t in b.tasks && KeyOf(b, t) == ClientApprovalKey
    requires b'.tasks.Keys == b.tasks.Keys && b'.subtasks == b.subtasks
    requires forall t :: t in b.tasks ==> b'.tasks[t].checklistProgress == b.tasks[t].checklistProgress
    requires forall t :: t in b.tasks ==> KeyOf(b', t) == if t in ids then BlockedKey else KeyOf(b, t)
    ensures b.tasks != map[]
    ensures Aggregate(b') == Aggregate(b) <==> TimeoutGoesUnnoticed(b, ids)
  {
    TimeoutChangesStatus(b, ids, b');
    TimeoutChangesScores(b, ids, b');
    assert Pick(ids) in b.tasks;
    LossShows(b, b', 65 * |ScoredByColumn(b, ids)|);
  }

  lemma LossShows(b: Board, b': Board, lost: int)
    requires b.tasks != map[] && b'.tasks.Keys == b.tasks.Keys
    requires Sum(b.tasks.Keys, Scores(b')) == Sum(b.tasks.Keys, Scores(b)) - lost
    ensures Average(Scores(b')) == Average(Scores(b)) <==> LossVanishes(Sum(b.tasks.Keys, Scores(b)), lost, |b.tasks|)
  {
    ScoresFit(b);
    ScoresFit(b');
    LossOfAverage(Scores(b), Scores(b'), Sum(b.tasks.Keys, Scores(b)), lost, |b.tasks|);
  }

  lemma ScoresFit(b: Board)
    requires b.tasks != map[]
    ensures Scores(b).Keys == b.tasks.Keys && Scores(b) != map[]
    ensures 0 < |Scores(b)| == |b.tasks| == |b.tasks.Keys|
  {
    SizesAgree(b);
    assert |b.tasks.Keys| == |b.tasks| && Scores(b).Keys == b.tasks.Keys;
  }

  lemma LossOfAverage(score: map<Uuid, int>, score': map<Uuid, int>, sum: int, lost: int, n: nat)
    requires score != map[] && score' != map[] && 0 < n == |score| == |score'|
    requires sum == Sum(score.Keys, score) && sum - lost == Sum(score'.Keys, score')
    ensures Average(score') == Average(score) <==> LossVanishes(sum, lost, n)
  {
  }

  /** Where the job leaves the tasks it moves. */
  lemma TimeoutEffect(b: Board, ids: set<Uuid>, now: Time)
    requires HasColumn(b, BlockedKey) && ids <= b.tasks.Keys
    ensures var b' := CheckSla(b, ids, now);
            && b'.tasks.Keys == b.tasks.Keys && b'.subtasks == b.subtasks && b'.summary == b.summary
            && (forall t :: t in b.tasks ==> b'.tasks[t].checklistProgress == b.tasks[t].checklistProgress)
            && (forall t :: t in b.tasks ==> KeyOf(b', t) == if t in ids then BlockedKey else KeyOf(b, t))
  {
  }

  lemma InReviewExactlyWhen(keys: map<Uuid, ColumnKey>)
    ensures StatusOf(keys) == InReview <==> WithKey(keys, ClientApprovalKey) != {}
  {
    if t :| t in WithKey(keys, ClientApprovalKey) {
      SubsetSize(WithKey(keys, DoneKey), keys.Keys - {t});
      assert |keys.Keys - {t}| == |keys| - 1;
    }
  }

  lemma TimeoutChangesStatus(b: Board, ids: set<Uuid>, b': Board)
    requires ids != {} && forall t :: t in ids ==> t in b.tasks && KeyOf(b, t) == ClientApprovalKey
    requires b'.tasks.Keys == b.tasks.Keys
    requires forall t :: t in b.tasks ==> KeyOf(b', t) == if t in ids then BlockedKey else KeyOf(b, t)
    ensures StatusOf(Keys(b')) == StatusOf(Keys(b)) <==> ReviewRemains(b, ids)
  {
    InReviewExactlyWhen(Keys(b));
    InReviewExactlyWhen(Keys(b'));
    assert Pick(ids) in WithKey(Keys(b), ClientApprovalKey);
    if ReviewRemains(b, ids) {
      var t :| t in b.tasks && t !in ids && KeyOf(b, t) == ClientApprovalKey;
      assert t in WithKey(Keys(b'), ClientApprovalKey);
    }
  }

  lemma TimeoutChangesScores(b: Board, ids: set<Uuid>, b': Board)
    requires forall t :: t in ids ==> t in b.tasks && KeyOf(b, t) == ClientApprovalKey
    requires b'.tasks.Keys == b.tasks.Keys && b'.subtasks == b.subtasks
    requires forall t :: t in b.tasks ==> b'.tasks[t].checklistProgress == b.tasks[t].checklistProgress
    requires forall t :: t in b.tasks ==> KeyOf(b', t) == if t in ids then BlockedKey else KeyOf(b, t)
    ensures Sum(b.tasks.Keys, Scores(b')) == Sum(b.tasks.Keys, Scores(b)) - 65 * |ScoredByColumn(b, ids)|
  {
    TimedOutScores(b, ids, b');
    SumWithLoss(b.tasks.Keys, Scores(b), Scores(b'), ScoredByColumn(b, ids), 65);
  }

  lemma TimedOutScores(b: Board, ids: set<Uuid>, b': Board)
    requires forall t :: t in ids ==> t in b.tasks && KeyOf(b, t) == ClientApprovalKey
    requires b'.tasks.Keys == b.tasks.Keys && b'.subtasks == b.subtasks
    requires forall t :: t in b.tasks ==> b'.tasks[t].checklistProgress == b.tasks[t].checklistProgress
    requires forall t :: t in b.tasks ==> KeyOf(b', t) == if t in ids then BlockedKey else KeyOf(b, t)
    ensures forall t :: t in b.tasks ==>
      Scores(b')[t] == if t in ScoredByColumn(b, ids) then Scores(b)[t] - 65 else Scores(b)[t]
  {
    forall t | t in b.tasks ensures Scores(b')[t] == if t in ScoredByColumn(b, ids) then Scores(b)[t] - 65 else Scores(b)[t] {
      assert Scores(b)[t] == Score(b, t) && Scores(b')[t] == Score(b', t);
    }
  }

  /** Taking `loss` from each of `part`. */
  lemma {:induction false} SumWithLoss(ids: set<Uuid>, score: map<Uuid, int>, score': map<Uuid, int>, part: set<Uuid>, loss: int)
    requires part <= ids <= score.Keys && score'.Keys == score.Keys
    requires forall t :: t in ids ==> score'[t] == if t in part then score[t] - loss else score[t]
    ensures Sum(ids, score') == Sum(ids, score) - loss * |part|
    decreases |ids|
  {
    if ids != {} {
      var t := Pick(ids);
      SumWithLoss(ids - {t}, score, score', part - {t}, loss);
      SumAdd(ids - {t}, t, score);
      SumAdd(ids - {t}, t, score');
      assert ids - {t} + {t} == ids;
      if t in part {
        assert |part| == |part - {t}| + 1;
        TimesOneMore(loss, |part - {t}|);
      } else {
        assert part - {t} == part;
      }
    }
  }

  // --------------------------------------------------------- finalization gate

  ghost predicate GateOk(b: Board, t: Uuid)
    requires t in b.tasks
  {
    && (b.tasks[t].completedAt.Some? <==> IsFinal(KeyOf(b, t)))
    && (IsFinal(KeyOf(b, t)) ==> b.tasks[t].checklistProgress == 100)
  }

  ghost predicate Gated(b: Board) {
    forall t :: t in b.tasks ==> GateOk(b, t)
  }

  /** Whatever state a task was in, a successful creation or update leaves it gated, and leaves the other tasks alone. */
  lemma WrittenTaskIsGated(b: Board, op: Op)
    requires Derived(b) && (op.Create? || op.Update?) && Valid(b, op) && Outcome(b, op).Ok?
    ensures var b' := Apply(b, op);
            && op.id in b'.tasks && GateOk(b', op.id)
            && forall t :: t in b'.tasks && t != op.id ==> t in b.tasks && b'.tasks[t] == b.tasks[t] && KeyOf(b', t) == KeyOf(b, t)
  {
    if op.Create? {
      CreateEffect(b, op);
      CreateResolvedFacts(b, op);
    } else {
      UpdateEffect(b, op);
      UpdateResolvedFacts(b, op);
    }
  }

  /** The timeout job only moves tasks between columns that are not final. */
  lemma SlaKeepsGated(b: Board, op: Op)
    requires Gated(b) && op.Sla? && Valid(b, op)
    ensures Gated(Apply(b, op))
  {
    var b' := Apply(b, op);
    forall t | t in b'.tasks ensures GateOk(b', t) {
      assert GateOk(b, t);
    }
  }

  /** Over runs of creations, updates and timeouts the gate holds of every task. */
  lemma {:induction false} GateStaysShut(b: Board, ops: seq<Op>, b': Board)
    requires Derived(b) && Gated(b) && Reaches(b, ops, b')
    requires forall i :: 0 <= i < |ops| ==> ops[i].Create? || ops[i].Update? || ops[i].Sla?
    ensures Gated(b')
    decreases |ops|
  {
    if ops != [] {
      var op := ops[0];
      StepKeepsDerived(b, op);
      if op.Sla? {
        SlaKeepsGated(b, op);
      } else if Outcome(b, op).Ok? {
        WrittenTaskKeepsGated(b, op);
      }
      GateStaysShut(Apply(b, op), ops[1..], b');
    }
  }

  lemma WrittenTaskKeepsGated(b: Board, op: Op)
    requires Derived(b) && Gated(b) && (op.Create? || op.Update?) && Valid(b, op) && Outcome(b, op).Ok?
    ensures Gated(Apply(b, op))
  {
    WrittenTaskIsGated(b, op);
    var next := Apply(b, op);
    forall t | t in next.tasks ensures GateOk(next, t) {
      assert t != op.id ==> GateOk(b, t);
    }
  }

  /** So a final task with fewer than 200 stored subtasks has them all completed. */
  lemma FinalTaskHasNoOpenSubtask(b: Board, t: Uuid)
    requires Derived(b) && Gated(b) && t in b.tasks && IsFinal(KeyOf(b, t)) && |StoredOf(b.subtasks, t)| < 200
    ensures CompletedOf(b.subtasks, t) == StoredOf(b.subtasks, t)
  {
    assert GateOk(b, t) && ProgressOk(b, t);
    CompletedAreStored(b.subtasks, t);
    var stored, completed := StoredOf(b.subtasks, t), CompletedOf(b.subtasks, t);
    if stored != {} {
      FullProgressExactly(|stored|, |completed|);
      assert |stored - completed| == |stored| - |completed| by {
        assert stored == completed + (stored - completed);
      }
    }
  }

  /** Blocking bypasses the gate: it keeps it exactly when the task was not completed. */
  lemma BlockingKeepsGateExactlyWhen(b: Board, op: Op)
    requires op.Block? && Valid(b, op) && Outcome(b, op).Ok?
    ensures GateOk(Apply(b, op), op.id) <==> b.tasks[op.id].completedAt.None?
  {
  }

  /** So does unblocking: into a final column it needs a completed task at 100, elsewhere one that is not completed. */
  lemma UnblockingKeepsGateExactlyWhen(b: Board, op: Op)
    requires op.Unblock? && Valid(b, op) && Outcome(b, op).Ok?
    ensures var key := b.columns[UnblockTarget(b, op.target).value];
            GateOk(Apply(b, op), op.id) <==>
            if IsFinal(key) then b.tasks[op.id].completedAt.Some? && b.tasks[op.id].checklistProgress == 100
            else b.tasks[op.id].completedAt.None?
  {
  }

  /** A synced project that counts as completed shows 100 percent. */
  lemma {:induction false} CompletedProjectIsAtHundred(b: Board)
    requires Derived(b) && Gated(b) && Synced(b) && b.summary.status == Completed
    ensures b.summary.progress == 100
    ensures forall t :: t in b.tasks ==> KeyOf(b, t) == DoneKey && b.tasks[t].completedAt.Some?
  {
    var keys := Keys(b);
    assert keys.Keys == b.tasks.Keys;
    AllHaveKey(keys, DoneKey);
    forall t | t in b.tasks ensures KeyOf(b, t) == DoneKey && Score(b, t) == 100 && GateOk(b, t) {
      assert keys[t] == DoneKey;
    }
    AverageBounds(Scores(b), 100, 100);
  }

  lemma AllHaveKey(keys: map<Uuid, ColumnKey>, key: ColumnKey)
    requires |WithKey(keys, key)| == |keys|
    ensures forall t :: t in keys ==> keys[t] == key
  {
    if t :| t in keys && keys[t] != key {
      SubsetSize(WithKey(keys, key), keys.Keys - {t});
    }
  }

  // ------------------------------------------------------------ block metadata

  predicate NoBlockData(t: Task) {
    t.blockReason.None? && t.blockType.None? && t.blockedAt.None? && t.blockedBySub.None?
  }

  predicate FullBlockData(t: Task) {
    t.blockReason.Some? && NonBlank(t.blockReason.value) && t.blockType.Some? && t.blockedAt.Some?
  }

  /** `moved` are the tasks that entered the blocked column by a move and are still there. */
  ghost function Moved(b: Board, moved: set<Uuid>, b': Board): set<Uuid> {
    set t | t in b'.tasks && KeyOf(b', t) == BlockedKey && (t in moved || (t in b.tasks && KeyOf(b, t) != BlockedKey))
  }

  ghost predicate BlockDataOk(b: Board, moved: set<Uuid>) {
    && Structured(b)
    && (forall t :: t in b.tasks && KeyOf(b, t) != BlockedKey ==> NoBlockData(b.tasks[t]))
    && (forall t :: t in moved ==> t in b.tasks && KeyOf(b, t) == BlockedKey && FullBlockData(b.tasks[t]))
  }

  ghost predicate ReachesMoving(b: Board, moved: set<Uuid>, ops: seq<Op>, b': Board, moved': set<Uuid>)
    decreases |ops|
  {
    if ops == [] then b == b' && moved == moved'
    else Valid(b, ops[0]) && ReachesMoving(Apply(b, ops[0]), Moved(b, moved, Apply(b, ops[0])), ops[1..], b', moved')
  }

  lemma PatchedBlockData(t: Task, to: Uuid, fromKey: ColumnKey, toKey: ColumnKey, p: Patch, r: Resolved, actor: Uuid, now: Time)
    requires fromKey != BlockedKey ==> NoBlockData(t)
    ensures var t' := PatchedTask(t, to, fromKey, toKey, p, r, actor, now);
            && t'.columnId == to
            && (toKey != BlockedKey ==> NoBlockData(t'))
            && (toKey == BlockedKey && (fromKey != BlockedKey || FullBlockData(t)) ==> FullBlockData(t'))
  {
    ReasonIsNonBlank(p.blockReason.GetOr(None));
    if p.blockReason.Some? {
      ReasonIsNonBlank(p.blockReason.value);
    }
  }

  lemma TimeoutReasonIsNonBlank()
    ensures NonBlank(TIMEOUT_REASON)
  {
    assert TIMEOUT_REASON[0] == "Tiempo"[0] == 'T' && !Blank('T');
  }

  /** The block data of the rows an operation writes. */
  lemma WrittenBlockData(b: Board, moved: set<Uuid>, op: Op, t: Uuid)
    requires BlockDataOk(b, moved) && Valid(b, op) && Outcome(b, op).Ok? && t in Apply(b, op).tasks
    ensures var b' := Apply(b, op);
            && (KeyOf(b', t) != BlockedKey ==> NoBlockData(b'.tasks[t]))
            && (KeyOf(b', t) == BlockedKey && t in b.tasks && (KeyOf(b, t) != BlockedKey || t in moved) ==> FullBlockData(b'.tasks[t]))
  {
    match op
    case Create(_, _, _, _) => CreateEffect(b, op);
    case Update(_, _, _, _, _) =>
      UpdateEffect(b, op);
      if t == op.id {
        var row := b.tasks[t];
        PatchedBlockData(row, UpdateTarget(b, op), b.columns[row.columnId], b.columns[UpdateTarget(b, op)], op.patch,
                         UpdateResolved(b, op).value, op.actor, op.now);
      }
    case Sla(_, _, _) => TimeoutReasonIsNonBlank();
    case Block(_, _, _, _) => BlockEffect(b, op);
    case Unblock(_, _, _) => UnblockEffect(b, op);
  }

  lemma MovedWereThere(b: Board, op: Op, moved: set<Uuid>, t: Uuid)
    requires BlockDataOk(b, moved) && Valid(b, op) && t in Moved(b, moved, Apply(b, op))
    ensures t in b.tasks && (KeyOf(b, t) != BlockedKey || t in moved) && KeyOf(Apply(b, op), t) == BlockedKey
  {
  }

  lemma StepKeepsBlockData(b: Board, moved: set<Uuid>, op: Op)
    requires Derived(b) && BlockDataOk(b, moved) && Valid(b, op)
    ensures BlockDataOk(Apply(b, op), Moved(b, moved, Apply(b, op)))
  {
    StepKeepsDerived(b, op);
    if Outcome(b, op).Ok? {
      BlockDataFromRows(b, moved, op);
    }
  }

  lemma BlockDataFromRows(b: Board, moved: set<Uuid>, op: Op)
    requires BlockDataOk(b, moved) && Valid(b, op) && Outcome(b, op).Ok? && Structured(Apply(b, op))
    ensures BlockDataOk(Apply(b, op), Moved(b, moved, Apply(b, op)))
  {
    var b' := Apply(b, op);
    forall t | t in b'.tasks && KeyOf(b', t) != BlockedKey ensures NoBlockData(b'.tasks[t]) {
      WrittenBlockData(b, moved, op, t);
    }
    forall t | t in Moved(b, moved, b') ensures FullBlockData(b'.tasks[t]) {
      MovedWereThere(b, op, moved, t);
      WrittenBlockData(b, moved, op, t);
    }
  }

  /** Over every run of all five operations: outside the blocked column all four block fields are null, and a task
   *  that was moved in keeps a non-blank reason, a type and a time until it leaves. */
  lemma {:induction false} BlockDataStaysConsistent(b: Board, moved: set<Uuid>, ops: seq<Op>, b': Board, moved': set<Uuid>)
    requires Derived(b) && BlockDataOk(b, moved) && ReachesMoving(b, moved, ops, b', moved')
    ensures BlockDataOk(b', moved')
    decreases |ops|
  {
    if ops != [] {
      StepKeepsBlockData(b, moved, ops[0]);
      StepKeepsDerived(b, ops[0]);
      BlockDataStaysConsistent(Apply(b, ops[0]), Moved(b, moved, Apply(b, ops[0])), ops[1..], b', moved');
    }
  }

  /** A task created in the blocked column has no block data at all, which is why entering by a move matters. */
  lemma CreatedBlockedTaskHasNoBlockData(b: Board, op: Op)
    requires op.Create? && Valid(b, op) && Outcome(b, op).Ok? && b.columns[op.p.columnId] == BlockedKey
    ensures var b' := Apply(b, op);
            KeyOf(b', op.id) == BlockedKey && NoBlockData(b'.tasks[op.id]) && !FullBlockData(b'.tasks[op.id])
  {
  }

  function EmptyBoard(columns: map<Uuid, ColumnKey>): Board {
    Board(columns, map[], map[], Summary(Todo, 0))
  }

  /** A new project starts with all of this in order. */
  lemma EmptyBoardIsInOrder(columns: map<Uuid, ColumnKey>)
    ensures var b := EmptyBoard(columns);
            Derived(b) && Synced(b) && Gated(b) && BlockDataOk(b, {})
  {
    var b := EmptyBoard(columns);
    assert Keys(b) == map[] && Scores(b) == map[];
  }
}
