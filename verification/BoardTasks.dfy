/** The task lifecycle of one project's board: creating, updating, blocking and unblocking tasks, the approval-timeout job,
 *  and the project summary aggregated from them. Each operation is given as a whole; an update also as the read and the write
 *  it consists of. What an operation may fail with is in `Error`. */
module BoardTasks {
  import opened Prelude
  import opened TaskProgress
  import opened Text

  datatype BlockType = ClientTimeout | InternalImpediment

  datatype Task = Task(
    columnId: Uuid,
    title: string,
    checklistProgress: int,
    blockReason: Option<string>,
    blockType: Option<BlockType>,
    blockedAt: Option<Time>,
    blockedBySub: Option<Uuid>,
    approvalRequestedAt: Option<Time>,
    isClientVisible: bool,
    completedAt: Option<Time>,
    updatedAt: Time)

  datatype ProjectStatus = Todo | InProgress | InReview | Completed

  datatype Summary = Summary(status: ProjectStatus, progress: int)

  datatype Board = Board(columns: map<Uuid, ColumnKey>, tasks: map<Uuid, Task>, subtasks: Subtasks, summary: Summary)

  // --------------------------------------------------------------- text helpers

  const DEFAULT_REASON := "Impedimento interno"
  const TIMEOUT_REASON := "Tiempo" + " de espera de aprobación del cliente expirado (48 horas sin respuesta)"

  function ReasonOrDefault(reason: Option<string>): string {
    TrimToOption(reason).GetOr(DEFAULT_REASON)
  }

  lemma ReasonIsNonBlank(reason: Option<string>)
    ensures NonBlank(ReasonOrDefault(reason))
  {
    assert DEFAULT_REASON[0] == 'I' && !Blank('I');
    StoredTextIsNonBlank(reason);
  }

  // ------------------------------------------------------------ project summary

  function KeyOf(b: Board, t: Uuid): ColumnKey
    requires t in b.tasks
  {
    if b.tasks[t].columnId in b.columns then b.columns[b.tasks[t].columnId] else OnHoldKey
  }

  function KeyScore(key: ColumnKey): int {
    match key
    case PendingKey => 0
    case DoingKey => 25
    case InternalReviewKey => 50
    case ClientApprovalKey => 75
    case BlockedKey => 10
    case DoneKey => 100
    case _ => 0
  }

  function Score(b: Board, t: Uuid): int
    requires t in b.tasks
  {
    if StoredOf(b.subtasks, t) != {} then b.tasks[t].checklistProgress else KeyScore(KeyOf(b, t))
  }

  function Scores(b: Board): map<Uuid, int> {
    map t | t in b.tasks :: Score(b, t)
  }

  function Keys(b: Board): map<Uuid, ColumnKey> {
    map t | t in b.tasks :: KeyOf(b, t)
  }

  ghost function Sum(ids: set<Uuid>, score: map<Uuid, int>): int
    requires ids <= score.Keys
  {
    if ids == {} then 0 else
      var t :| t in ids;
      score[t] + Sum(ids - {t}, score)
  }

  /** In whatever order the scores are added. */
  lemma {:induction false} SumAdd(ids: set<Uuid>, t: Uuid, score: map<Uuid, int>)
    requires ids <= score.Keys && t in score && t !in ids
    ensures Sum(ids + {t}, score) == Sum(ids, score) + score[t]
  {
    var all := ids + {t};
    var x :| x in all && Sum(all, score) == score[x] + Sum(all - {x}, score);
    if x == t {
      assert all - {t} == ids;
    } else {
      assert all - {x} == (ids - {x}) + {t};
      SumAdd(ids - {x}, t, score);
      SumAdd(ids - {x}, x, score);
      assert (ids - {x}) + {x} == ids;
    }
  }

  /** What the project progress is for `n` tasks whose scores add up to `sum`. */
  function Rounded(sum: int, n: nat): int
    requires 0 < n
  {
    (2 * sum + n) / (2 * n)
  }

  /** Average of non-negative scores, rounded half up; 0 without tasks. */
  ghost function Average(score: map<Uuid, int>): int {
    if score == map[] then 0 else Rounded(Sum(score.Keys, score), |score|)
  }

  lemma AverageFromSum(scores: map<Uuid, int>, sum: int, total: nat)
    requires sum == Sum(scores.Keys, scores) && total == |scores| && (total == 0 <==> scores == map[])
    ensures Average(scores) == if total == 0 then 0 else Rounded(sum, total)
  {
  }

  function WithKey(keys: map<Uuid, ColumnKey>, key: ColumnKey): set<Uuid> {
    set t | t in keys && keys[t] == key
  }

  function StatusOf(keys: map<Uuid, ColumnKey>): ProjectStatus {
    if keys != map[] && |WithKey(keys, DoneKey)| == |keys| then Completed
    else if WithKey(keys, ClientApprovalKey) != {} then InReview
    else if |WithKey(keys, PendingKey)| < |keys| then InProgress
    else Todo
  }

  lemma SizesAgree(b: Board)
    ensures |b.tasks| == |Keys(b)| == |Scores(b)|
    ensures |b.tasks| == 0 <==> Scores(b) == map[]
  {
    assert Keys(b).Keys == Scores(b).Keys == b.tasks.Keys;
    assert |b.tasks.Keys| == |b.tasks| && |Keys(b).Keys| == |Keys(b)| && |Scores(b).Keys| == |Scores(b)|;
    if |b.tasks| == 0 {
      assert Scores(b).Keys == {};
    }
  }

  ghost function Aggregate(b: Board): Summary {
    Summary(StatusOf(Keys(b)), Average(Scores(b)))
  }

  ghost function Sync(b: Board): Board {
    b.(summary := Aggregate(b))
  }

  // ----------------------------------------------------------------- operations

  datatype NewTask = NewTask(columnId: Uuid, title: string, checklistProgress: int, subtasks: seq<SubtaskInput>, isClientVisible: bool)

  /** `None` is an absent field; a present field may be null. */
  datatype Patch = Patch(
    columnId: Option<Uuid>,
    title: Option<string>,
    checklistProgress: Option<int>,
    subtasks: Option<seq<SubtaskInput>>,
    isClientVisible: Option<bool>,
    blockReason: Option<Option<string>>,
    blockType: Option<Option<BlockType>>)

  function NewRow(columnId: Uuid, p: NewTask, r: Resolved, now: Time): Task {
    Task(columnId, p.title, r.progress, None, None, None, None, None, p.isClientVisible, r.completedAt, now)
  }

  ghost function CreateTask(b: Board, id: Uuid, p: NewTask, newIds: seq<Uuid>, now: Time): Result<Board, Error>
    requires |newIds| == |p.subtasks|
  {
    if p.columnId !in b.columns then Err(BadColumn) else
    match Resolve(b.columns[p.columnId], |p.subtasks|, CountCompleted(p.subtasks), p.checklistProgress, None, now)
    case Err(e) => Err(e)
    case Ok(r) =>
      var tasks := b.tasks[id := NewRow(p.columnId, p, r, now)];
      if p.subtasks == [] then Ok(Sync(b.(tasks := tasks))) else
      match UpsertSubtasks(b.subtasks, id, p.subtasks, newIds)
      case Err(e) => Err(e)
      case Ok(subtasks) => Ok(Sync(b.(tasks := tasks, subtasks := subtasks)))
  }

  /** resolveTaskColumnStatePatches applied to a task that moves from one column to another or stays. */
  function ApplyColumnState(t: Task, from: ColumnKey, to: ColumnKey, p: Patch, actor: Uuid, now: Time): Task {
    var unblocked :=
      if from == BlockedKey && to != BlockedKey
      then t.(blockReason := None, blockType := None, blockedAt := None, blockedBySub := None) else t;
    var blocked :=
      if to == BlockedKey && from != BlockedKey then
        unblocked.(blockReason := Some(ReasonOrDefault(p.blockReason.GetOr(None))),
                   blockType := Some(p.blockType.GetOr(None).GetOr(InternalImpediment)),
                   blockedAt := Some(now), blockedBySub := Some(actor))
      else if to == BlockedKey then
        unblocked.(blockReason := if p.blockReason.Some? then Some(ReasonOrDefault(p.blockReason.value)) else unblocked.blockReason,
                   blockType := if p.blockType.Some? && p.blockType.value.Some? then p.blockType.value else unblocked.blockType)
      else unblocked;
    if to == ClientApprovalKey && from != ClientApprovalKey
    then blocked.(approvalRequestedAt := Some(now), isClientVisible := true) else blocked
  }

  function ProgressChanged(p: Patch): bool {
    p.columnId.Some? || p.checklistProgress.Some? || p.subtasks.Some?
  }

  function PatchedTask(t: Task, to: Uuid, fromKey: ColumnKey, toKey: ColumnKey, p: Patch, r: Resolved, actor: Uuid, now: Time): Task {
    ApplyColumnState(
      t.(columnId := to, title := p.title.GetOr(t.title), checklistProgress := r.progress,
         isClientVisible := p.isClientVisible.GetOr(t.isClientVisible), completedAt := r.completedAt, updatedAt := now),
      fromKey, toKey, p, actor, now)
  }

  ghost function UpdateTask(b: Board, id: Uuid, p: Patch, actor: Uuid, newIds: seq<Uuid>, now: Time): Result<Board, Error>
    requires p.subtasks.Some? ==> |newIds| == |p.subtasks.value|
  {
    if id !in b.tasks || b.tasks[id].columnId !in b.columns then Err(NotFound) else
    var t := b.tasks[id];
    var to := p.columnId.GetOr(t.columnId);
    if to !in b.columns then Err(BadColumn) else
    var total := if p.subtasks.Some? then |p.subtasks.value| else |StoredOf(b.subtasks, id)|;
    var completed := if p.subtasks.Some? then CountCompleted(p.subtasks.value) else |CompletedOf(b.subtasks, id)|;
    match Resolve(b.columns[to], total, completed, p.checklistProgress.GetOr(t.checklistProgress), t.completedAt, now)
    case Err(e) => Err(e)
    case Ok(r) =>
      var tasks := b.tasks[id := PatchedTask(t, to, b.columns[t.columnId], b.columns[to], p, r, actor, now)];
      if p.subtasks.None? then
        Ok(if ProgressChanged(p) then Sync(b.(tasks := tasks)) else b.(tasks := tasks))
      else
        match UpsertSubtasks(b.subtasks, id, p.subtasks.value, newIds)
        case Err(e) => Err(e)
        case Ok(subtasks) => Ok(Sync(b.(tasks := tasks, subtasks := subtasks)))
  }

  /** A task and its subtasks as an update has read them. */
  datatype Seen = Seen(row: Task, total: nat, completed: nat)

  /** What an update is going to write, computed from what it has read. */
  datatype Plan = Plan(fromKey: ColumnKey, toKey: ColumnKey, resolved: Resolved)

  function Look(b: Board, id: Uuid): Seen
    requires id in b.tasks
  {
    Seen(b.tasks[id], |StoredOf(b.subtasks, id)|, |CompletedOf(b.subtasks, id)|)
  }

  function Planned(columns: map<Uuid, ColumnKey>, p: Patch, seen: Seen, now: Time): Result<Plan, Error> {
    if seen.row.columnId !in columns then Err(NotFound) else
    var to := p.columnId.GetOr(seen.row.columnId);
    if to !in columns then Err(BadColumn) else
    var total := if p.subtasks.Some? then |p.subtasks.value| else seen.total;
    var completed := if p.subtasks.Some? then CountCompleted(p.subtasks.value) else seen.completed;
    match Resolve(columns[to], total, completed, p.checklistProgress.GetOr(seen.row.checklistProgress), seen.row.completedAt, now)
    case Err(e) => Err(e)
    case Ok(r) => Ok(Plan(columns[seen.row.columnId], columns[to], r))
  }

  /** The write of an update, to the rows as they are by then. */
  function WriteUpdate(b: Board, id: Uuid, p: Patch, plan: Plan, actor: Uuid, newIds: seq<Uuid>, now: Time): Result<Board, Error>
    requires p.subtasks.Some? ==> |newIds| == |p.subtasks.value|
  {
    if id !in b.tasks then Err(NotFound) else
    var t := b.tasks[id];
    var tasks := b.tasks[id := PatchedTask(t, p.columnId.GetOr(t.columnId), plan.fromKey, plan.toKey, p, plan.resolved, actor, now)];
    if p.subtasks.None? then Ok(b.(tasks := tasks)) else
    match UpsertSubtasks(b.subtasks, id, p.subtasks.value, newIds)
    case Err(e) => Err(e)
    case Ok(subtasks) => Ok(b.(tasks := tasks, subtasks := subtasks))
  }

  ghost function SyncAfter(p: Patch, r: Result<Board, Error>): Result<Board, Error> {
    if r.Ok? && ProgressChanged(p) then Ok(Sync(r.value)) else r
  }

  /** An update that nothing comes between is its read and its write. */
  lemma UpdateIsReadThenWrite(b: Board, id: Uuid, p: Patch, actor: Uuid, newIds: seq<Uuid>, now: Time)
    requires p.subtasks.Some? ==> |newIds| == |p.subtasks.value|
    ensures UpdateTask(b, id, p, actor, newIds, now) ==
      if id !in b.tasks then Err(NotFound)
      else match Planned(b.columns, p, Look(b, id), now)
           case Err(e) => Err(e)
           case Ok(plan) => SyncAfter(p, WriteUpdate(b, id, p, plan, actor, newIds, now))
  {
  }

  predicate HasColumn(b: Board, key: ColumnKey) {
    exists c :: c in b.columns && b.columns[c] == key
  }

  ghost function ColumnWith(b: Board, key: ColumnKey): (c: Uuid)
    requires HasColumn(b, key)
    ensures c in b.columns && b.columns[c] == key
  {
    var c :| c in b.columns && b.columns[c] == key;
    c
  }

  function BlockedRow(t: Task, column: Uuid, reason: string, actor: Uuid, now: Time): Task {
    t.(columnId := column, blockReason := Some(reason), blockType := Some(InternalImpediment),
       blockedAt := Some(now), blockedBySub := Some(actor), updatedAt := now)
  }

  ghost function BlockTask(b: Board, id: Uuid, reason: string, actor: Uuid, now: Time): Result<Board, Error> {
    if id !in b.tasks then Err(NotFound)
    else if !HasColumn(b, BlockedKey) then Err(BadColumn)
    else Ok(Sync(b.(tasks := b.tasks[id := BlockedRow(b.tasks[id], ColumnWith(b, BlockedKey), reason, actor, now)])))
  }

  function UnblockedRow(t: Task, column: Uuid, key: ColumnKey, now: Time): Task {
    var cleared := t.(columnId := column, blockReason := None, blockType := None, blockedAt := None, blockedBySub := None, updatedAt := now);
    if key == ClientApprovalKey then cleared.(approvalRequestedAt := Some(now), isClientVisible := true) else cleared
  }

  /** The chosen column, or the one in progress, or the pending one. */
  ghost function UnblockTarget(b: Board, target: Option<Uuid>): Option<Uuid> {
    if target.Some? then
      if target.value in b.columns && b.columns[target.value] != BlockedKey then target else None
    else if HasColumn(b, DoingKey) then Some(ColumnWith(b, DoingKey))
    else if HasColumn(b, PendingKey) then Some(ColumnWith(b, PendingKey))
    else None
  }

  ghost function UnblockTask(b: Board, id: Uuid, target: Option<Uuid>, now: Time): Result<Board, Error> {
    if id !in b.tasks then Err(NotFound)
    else
      var to := UnblockTarget(b, target);
      if to.None? then Err(BadColumn)
      else Ok(Sync(b.(tasks := b.tasks[id := UnblockedRow(b.tasks[id], to.value, b.columns[to.value], now)])))
  }

  const SLA_LIMIT := 100

  function Overdue(b: Board, now: Time, timeoutMs: int): set<Uuid> {
    set t | t in b.tasks && KeyOf(b, t) == ClientApprovalKey
            && b.tasks[t].approvalRequestedAt.GetOr(b.tasks[t].updatedAt) <= now - timeoutMs
  }

  function TimedOutRow(t: Task, column: Uuid, now: Time): Task {
    t.(columnId := column, blockReason := Some(TIMEOUT_REASON), blockType := Some(ClientTimeout), blockedAt := Some(now),
       blockedBySub := None, isClientVisible := true, updatedAt := now)
  }

  /** The approval-timeout job on the overdue tasks it got hold of; it does not refresh the summary. */
  ghost function CheckSla(b: Board, ids: set<Uuid>, now: Time): Board {
    if !HasColumn(b, BlockedKey) then b
    else b.(tasks := map t | t in b.tasks ::
      if t in ids then TimedOutRow(b.tasks[t], ColumnWith(b, BlockedKey), now) else b.tasks[t])
  }
}
