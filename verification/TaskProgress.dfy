/** Derived progress, the finalization gate, and the subtasks they are computed from. */
module TaskProgress {
  import opened Prelude

  datatype ColumnKey =
    | PendingKey | DoingKey | InternalReviewKey | ClientApprovalKey | BlockedKey | DoneKey
    | ArtApprovedKey | InProductionKey | QualityControlKey | ShippedKey | CompletedKey | WaitingMaterialKey | OnHoldKey

  predicate IsFinal(key: ColumnKey) {
    key == DoneKey || key == CompletedKey
  }

  /** Rounded percentage of completed subtasks, half up. */
  function ChecklistProgress(total: nat, completed: nat): int {
    if total == 0 then 0 else (200 * completed + total) / (2 * total)
  }

  /** Progress is a percentage, and grows with every completed subtask. */
  lemma ProgressIsMonotone(total: nat, a: nat, b: nat)
    requires a <= b <= total
    ensures 0 <= ChecklistProgress(total, a) <= ChecklistProgress(total, b) <= 100
  {
    if 0 < total {
      QuotientAtMost(200 * b + total, 2 * total, 100);
      DivMonotone(200 * a + total, 200 * b + total, 2 * total);
    }
  }

  /** It is the percentage rounded to the nearest whole number, halves upwards. */
  lemma ProgressIsNearest(total: nat, completed: nat)
    requires completed <= total && 0 < total
    ensures var p := ChecklistProgress(total, completed);
            (2 * p - 1) * total <= 200 * completed < (2 * p + 1) * total
    ensures ChecklistProgress(0, 0) == 0
  {
    var p, d := ChecklistProgress(total, completed), 2 * total;
    ProgressIsMonotone(total, completed, completed);
    QuotientAtLeast(200 * completed + total, d, p);
    QuotientAtLeast(200 * completed + total, d, p + 1);
    assert p * d == 2 * p * total && (p + 1) * d == (2 * p + 2) * total;
    assert (2 * p - 1) * total == 2 * p * total - total && (2 * p + 1) * total == 2 * p * total + total;
  }

  lemma DivMonotone(x: nat, y: nat, d: nat)
    requires x <= y && 0 < d
    ensures x / d <= y / d
  {
    QuotientAtLeast(x, d, x / d);
    QuotientAtLeast(y, d, x / d);
  }

  lemma QuotientAtLeast(n: nat, d: nat, k: nat)
    requires 0 < d
    ensures k <= n / d <==> k * d <= n
  {
    var q := n / d;
    assert q * d <= n < q * d + d;
    if k <= q {
      assert k * d <= q * d;
    } else {
      assert (q + 1) * d <= k * d;
    }
  }

  lemma QuotientAtMost(n: nat, d: nat, k: nat)
    requires 0 < d && n < (k + 1) * d
    ensures 0 <= n / d <= k
  {
    QuotientAtLeast(n, d, k + 1);
  }

  /** Rounding reaches 100 exactly when at most one in two hundred subtasks is open. */
  lemma FullProgressExactly(total: nat, completed: nat)
    requires completed <= total && 0 < total
    ensures ChecklistProgress(total, completed) == 100 <==> 200 * (total - completed) <= total
  {
    ProgressIsMonotone(total, completed, completed);
    QuotientAtLeast(200 * completed + total, 2 * total, 100);
  }

  /** The gate is exact for tasks with fewer than 200 subtasks, and for no larger size. */
  lemma GateIsExactBelowTwoHundred(total: nat)
    requires 0 < total
    ensures (forall completed: nat :: completed <= total ==> (ChecklistProgress(total, completed) == 100 <==> completed == total))
            <==> total < 200
  {
    forall completed: nat | completed <= total
      ensures ChecklistProgress(total, completed) == 100 <==> 200 * (total - completed) <= total
    {
      FullProgressExactly(total, completed);
    }
    if 200 <= total {
      assert ChecklistProgress(total, total - 1) == 100;
    }
  }

  datatype Error = NotFound | BadColumn | UnfinishedSubtasks | DuplicateSubtask | ForeignSubtask

  datatype Resolved = Resolved(progress: int, completedAt: Option<Time>)

  /** resolveTaskProgressAndCompletion, on the number of subtasks and of completed ones. */
  function Resolve(key: ColumnKey, total: nat, completed: nat, checklistProgress: int, existing: Option<Time>, now: Time): Result<Resolved, Error> {
    var derived := if 0 < total then ChecklistProgress(total, completed) else checklistProgress;
    var progress :=
      if IsFinal(key) && total == 0 then 100
      else if !IsFinal(key) && total == 0 && derived == 100 then 0
      else derived;
    if IsFinal(key) && 0 < total && progress < 100 then Err(UnfinishedSubtasks)
    else Ok(Resolved(progress, if IsFinal(key) && progress == 100 then Some(existing.GetOr(now)) else None))
  }

  /** The gate: completion time and final column go together, a final task is at 100, and below 200 subtasks it can only get
   *  there with all of them done. An earlier completion time survives. Without subtasks and outside a final column the progress
   *  given is the progress stored, except that 100 becomes 0. */
  lemma GateHolds(key: ColumnKey, total: nat, completed: nat, checklistProgress: int, existing: Option<Time>, now: Time)
    requires completed <= total && 0 <= checklistProgress <= 100
    ensures var r, final := Resolve(key, total, completed, checklistProgress, existing, now), key == DoneKey || key == CompletedKey;
            && (r.Err? <==> final && 0 < total && total < 200 * (total - completed))
            && (r.Ok? ==>
                  && (r.value.completedAt.Some? <==> final)
                  && (final ==> r.value.progress == 100 && r.value.completedAt == Some(existing.GetOr(now)))
                  && 0 <= r.value.progress <= 100
                  && (0 < total ==> r.value.progress == ChecklistProgress(total, completed))
                  && (total == 0 && !final ==> r.value.progress == if checklistProgress < 100 then checklistProgress else 0)
                  && (final && total < 200 ==> completed == total))
  {
    if 0 < total {
      ProgressIsMonotone(total, completed, completed);
      FullProgressExactly(total, completed);
    }
  }

  // ------------------------------------------------------------------- subtasks

  datatype Subtask = Subtask(taskId: Uuid, title: string, isCompleted: bool, assignee: Option<Uuid>, position: int)

  datatype SubtaskInput = SubtaskInput(id: Option<Uuid>, title: string, isCompleted: bool, assignee: Option<Uuid>, position: Option<int>)

  type Subtasks = map<Uuid, Subtask>

  function StoredOf(subtasks: Subtasks, taskId: Uuid): set<Uuid> {
    set s | s in subtasks && subtasks[s].taskId == taskId
  }

  function CompletedOf(subtasks: Subtasks, taskId: Uuid): set<Uuid> {
    set s | s in subtasks && subtasks[s].taskId == taskId && subtasks[s].isCompleted
  }

  lemma CompletedAreStored(subtasks: Subtasks, taskId: Uuid)
    ensures CompletedOf(subtasks, taskId) <= StoredOf(subtasks, taskId)
    ensures |CompletedOf(subtasks, taskId)| <= |StoredOf(subtasks, taskId)|
  {
    SubsetSize(CompletedOf(subtasks, taskId), StoredOf(subtasks, taskId));
  }

  lemma SubsetSize(a: set<Uuid>, b: set<Uuid>)
    requires a <= b
    ensures |a| <= |b|
  {
    assert b == a + (b - a);
  }

  function CountCompleted(inputs: seq<SubtaskInput>): (n: nat)
    ensures n <= |inputs|
  {
    if inputs == [] then 0
    else CountCompleted(inputs[..|inputs| - 1]) + if inputs[|inputs| - 1].isCompleted then 1 else 0
  }

  predicate HasDuplicateIds(inputs: seq<SubtaskInput>) {
    exists i, j :: 0 <= i < j < |inputs| && inputs[i].id.Some? && inputs[i].id == inputs[j].id
  }

  predicate HasForeignId(subtasks: Subtasks, taskId: Uuid, inputs: seq<SubtaskInput>) {
    exists i :: 0 <= i < |inputs| && inputs[i].id.Some? && inputs[i].id.value in subtasks
                && subtasks[inputs[i].id.value].taskId != taskId
  }

  /** A known id is kept, anything else gets a fresh one. */
  function RowId(subtasks: Subtasks, taskId: Uuid, input: SubtaskInput, newId: Uuid): Uuid {
    if input.id.Some? && input.id.value in StoredOf(subtasks, taskId) then input.id.value else newId
  }

  function RowFor(taskId: Uuid, input: SubtaskInput, index: nat): Subtask {
    Subtask(taskId, input.title, input.isCompleted, input.assignee, input.position.GetOr(index))
  }

  /** The ids the database generates for new rows. */
  ghost predicate FreshIds(subtasks: Subtasks, inputs: seq<SubtaskInput>, newIds: seq<Uuid>) {
    && |newIds| == |inputs| && Distinct(newIds)
    && (forall i :: 0 <= i < |newIds| ==> newIds[i] !in subtasks)
  }

  /** The rows of the first `n` inputs on top of `base`. */
  function Inserted(base: Subtasks, subtasks: Subtasks, taskId: Uuid, inputs: seq<SubtaskInput>, newIds: seq<Uuid>, n: nat): Subtasks
    requires n <= |inputs| == |newIds|
  {
    if n == 0 then base
    else Inserted(base, subtasks, taskId, inputs, newIds, n - 1)
         [RowId(subtasks, taskId, inputs[n - 1], newIds[n - 1]) := RowFor(taskId, inputs[n - 1], n - 1)]
  }

  function OtherTasks(subtasks: Subtasks, taskId: Uuid): Subtasks {
    subtasks - StoredOf(subtasks, taskId)
  }

  function UpsertSubtasks(subtasks: Subtasks, taskId: Uuid, inputs: seq<SubtaskInput>, newIds: seq<Uuid>): Result<Subtasks, Error>
    requires |newIds| == |inputs|
  {
    if HasDuplicateIds(inputs) then Err(DuplicateSubtask)
    else if HasForeignId(subtasks, taskId, inputs) then Err(ForeignSubtask)
    else Ok(Inserted(OtherTasks(subtasks, taskId), subtasks, taskId, inputs, newIds, |inputs|))
  }

  lemma RowIdsDiffer(subtasks: Subtasks, taskId: Uuid, inputs: seq<SubtaskInput>, newIds: seq<Uuid>, i: nat, j: nat)
    requires FreshIds(subtasks, inputs, newIds) && !HasDuplicateIds(inputs) && i < j < |inputs|
    ensures RowId(subtasks, taskId, inputs[i], newIds[i]) != RowId(subtasks, taskId, inputs[j], newIds[j])
  {
  }

  /** What the replacement stores: the inputs one by one under their own ids, nothing else for this task, and other tasks
   *  untouched. */
  lemma {:induction false} InsertedRows(subtasks: Subtasks, taskId: Uuid, inputs: seq<SubtaskInput>, newIds: seq<Uuid>, n: nat)
    requires FreshIds(subtasks, inputs, newIds) && !HasDuplicateIds(inputs) && n <= |inputs|
    ensures var base := OtherTasks(subtasks, taskId);
            var now := Inserted(base, subtasks, taskId, inputs, newIds, n);
            && (forall s :: s in base ==> s in now && now[s] == base[s])
            && (forall i :: 0 <= i < n ==>
                  var id := RowId(subtasks, taskId, inputs[i], newIds[i]);
                  id !in base && id in now && now[id] == RowFor(taskId, inputs[i], i))
            && (forall s :: s in now && s !in base ==>
                  exists i :: 0 <= i < n && s == RowId(subtasks, taskId, inputs[i], newIds[i]))
  {
    if 0 < n {
      InsertedRows(subtasks, taskId, inputs, newIds, n - 1);
      forall i | 0 <= i < n - 1
        ensures RowId(subtasks, taskId, inputs[i], newIds[i]) != RowId(subtasks, taskId, inputs[n - 1], newIds[n - 1])
      {
        RowIdsDiffer(subtasks, taskId, inputs, newIds, i, n - 1);
      }
    }
  }

  /** The replacement stores as many rows as there are inputs, and as many completed ones. */
  lemma {:induction false} InsertedCounts(subtasks: Subtasks, taskId: Uuid, inputs: seq<SubtaskInput>, newIds: seq<Uuid>, n: nat)
    requires FreshIds(subtasks, inputs, newIds) && !HasDuplicateIds(inputs) && n <= |inputs|
    ensures var now := Inserted(OtherTasks(subtasks, taskId), subtasks, taskId, inputs, newIds, n);
            |StoredOf(now, taskId)| == n && |CompletedOf(now, taskId)| == CountCompleted(inputs[..n])
  {
    var base := OtherTasks(subtasks, taskId);
    if n == 0 {
      assert StoredOf(base, taskId) == {} && CompletedOf(base, taskId) == {};
    } else {
      InsertedCounts(subtasks, taskId, inputs, newIds, n - 1);
      NextRowIsNew(subtasks, taskId, inputs, newIds, n - 1);
      CountsGrow(Inserted(base, subtasks, taskId, inputs, newIds, n - 1),
                 RowId(subtasks, taskId, inputs[n - 1], newIds[n - 1]), RowFor(taskId, inputs[n - 1], n - 1));
      assert inputs[..n][..n - 1] == inputs[..n - 1];
    }
  }

  lemma NextRowIsNew(subtasks: Subtasks, taskId: Uuid, inputs: seq<SubtaskInput>, newIds: seq<Uuid>, n: nat)
    requires FreshIds(subtasks, inputs, newIds) && !HasDuplicateIds(inputs) && n < |inputs|
    ensures RowId(subtasks, taskId, inputs[n], newIds[n]) !in
            Inserted(OtherTasks(subtasks, taskId), subtasks, taskId, inputs, newIds, n)
  {
    InsertedRows(subtasks, taskId, inputs, newIds, n);
    forall i | 0 <= i < n ensures RowId(subtasks, taskId, inputs[i], newIds[i]) != RowId(subtasks, taskId, inputs[n], newIds[n]) {
      RowIdsDiffer(subtasks, taskId, inputs, newIds, i, n);
    }
  }

  lemma CountsGrow(before: Subtasks, id: Uuid, row: Subtask)
    requires id !in before
    ensures |StoredOf(before[id := row], row.taskId)| == |StoredOf(before, row.taskId)| + 1
    ensures |CompletedOf(before[id := row], row.taskId)| == |CompletedOf(before, row.taskId)| + if row.isCompleted then 1 else 0
  {
    assert StoredOf(before[id := row], row.taskId) == StoredOf(before, row.taskId) + {id};
    if row.isCompleted {
      assert CompletedOf(before[id := row], row.taskId) == CompletedOf(before, row.taskId) + {id};
    } else {
      assert CompletedOf(before[id := row], row.taskId) == CompletedOf(before, row.taskId);
    }
  }

  /** Replace-set with id retention, for every accepted input. */
  lemma {:induction false} UpsertReplacesTheSet(subtasks: Subtasks, taskId: Uuid, inputs: seq<SubtaskInput>, newIds: seq<Uuid>)
    requires FreshIds(subtasks, inputs, newIds) && UpsertSubtasks(subtasks, taskId, inputs, newIds).Ok?
    ensures var now := UpsertSubtasks(subtasks, taskId, inputs, newIds).value;
            && |StoredOf(now, taskId)| == |inputs| && |CompletedOf(now, taskId)| == CountCompleted(inputs)
            && (forall i :: 0 <= i < |inputs| && inputs[i].id.Some? && inputs[i].id.value in StoredOf(subtasks, taskId) ==>
                  inputs[i].id.value in now && now[inputs[i].id.value] ==
                    Subtask(taskId, inputs[i].title, inputs[i].isCompleted, inputs[i].assignee,
                            if inputs[i].position.Some? then inputs[i].position.value else i))
            && (forall i :: 0 <= i < |inputs| ==> exists s :: s in now && now[s] == RowFor(taskId, inputs[i], i))
            && (forall s :: s in StoredOf(subtasks, taskId) && s in now ==> exists i :: 0 <= i < |inputs| && inputs[i].id == Some(s))
            && (forall t :: t != taskId ==> StoredOf(now, t) == StoredOf(subtasks, t) && CompletedOf(now, t) == CompletedOf(subtasks, t))
  {
    InsertedRows(subtasks, taskId, inputs, newIds, |inputs|);
    InsertedCounts(subtasks, taskId, inputs, newIds, |inputs|);
    assert inputs[..|inputs|] == inputs;
    var base, now := OtherTasks(subtasks, taskId), UpsertSubtasks(subtasks, taskId, inputs, newIds).value;
    forall i | 0 <= i < |inputs| && inputs[i].id.Some? && inputs[i].id.value in StoredOf(subtasks, taskId)
      ensures inputs[i].id.value in now && now[inputs[i].id.value] == RowFor(taskId, inputs[i], i)
    {
      assert RowId(subtasks, taskId, inputs[i], newIds[i]) == inputs[i].id.value;
    }
    forall i | 0 <= i < |inputs| ensures exists s :: s in now && now[s] == RowFor(taskId, inputs[i], i) {
      assert now[RowId(subtasks, taskId, inputs[i], newIds[i])] == RowFor(taskId, inputs[i], i);
    }
    forall t, s | t != taskId ensures s in StoredOf(now, t) <==> s in StoredOf(subtasks, t) {
      OthersKeepRows(subtasks, taskId, inputs, newIds, s, t);
    }
    forall t, s | t != taskId ensures s in CompletedOf(now, t) <==> s in CompletedOf(subtasks, t) {
      OthersKeepRows(subtasks, taskId, inputs, newIds, s, t);
    }
  }

  lemma OthersKeepRows(subtasks: Subtasks, taskId: Uuid, inputs: seq<SubtaskInput>, newIds: seq<Uuid>, s: Uuid, t: Uuid)
    requires FreshIds(subtasks, inputs, newIds) && UpsertSubtasks(subtasks, taskId, inputs, newIds).Ok? && t != taskId
    ensures var now := UpsertSubtasks(subtasks, taskId, inputs, newIds).value;
            && (s in StoredOf(now, t) <==> s in StoredOf(subtasks, t))
            && (s in CompletedOf(now, t) <==> s in CompletedOf(subtasks, t))
  {
    InsertedRows(subtasks, taskId, inputs, newIds, |inputs|);
    var base, now := OtherTasks(subtasks, taskId), UpsertSubtasks(subtasks, taskId, inputs, newIds).value;
    if s in now && s !in base {
      var i :| 0 <= i < |inputs| && s == RowId(subtasks, taskId, inputs[i], newIds[i]);
      assert now[s].taskId == taskId;
    }
  }
}
