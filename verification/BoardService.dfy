/** The board operations as the services run them: successive updates of the project's rows, undone when one fails. */
module BoardService {
  import opened Prelude
  import opened TaskProgress
  import opened Text
  import opened BoardTasks
  import opened BoardRuns

  class ProjectBoard {
    var columns: map<Uuid, ColumnKey>
    var tasks: map<Uuid, Task>
    var subtasks: Subtasks
    var summary: Summary

    constructor (columns: map<Uuid, ColumnKey>)
      ensures State() == Board(columns, map[], map[], Summary(Todo, 0))
    {
      this.columns, tasks, subtasks, summary := columns, map[], map[], Summary(Todo, 0);
    }

    function State(): Board
      reads this
    {
      Board(columns, tasks, subtasks, summary)
    }

    /** Deletes what the new list drops, then inserts or overwrites one row per input. */
    method ReplaceSubtasks(taskId: Uuid, inputs: seq<SubtaskInput>, newIds: seq<Uuid>) returns (r: Result<(), Error>)
      requires FreshIds(subtasks, inputs, newIds)
      modifies this`subtasks
      ensures r.Ok? <==> UpsertSubtasks(old(subtasks), taskId, inputs, newIds).Ok?
      ensures r.Ok? ==> UpsertSubtasks(old(subtasks), taskId, inputs, newIds) == Ok(subtasks)
      ensures r.Err? ==> subtasks == old(subtasks) && UpsertSubtasks(subtasks, taskId, inputs, newIds) == Err(r.error)
    {
      if inputs == [] {
        subtasks := subtasks - StoredOf(subtasks, taskId);
        return Ok(());
      }
      if HasDuplicateIds(inputs) {
        return Err(DuplicateSubtask);
      }
      if HasForeignId(subtasks, taskId, inputs) {
        return Err(ForeignSubtask);
      }
      ghost var before := subtasks;
      var incoming := set i | 0 <= i < |inputs| && inputs[i].id.Some? :: inputs[i].id.value;
      var existing := set s | s in StoredOf(subtasks, taskId) && s in incoming;
      ghost var kept := map s | s in existing :: before[s];
      subtasks := subtasks - (StoredOf(subtasks, taskId) - existing);
      assert subtasks == kept + OtherTasks(before, taskId);
      WriteSubtasks(taskId, inputs, newIds, existing, before, kept);
      KeptAreOverwritten(before, taskId, inputs, newIds, existing);
      return Ok(());
    }

    method WriteSubtasks(taskId: Uuid, inputs: seq<SubtaskInput>, newIds: seq<Uuid>, existing: set<Uuid>, ghost before: Subtasks, ghost kept: Subtasks)
      requires |newIds| == |inputs| && existing <= StoredOf(before, taskId)
      requires forall i :: 0 <= i < |inputs| && inputs[i].id.Some? && inputs[i].id.value in StoredOf(before, taskId) ==>
        inputs[i].id.value in existing
      requires subtasks == kept + OtherTasks(before, taskId)
      modifies this`subtasks
      ensures subtasks == kept + Inserted(OtherTasks(before, taskId), before, taskId, inputs, newIds, |inputs|)
    {
      ghost var base := OtherTasks(before, taskId);
      var i := 0;
      while i < |inputs|
        invariant 0 <= i <= |inputs|
        invariant subtasks == kept + Inserted(base, before, taskId, inputs, newIds, i)
      {
        var id := if inputs[i].id.Some? && inputs[i].id.value in existing then inputs[i].id.value else newIds[i];
        assert id == RowId(before, taskId, inputs[i], newIds[i]);
        MergeThenWrite(kept, Inserted(base, before, taskId, inputs, newIds, i), id, RowFor(taskId, inputs[i], i));
        subtasks := subtasks[id := RowFor(taskId, inputs[i], i)];
        i := i + 1;
      }
    }

    static method SumOf(scores: map<Uuid, int>) returns (sum: int)
      ensures sum == Sum(scores.Keys, scores)
    {
      sum := 0;
      var rest := scores.Keys;
      while rest != {}
        invariant rest <= scores.Keys && sum == Sum(scores.Keys - rest, scores)
      {
        var t :| t in rest;
        SumAdd(scores.Keys - rest, t, scores);
        assert (scores.Keys - rest) + {t} == scores.Keys - (rest - {t});
        sum := sum + scores[t];
        rest := rest - {t};
      }
      assert scores.Keys - rest == scores.Keys;
    }

    /** Counts and averages the tasks and stores the outcome in the project row. */
    method SyncProjectStatusAndProgress()
      modifies this`summary
      ensures State() == Sync(old(State()))
    {
      var keys, scores := Keys(State()), Scores(State());
      var sum := SumOf(scores);
      var total, done, review, pending :=
        |tasks|, |WithKey(keys, DoneKey)|, |WithKey(keys, ClientApprovalKey)|, |WithKey(keys, PendingKey)|;
      SizesAgree(State());
      var status :=
        if total > 0 && total == done then Completed
        else if total > 0 && review > 0 then InReview
        else if total > 0 && pending < total then InProgress
        else Todo;
      StatusFromCounts(keys);
      AverageFromSum(scores, sum, total);
      summary := Summary(status, if total == 0 then 0 else Rounded(sum, total));
    }

    method CreateTask(id: Uuid, p: NewTask, newIds: seq<Uuid>, now: Time) returns (r: Result<(), Error>)
      requires id !in tasks && FreshIds(subtasks, p.subtasks, newIds)
      modifies this`tasks, this`subtasks, this`summary
      ensures r.Ok? ==> BoardTasks.CreateTask(old(State()), id, p, newIds, now) == Ok(State())
      ensures r.Err? ==> State() == old(State()) && BoardTasks.CreateTask(State(), id, p, newIds, now) == Err(r.error)
    {
      if p.columnId !in columns {
        return Err(BadColumn);
      }
      var resolved := Resolve(columns[p.columnId], |p.subtasks|, CountCompleted(p.subtasks), p.checklistProgress, None, now);
      if resolved.Err? {
        return Err(resolved.error);
      }
      var saved := tasks;
      tasks := tasks[id := NewRow(p.columnId, p, resolved.value, now)];
      if p.subtasks != [] {
        var replaced := ReplaceSubtasks(id, p.subtasks, newIds);
        if replaced.Err? {
          tasks := saved;
          return Err(replaced.error);
        }
      }
      SyncProjectStatusAndProgress();
      return Ok(());
    }

    /** Before its transaction: reads the task and its subtasks and computes what to write. */
    method ReadForUpdate(id: Uuid, p: Patch, now: Time) returns (r: Result<Plan, Error>)
      ensures r == if id in tasks then Planned(columns, p, Look(State(), id), now) else Err(NotFound)
    {
      if id !in tasks || tasks[id].columnId !in columns {
        return Err(NotFound);
      }
      var task := tasks[id];
      var to := p.columnId.GetOr(task.columnId);
      if to !in columns {
        return Err(BadColumn);
      }
      var total := if p.subtasks.Some? then |p.subtasks.value| else |StoredOf(subtasks, id)|;
      var completed := if p.subtasks.Some? then CountCompleted(p.subtasks.value) else |CompletedOf(subtasks, id)|;
      var resolved := Resolve(columns[to], total, completed, p.checklistProgress.GetOr(task.checklistProgress), task.completedAt, now);
      if resolved.Err? {
        return Err(resolved.error);
      }
      return Ok(Plan(columns[task.columnId], columns[to], resolved.value));
    }

    /** The transaction: writes what was computed, whatever the rows are by now. */
    method CommitUpdate(id: Uuid, p: Patch, plan: Plan, actor: Uuid, newIds: seq<Uuid>, now: Time) returns (r: Result<(), Error>)
      requires p.subtasks.Some? ==> FreshIds(subtasks, p.subtasks.value, newIds)
      modifies this`tasks, this`subtasks, this`summary
      ensures r.Ok? ==> SyncAfter(p, WriteUpdate(old(State()), id, p, plan, actor, newIds, now)) == Ok(State())
      ensures r.Err? ==> State() == old(State()) && WriteUpdate(State(), id, p, plan, actor, newIds, now) == Err(r.error)
    {
      if id !in tasks {
        return Err(NotFound);
      }
      var saved, task := tasks, tasks[id];
      tasks := tasks[id := PatchedTask(task, p.columnId.GetOr(task.columnId), plan.fromKey, plan.toKey, p, plan.resolved, actor, now)];
      if p.subtasks.Some? {
        var replaced := ReplaceSubtasks(id, p.subtasks.value, newIds);
        if replaced.Err? {
          tasks := saved;
          return Err(replaced.error);
        }
      }
      if ProgressChanged(p) {
        SyncProjectStatusAndProgress();
      }
      return Ok(());
    }

    method UpdateTask(id: Uuid, p: Patch, actor: Uuid, newIds: seq<Uuid>, now: Time) returns (r: Result<(), Error>)
      requires p.subtasks.Some? ==> FreshIds(subtasks, p.subtasks.value, newIds)
      modifies this`tasks, this`subtasks, this`summary
      ensures r.Ok? ==> BoardTasks.UpdateTask(old(State()), id, p, actor, newIds, now) == Ok(State())
      ensures r.Err? ==> State() == old(State()) && BoardTasks.UpdateTask(State(), id, p, actor, newIds, now) == Err(r.error)
    {
      UpdateIsReadThenWrite(State(), id, p, actor, newIds, now);
      var plan := ReadForUpdate(id, p, now);
      if plan.Err? {
        return Err(plan.error);
      }
      r := CommitUpdate(id, p, plan.value, actor, newIds, now);
    }

    /** findTaskColumnByKey; keys are unique within a project. */
    method FindColumnByKey(key: ColumnKey) returns (c: Option<Uuid>)
      requires forall a, b :: a in columns && b in columns && columns[a] == columns[b] ==> a == b
      ensures c == if HasColumn(State(), key) then Some(ColumnWith(State(), key)) else None
    {
      if exists a :: a in columns && columns[a] == key {
        var a :| a in columns && columns[a] == key;
        return Some(a);
      }
      return None;
    }

    method BlockTask(id: Uuid, reason: string, actor: Uuid, now: Time) returns (r: Result<(), Error>)
      requires forall a, b :: a in columns && b in columns && columns[a] == columns[b] ==> a == b
      modifies this`tasks, this`summary
      ensures r.Ok? ==> BoardTasks.BlockTask(old(State()), id, reason, actor, now) == Ok(State())
      ensures r.Err? ==> State() == old(State()) && BoardTasks.BlockTask(State(), id, reason, actor, now) == Err(r.error)
    {
      if id !in tasks {
        return Err(NotFound);
      }
      var blockedColumn := FindColumnByKey(BlockedKey);
      if blockedColumn.None? {
        return Err(BadColumn);
      }
      tasks := tasks[id := BlockedRow(tasks[id], blockedColumn.value, reason, actor, now)];
      SyncProjectStatusAndProgress();
      return Ok(());
    }

    method UnblockTask(id: Uuid, target: Option<Uuid>, now: Time) returns (r: Result<(), Error>)
      requires forall a, b :: a in columns && b in columns && columns[a] == columns[b] ==> a == b
      modifies this`tasks, this`summary
      ensures r.Ok? ==> BoardTasks.UnblockTask(old(State()), id, target, now) == Ok(State())
      ensures r.Err? ==> State() == old(State()) && BoardTasks.UnblockTask(State(), id, target, now) == Err(r.error)
    {
      if id !in tasks {
        return Err(NotFound);
      }
      var to := target;
      if target.Some? {
        if target.value !in columns || columns[target.value] == BlockedKey {
          return Err(BadColumn);
        }
      } else {
        to := FindColumnByKey(DoingKey);
        if to.None? {
          to := FindColumnByKey(PendingKey);
        }
        if to.None? {
          return Err(BadColumn);
        }
      }
      tasks := tasks[id := UnblockedRow(tasks[id], to.value, columns[to.value], now)];
      SyncProjectStatusAndProgress();
      return Ok(());
    }

    /** What the approval-timeout statement does to this project: overdue tasks nobody else has locked, and only if there is a
     *  blocked column. The statement takes up to 100 tasks of all projects; `limit` is what the others leave of that. One
     *  event is emitted per returned id. */
    method CheckClientApprovalSla(now: Time, timeoutMs: int, limit: nat, locked: set<Uuid>) returns (taskIds: seq<Uuid>, ghost ids: set<Uuid>)
      requires limit <= SLA_LIMIT
      requires forall a, b :: a in columns && b in columns && columns[a] == columns[b] ==> a == b
      modifies this`tasks
      ensures ids <= Overdue(old(State()), now, timeoutMs) - locked && |ids| <= limit
      ensures |ids| < limit && HasColumn(old(State()), BlockedKey) ==> ids == Overdue(old(State()), now, timeoutMs) - locked
      ensures State() == CheckSla(old(State()), ids, now)
      ensures Distinct(taskIds) && forall t :: t in taskIds <==> t in ids
    {
      taskIds, ids := [], {};
      var blockedColumn := FindColumnByKey(BlockedKey);
      if blockedColumn.None? {
        return;
      }
      taskIds := Pick(Overdue(State(), now, timeoutMs) - locked, limit);
      ids := SeqSet(taskIds);
      DistinctSize(taskIds);
      if |ids| < limit {
        assert ids == Overdue(State(), now, timeoutMs) - locked;
      }
      tasks := map t | t in tasks :: if t in taskIds then TimedOutRow(tasks[t], blockedColumn.value, now) else tasks[t];
    }

    /** When nothing comes between the statements of an operation, the methods of this class are the operations of the board
     *  machine. The timeout job picks its tasks itself; `done` is what has been done. */
    method Perform(op: Op, locked: set<Uuid>) returns (ghost done: Op)
      requires Valid(State(), op)
      requires forall a, b :: a in columns && b in columns && columns[a] == columns[b] ==> a == b
      modifies this`tasks, this`subtasks, this`summary
      ensures Valid(old(State()), done) && State() == Apply(old(State()), done)
      ensures if op.Sla? then done.Sla? && done == op.(ids := done.ids) else done == op
    {
      done := op;
      match op
      case Create(id, p, newIds, now) => var _ := CreateTask(id, p, newIds, now);
      case Update(id, patch, actor, newIds, now) => var _ := UpdateTask(id, patch, actor, newIds, now);
      case Block(id, reason, actor, now) => var _ := BlockTask(id, reason, actor, now);
      case Unblock(id, target, now) => var _ := UnblockTask(id, target, now);
      case Sla(_, now, timeoutMs) =>
        var taskIds;
        ghost var ids;
        taskIds, ids := CheckClientApprovalSla(now, timeoutMs, SLA_LIMIT, locked);
        done := op.(ids := ids);
    }

    static method Pick(all: set<Uuid>, limit: nat) returns (picked: seq<Uuid>)
      ensures Distinct(picked) && |picked| <= limit
      ensures forall t :: t in picked ==> t in all
      ensures |picked| < limit ==> forall t :: t in all ==> t in picked
    {
      picked := [];
      var rest := all;
      while |picked| < limit && rest != {}
        invariant |picked| <= limit && rest <= all && Distinct(picked)
        invariant forall t :: t in picked <==> t in all && t !in rest
        decreases rest
      {
        var t :| t in rest;
        picked, rest := picked + [t], rest - {t};
      }
    }
  }

  lemma MergeThenWrite(kept: Subtasks, written: Subtasks, id: Uuid, row: Subtask)
    ensures (kept + written)[id := row] == kept + written[id := row]
  {
  }

  lemma KeptAreOverwritten(before: Subtasks, taskId: Uuid, inputs: seq<SubtaskInput>, newIds: seq<Uuid>, existing: set<Uuid>)
    requires FreshIds(before, inputs, newIds) && !HasDuplicateIds(inputs)
    requires forall s :: s in existing ==> s in StoredOf(before, taskId) && exists i :: 0 <= i < |inputs| && inputs[i].id == Some(s)
    ensures var now := Inserted(OtherTasks(before, taskId), before, taskId, inputs, newIds, |inputs|);
            (map s | s in existing :: before[s]) + now == now
  {
    InsertedRows(before, taskId, inputs, newIds, |inputs|);
    var now := Inserted(OtherTasks(before, taskId), before, taskId, inputs, newIds, |inputs|);
    forall s | s in existing ensures s in now {
      var i :| 0 <= i < |inputs| && inputs[i].id == Some(s);
      assert RowId(before, taskId, inputs[i], newIds[i]) == s;
    }
  }

  lemma StatusFromCounts(keys: map<Uuid, ColumnKey>)
    ensures StatusOf(keys) ==
      if |keys| > 0 && |keys| == |WithKey(keys, DoneKey)| then Completed
      else if |keys| > 0 && |WithKey(keys, ClientApprovalKey)| > 0 then InReview
      else if |keys| > 0 && |WithKey(keys, PendingKey)| < |keys| then InProgress
      else Todo
  {
    assert keys == map[] <==> |keys| == 0;
    if WithKey(keys, ClientApprovalKey) != {} {
      var t :| t in WithKey(keys, ClientApprovalKey);
      assert t in keys;
    }
  }
}
