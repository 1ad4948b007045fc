/** Board requests that overlap. An update reads the task and its subtasks before its transaction opens, and every transaction
 *  computes the project summary before it commits; others may commit in between. */
module BoardOverlaps {
  import opened Prelude
  import opened TaskProgress
  import opened Text
  import opened BoardTasks
  import opened BoardRuns

  // ------------------------------------------------ what a late write of an update keeps

  /** `plan` is what the update `op` computes from having read `seen`, at whatever moments it read. */
  ghost predicate IsPlan(columns: map<Uuid, ColumnKey>, op: Op, seen: Seen, plan: Plan) {
    && op.Update? && seen.completed <= seen.total && 0 <= seen.row.checklistProgress <= 100
    && (op.patch.checklistProgress.Some? ==> 0 <= op.patch.checklistProgress.value <= 100)
    && Planned(columns, op.patch, seen, op.now) == Ok(plan)
  }

  lemma PlanFacts(columns: map<Uuid, ColumnKey>, op: Op, seen: Seen, plan: Plan)
    requires IsPlan(columns, op, seen, plan)
    ensures var r, to := plan.resolved, op.patch.columnId.GetOr(seen.row.columnId);
      && to in columns && plan.toKey == columns[to]
      && seen.row.columnId in columns && plan.fromKey == columns[seen.row.columnId]
      && 0 <= r.progress <= 100 && (r.completedAt.Some? <==> IsFinal(plan.toKey)) && (IsFinal(plan.toKey) ==> r.progress == 100)
    ensures op.patch.subtasks.Some? && op.patch.subtasks.value != [] ==>
      plan.resolved.progress == ChecklistProgress(|op.patch.subtasks.value|, CountCompleted(op.patch.subtasks.value))
    ensures op.patch.subtasks.None? && 0 < seen.total ==> plan.resolved.progress == ChecklistProgress(seen.total, seen.completed)
  {
    var p := op.patch;
    var total := if p.subtasks.Some? then |p.subtasks.value| else seen.total;
    var completed := if p.subtasks.Some? then CountCompleted(p.subtasks.value) else seen.completed;
    GateHolds(columns[p.columnId.GetOr(seen.row.columnId)], total, completed,
              p.checklistProgress.GetOr(seen.row.checklistProgress), seen.row.completedAt, op.now);
  }

  /** `b'` is the board after the late write, without the project summary. */
  ghost predicate IsLateWrite(b: Board, op: Op, seen: Seen, plan: Plan, b': Board) {
    && Structured(b) && IsPlan(b.columns, op, seen, plan) && Valid(b, op) && op.id in b.tasks
    && WriteUpdate(b, op.id, op.patch, plan, op.actor, op.newIds, op.now) == Ok(b')
  }

  lemma LateRow(b: Board, op: Op, seen: Seen, plan: Plan, b': Board)
    requires IsLateWrite(b, op, seen, plan, b')
    ensures var p, t := op.patch, b.tasks[op.id];
      && b'.columns == b.columns && b'.summary == b.summary
      && b'.tasks == b.tasks[op.id := PatchedTask(t, p.columnId.GetOr(t.columnId), plan.fromKey, plan.toKey, p, plan.resolved, op.actor, op.now)]
      && b'.tasks[op.id].columnId == p.columnId.GetOr(t.columnId) && b'.tasks[op.id].columnId in b.columns
      && b'.tasks[op.id].checklistProgress == plan.resolved.progress && b'.tasks[op.id].completedAt == plan.resolved.completedAt
      && KeyOf(b', op.id) == (if p.columnId.Some? then plan.toKey else KeyOf(b, op.id))
      && (forall u :: u in b.tasks && u != op.id ==> KeyOf(b', u) == KeyOf(b, u))
      && (if p.subtasks.None? then b'.subtasks == b.subtasks
          else UpsertSubtasks(b.subtasks, op.id, p.subtasks.value, op.newIds) == Ok(b'.subtasks))
  {
    PlanFacts(b.columns, op, seen, plan);
  }

  lemma LateWriteKeepsStructure(b: Board, op: Op, seen: Seen, plan: Plan, b': Board)
    requires IsLateWrite(b, op, seen, plan, b')
    ensures Structured(b')
  {
    LateRow(b, op, seen, plan, b');
    if op.patch.subtasks.Some? {
      ReplacedSubtasksBelong(b, op.id, op.patch.subtasks.value, op.newIds, b'.subtasks);
    }
  }

  lemma ReplacedSubtasksBelong(b: Board, id: Uuid, inputs: seq<SubtaskInput>, newIds: seq<Uuid>, subtasks: Subtasks)
    requires Structured(b) && FreshIds(b.subtasks, inputs, newIds) && UpsertSubtasks(b.subtasks, id, inputs, newIds) == Ok(subtasks)
    ensures forall s :: s in subtasks ==> subtasks[s].taskId == id || subtasks[s].taskId in b.tasks
  {
    UpsertReplacesTheSet(b.subtasks, id, inputs, newIds);
    forall s | s in subtasks ensures subtasks[s].taskId == id || subtasks[s].taskId in b.tasks {
      var t := subtasks[s].taskId;
      if t != id {
        assert s in StoredOf(subtasks, t);
        assert s in StoredOf(b.subtasks, t);
      }
    }
  }

  /** The progress that is written is that of the subtasks as they are by then. */
  predicate ProgressIsCurrent(b: Board, id: Uuid, plan: Plan) {
    StoredOf(b.subtasks, id) == {}
    || plan.resolved.progress == ChecklistProgress(|StoredOf(b.subtasks, id)|, |CompletedOf(b.subtasks, id)|)
  }

  /** Derived progress survives a late write exactly when the update brings its own subtasks, or the progress computed from the
   *  read is still that of the stored ones. */
  lemma {:induction false} LateWriteKeepsDerivedExactlyWhen(b: Board, op: Op, seen: Seen, plan: Plan, b': Board)
    requires Derived(b) && IsLateWrite(b, op, seen, plan, b')
    ensures Derived(b') <==> op.patch.subtasks.Some? || ProgressIsCurrent(b, op.id, plan)
  {
    LateRow(b, op, seen, plan, b');
    PlanFacts(b.columns, op, seen, plan);
    if op.patch.subtasks.Some? || ProgressIsCurrent(b, op.id, plan) {
      RowWritten(b, op.id, b', op.patch.subtasks.GetOr([]), op.newIds, op.patch.subtasks.Some?);
    } else {
      assert !ProgressOk(b', op.id);
    }
  }

  /** The gate holds of the task after a late write exactly when the update names a column, or the task's column is final now if
   *  and only if it was when read. */
  lemma {:induction false} LateWriteKeepsGateExactlyWhen(b: Board, op: Op, seen: Seen, plan: Plan, b': Board)
    requires IsLateWrite(b, op, seen, plan, b')
    ensures GateOk(b', op.id) <==> op.patch.columnId.Some? || (IsFinal(KeyOf(b, op.id)) <==> IsFinal(plan.toKey))
    ensures forall t :: t in b.tasks && t != op.id ==> (GateOk(b', t) <==> GateOk(b, t))
  {
    LateRow(b, op, seen, plan, b');
    PlanFacts(b.columns, op, seen, plan);
  }

  predicate PatchesBlockData(p: Patch) {
    p.blockReason.Some? || (p.blockType.Some? && p.blockType.value.Some?)
  }

  /** A named column outside `blocked`: the task was read as blocked, or carries no block data now. The blocked column by name:
   *  the task was read outside it, or is in it. No column: the task is blocked if it was read so, or no block data is patched. */
  predicate BlockDataFits(b: Board, id: Uuid, p: Patch, plan: Plan)
    requires id in b.tasks
  {
    if p.columnId.Some? && plan.toKey != BlockedKey then plan.fromKey == BlockedKey || NoBlockData(b.tasks[id])
    else if p.columnId.Some? then plan.fromKey != BlockedKey || KeyOf(b, id) == BlockedKey
    else plan.toKey != BlockedKey || KeyOf(b, id) == BlockedKey || !PatchesBlockData(p)
  }

  lemma {:induction false} LateWriteKeepsBlockDataExactlyWhen(b: Board, moved: set<Uuid>, op: Op, seen: Seen, plan: Plan, b': Board)
    requires BlockDataOk(b, moved) && IsLateWrite(b, op, seen, plan, b')
    ensures BlockDataOk(b', Moved(b, moved, b')) <==> BlockDataFits(b, op.id, op.patch, plan)
  {
    LateRow(b, op, seen, plan, b');
    PlanFacts(b.columns, op, seen, plan);
    LateRowBlockData(b, moved, op, seen, plan, b');
    LateWriteKeepsStructure(b, op, seen, plan, b');
    var moved' := Moved(b, moved, b');
    if BlockDataFits(b, op.id, op.patch, plan) {
      forall t | t in b'.tasks
        ensures (KeyOf(b', t) != BlockedKey ==> NoBlockData(b'.tasks[t])) && (t in moved' ==> FullBlockData(b'.tasks[t]))
      {
        assert t != op.id ==> b'.tasks[t] == b.tasks[t] && KeyOf(b', t) == KeyOf(b, t);
      }
    } else {
      assert KeyOf(b', op.id) == BlockedKey ==> op.id in moved';
    }
  }

  /** The block data of the row itself. */
  lemma LateRowBlockData(b: Board, moved: set<Uuid>, op: Op, seen: Seen, plan: Plan, b': Board)
    requires BlockDataOk(b, moved) && IsLateWrite(b, op, seen, plan, b')
    ensures var id, key, row := op.id, KeyOf(b', op.id), b'.tasks[op.id];
      if BlockDataFits(b, id, op.patch, plan)
      then (key != BlockedKey ==> NoBlockData(row))
           && (key == BlockedKey && (KeyOf(b, id) != BlockedKey || id in moved) ==> FullBlockData(row))
      else (key != BlockedKey && !NoBlockData(row)) || (key == BlockedKey && KeyOf(b, id) != BlockedKey && !FullBlockData(row))
  {
    LateRow(b, op, seen, plan, b');
    PlanFacts(b.columns, op, seen, plan);
    ReasonIsNonBlank(op.patch.blockReason.GetOr(None));
    if op.patch.blockReason.Some? {
      ReasonIsNonBlank(op.patch.blockReason.value);
    }
  }

  /** A caller who finds the task and its subtasks as they were read loses nothing. */
  lemma {:induction false} UnchangedTaskKeepsEverything(b: Board, moved: set<Uuid>, op: Op, seen: Seen, plan: Plan, b': Board)
    requires Derived(b) && BlockDataOk(b, moved) && IsLateWrite(b, op, seen, plan, b') && seen == Look(b, op.id)
    ensures Derived(b') && GateOk(b', op.id) && BlockDataOk(b', Moved(b, moved, b'))
  {
    LateRow(b, op, seen, plan, b');
    PlanFacts(b.columns, op, seen, plan);
    StoredCount(b.subtasks, op.id);
    LateWriteKeepsDerivedExactlyWhen(b, op, seen, plan, b');
    LateWriteKeepsGateExactlyWhen(b, op, seen, plan, b');
    LateWriteKeepsBlockDataExactlyWhen(b, moved, op, seen, plan, b');
  }

  // ----------------------------------------------------------------------- the machine

  /** A request under way: what an update has read of its task and of its subtasks, and the project summary that its
   *  transaction has computed. From then on the transaction holds its task's row. */
  datatype Request = Request(op: Op, row: Option<Task>, counts: Option<(nat, nat)>, sync: Option<Summary>)

  datatype State = State(board: Board, open: map<nat, Request>)

  /** `GiveUp` is any failure or rollback. The timeout job is one statement. */
  datatype Step =
    | Arrive(k: nat, op: Op)
    | ReadSubtasks(k: nat)
    | Summarize(k: nat)
    | Commit(k: nat)
    | GiveUp(k: nat)
    | Timeout(op: Op)

  function PlanOf(columns: map<Uuid, ColumnKey>, r: Request): Result<Plan, Error>
    requires r.op.Update? && r.row.Some? && r.counts.Some?
  {
    Planned(columns, r.op.patch, SeenBy(r), r.op.now)
  }

  function SeenBy(r: Request): Seen
    requires r.row.Some? && r.counts.Some?
  {
    Seen(r.row.value, r.counts.value.0, r.counts.value.1)
  }

  predicate NeedsSync(op: Op) {
    op.Update? ==> ProgressChanged(op.patch)
  }

  predicate Ready(columns: map<Uuid, ColumnKey>, r: Request) {
    !r.op.Sla? && (r.op.Update? ==> r.row.Some? && r.counts.Some? && PlanOf(columns, r).Ok?)
  }

  /** The board with the rows of the request written, and the summary as it is. */
  ghost function Written(b: Board, r: Request): Result<Board, Error>
    requires Ready(b.columns, r) && Valid(b, r.op)
  {
    if r.op.Update? then WriteUpdate(b, r.op.id, r.op.patch, PlanOf(b.columns, r).value, r.op.actor, r.op.newIds, r.op.now)
    else match Outcome(b, r.op)
         case Ok(b') => Ok(b'.(summary := b.summary))
         case Err(e) => Err(e)
  }

  /** No other transaction holds the row of the task. */
  predicate RowFree(s: State, k: nat)
    requires k in s.open && !s.open[k].op.Sla?
  {
    forall j :: j in s.open && j != k && s.open[j].sync.Some? && !s.open[j].op.Sla? ==> s.open[j].op.id != s.open[k].op.id
  }

  ghost predicate CanWrite(s: State, k: nat) {
    && k in s.open && Ready(s.board.columns, s.open[k]) && Valid(s.board, s.open[k].op)
    && Written(s.board, s.open[k]).Ok? && RowFree(s, k)
  }

  ghost predicate Enabled(s: State, step: Step) {
    match step
    case Arrive(k, op) => k !in s.open && !op.Sla? && (op.Update? ==> op.id in s.board.tasks)
    case ReadSubtasks(k) => k in s.open && s.open[k].op.Update? && s.open[k].counts.None?
    case Summarize(k) => CanWrite(s, k) && NeedsSync(s.open[k].op) && s.open[k].sync.None?
    case Commit(k) => CanWrite(s, k) && (NeedsSync(s.open[k].op) ==> s.open[k].sync.Some?)
    case GiveUp(k) => k in s.open
    case Timeout(op) =>
      op.Sla? && Valid(s.board, op)
      && forall j :: j in s.open && s.open[j].sync.Some? && !s.open[j].op.Sla? ==> s.open[j].op.id !in op.ids
  }

  ghost function Next(s: State, step: Step): State
    requires Enabled(s, step)
  {
    match step
    case Arrive(k, op) =>
      s.(open := s.open[k := Request(op, if op.Update? then Some(s.board.tasks[op.id]) else None, None, None)])
    case ReadSubtasks(k) =>
      var id := s.open[k].op.id;
      s.(open := s.open[k := s.open[k].(counts := Some((|StoredOf(s.board.subtasks, id)|, |CompletedOf(s.board.subtasks, id)|)))])
    case Summarize(k) =>
      s.(open := s.open[k := s.open[k].(sync := Some(Aggregate(Written(s.board, s.open[k]).value)))])
    case Commit(k) => State(Committed(s.board, s.open[k]), s.open - {k})
    case GiveUp(k) => s.(open := s.open - {k})
    case Timeout(op) => s.(board := Apply(s.board, op))
  }

  ghost function Committed(b: Board, r: Request): Board
    requires Ready(b.columns, r) && Valid(b, r.op) && Written(b, r).Ok? && (NeedsSync(r.op) ==> r.sync.Some?)
  {
    Written(b, r).value.(summary := if NeedsSync(r.op) then r.sync.value else b.summary)
  }

  ghost predicate Reaches(s: State, steps: seq<Step>, s': State)
    decreases |steps|
  {
    if steps == [] then s == s'
    else Enabled(s, steps[0]) && Reaches(Next(s, steps[0]), steps[1..], s')
  }

  // ---------------------------------------------------------------- undisturbed commits

  /** The request commits on a board on which it would read and summarize the same. */
  ghost predicate Undisturbed(s: State, k: nat)
    requires CanWrite(s, k)
  {
    var r := s.open[k];
    && (r.op.Update? ==> r.op.id in s.board.tasks && SeenBy(r) == Look(s.board, r.op.id))
    && (NeedsSync(r.op) ==> r.sync == Some(Aggregate(Written(s.board, r).value)))
  }

  /** Such a commit is the operation as a whole. */
  lemma UndisturbedCommitIsAtomic(s: State, k: nat)
    requires Enabled(s, Commit(k)) && Undisturbed(s, k)
    ensures var op := s.open[k].op; Outcome(s.board, op).Ok? && Next(s, Commit(k)).board == Apply(s.board, op)
  {
    var r, b := s.open[k], s.board;
    if r.op.Update? {
      UpdateIsReadThenWrite(b, r.op.id, r.op.patch, r.op.actor, r.op.newIds, r.op.now);
    } else {
      OutcomeIsSynced(b, r.op);
    }
  }

  lemma OutcomeIsSynced(b: Board, op: Op)
    requires Valid(b, op) && (op.Create? || op.Block? || op.Unblock?) && Outcome(b, op).Ok?
    ensures var b' := Outcome(b, op).value; b' == Sync(b'.(summary := b.summary))
  {
    if op.Create? {
      CreateEffect(b, op);
    } else if op.Block? {
      BlockEffect(b, op);
    } else {
      UnblockEffect(b, op);
    }
  }

  /** Every commit of the run is undisturbed. */
  ghost predicate AllUndisturbed(s: State, steps: seq<Step>, s': State)
    requires Reaches(s, steps, s')
    decreases |steps|
  {
    steps == [] || ((steps[0].Commit? ==> Undisturbed(s, steps[0].k)) && AllUndisturbed(Next(s, steps[0]), steps[1..], s'))
  }

  /** However requests overlap: if no commit is disturbed, the operations might as well have run one after the other, in the order
   *  of their commits. So all results over runs hold of the board. */
  lemma {:induction false} UndisturbedRunsAreSerial(s: State, steps: seq<Step>, s': State) returns (ops: seq<Op>)
    requires Reaches(s, steps, s') && AllUndisturbed(s, steps, s')
    ensures BoardRuns.Reaches(s.board, ops, s'.board)
    decreases |steps|
  {
    if steps == [] {
      ops := [];
    } else {
      var step := steps[0];
      var rest := UndisturbedRunsAreSerial(Next(s, step), steps[1..], s');
      if step.Commit? || step.Timeout? {
        var op := if step.Commit? then s.open[step.k].op else step.op;
        if step.Commit? {
          UndisturbedCommitIsAtomic(s, step.k);
        }
        ops := [op] + rest;
        assert ops[1..] == rest;
      } else {
        ops := rest;
      }
    }
  }

  // ------------------------------------------------------------------- building runs

  lemma {:induction false} ReachesOneMore(s: State, steps: seq<Step>, m: State, step: Step)
    requires Reaches(s, steps, m) && Enabled(m, step)
    ensures Reaches(s, steps + [step], Next(m, step))
    decreases |steps|
  {
    if steps == [] {
      assert Reaches(Next(m, step), [], Next(m, step));
      assert (steps + [step])[1..] == [];
    } else {
      ReachesOneMore(Next(s, steps[0]), steps[1..], m, step);
      assert (steps + [step])[1..] == steps[1..] + [step];
    }
  }

  predicate NobodyWrites(s: State) {
    forall j :: j in s.open ==> s.open[j].sync.None?
  }

  /** What a request leaves that summarizes and commits at once. */
  ghost function WrittenAtOnce(b: Board, r: Request): Board
    requires Ready(b.columns, r) && Valid(b, r.op) && Written(b, r).Ok?
  {
    var w := Written(b, r).value;
    w.(summary := if NeedsSync(r.op) then Aggregate(w) else b.summary)
  }

  lemma {:induction false} WriteAtOnce(s0: State, steps0: seq<Step>, s: State, k: nat) returns (steps: seq<Step>)
    requires Reaches(s0, steps0, s) && CanWrite(s, k) && s.open[k].sync.None?
    ensures Reaches(s0, steps, State(WrittenAtOnce(s.board, s.open[k]), s.open - {k}))
  {
    var m := s;
    steps := steps0;
    if NeedsSync(s.open[k].op) {
      ReachesOneMore(s0, steps, s, Summarize(k));
      SummarizeEffect(s, k);
      steps, m := steps + [Summarize(k)], Next(s, Summarize(k));
    }
    ReachesOneMore(s0, steps, m, Commit(k));
    steps := steps + [Commit(k)];
    assert m.open - {k} == s.open - {k};
  }

  lemma SummarizeEffect(s: State, k: nat)
    requires Enabled(s, Summarize(k))
    ensures var s', r := Next(s, Summarize(k)), s.open[k];
      && s' == State(s.board, s.open[k := r.(sync := Some(Aggregate(Written(s.board, r).value)))])
      && CanWrite(s', k) && Written(s'.board, s'.open[k]) == Written(s.board, r)
  {
    var s' := Next(s, Summarize(k));
    assert RowFree(s', k);
    assert s'.open[k].op.Update? ==> PlanOf(s.board.columns, s'.open[k]) == PlanOf(s.board.columns, s.open[k]);
  }

  /** An operation nothing comes between is a run, so serial runs are among the overlapping ones. */
  lemma {:induction false} SerialIsARun(s0: State, steps0: seq<Step>, s: State, k: nat, op: Op) returns (steps: seq<Step>)
    requires Reaches(s0, steps0, s) && NobodyWrites(s) && k !in s.open
    requires !op.Sla? && Valid(s.board, op) && Outcome(s.board, op).Ok?
    ensures Reaches(s0, steps, State(Apply(s.board, op), s.open))
  {
    var r;
    steps, r := ReadsFirst(s0, steps0, s, k, op);
    var m := State(s.board, s.open[k := r]);
    ReadIsReady(s.board, r);
    steps := WriteAtOnce(s0, steps, m, k);
    WrittenAtOnceIsAtomic(s.board, r);
    assert m.open - {k} == s.open;
  }

  lemma WrittenAtOnceIsAtomic(b: Board, r: Request)
    requires Ready(b.columns, r) && Valid(b, r.op) && Written(b, r).Ok? && r.sync.None?
    requires r.op.Update? ==> r.op.id in b.tasks && SeenBy(r) == Look(b, r.op.id)
    ensures Outcome(b, r.op).Ok? && WrittenAtOnce(b, r) == Apply(b, r.op)
  {
    if r.op.Update? {
      UpdateIsReadThenWrite(b, r.op.id, r.op.patch, r.op.actor, r.op.newIds, r.op.now);
      assert Written(b, r).value.summary == b.summary;
    } else {
      OutcomeIsSynced(b, r.op);
    }
  }

  /** The request as it is after its reads. */
  function AfterReads(b: Board, op: Op): Request
    requires op.Update? ==> op.id in b.tasks
  {
    if op.Update? then Request(op, Some(b.tasks[op.id]), Some((|StoredOf(b.subtasks, op.id)|, |CompletedOf(b.subtasks, op.id)|)), None)
    else Request(op, None, None, None)
  }

  lemma {:induction false} ReadsFirst(s0: State, steps0: seq<Step>, s: State, k: nat, op: Op) returns (steps: seq<Step>, r: Request)
    requires Reaches(s0, steps0, s) && k !in s.open && !op.Sla? && (op.Update? ==> op.id in s.board.tasks)
    ensures r == AfterReads(s.board, op) && Reaches(s0, steps, State(s.board, s.open[k := r]))
  {
    ReachesOneMore(s0, steps0, s, Arrive(k, op));
    var m := Next(s, Arrive(k, op));
    steps, r := steps0 + [Arrive(k, op)], m.open[k];
    if op.Update? {
      ReachesOneMore(s0, steps, m, ReadSubtasks(k));
      steps, m := steps + [ReadSubtasks(k)], Next(m, ReadSubtasks(k));
      r := m.open[k];
    }
    assert m == State(s.board, s.open[k := r]);
  }

  lemma ReadIsReady(b: Board, r: Request)
    requires !r.op.Sla? && Valid(b, r.op) && Outcome(b, r.op).Ok? && (r.op.Update? ==> r.op.id in b.tasks)
    requires r == AfterReads(b, r.op)
    ensures Ready(b.columns, r) && Written(b, r).Ok?
  {
    if r.op.Update? {
      UpdateIsReadThenWrite(b, r.op.id, r.op.patch, r.op.actor, r.op.newIds, r.op.now);
    }
  }

  // -------------------------------------------------------------- what holds regardless

  ghost predicate RowsBounded(b: Board) {
    && Structured(b)
    && (forall t :: t in b.tasks ==> 0 <= b.tasks[t].checklistProgress <= 100)
    && (forall t :: t in b.tasks && b.tasks[t].completedAt.Some? ==> b.tasks[t].checklistProgress == 100)
  }

  predicate RequestBounded(columns: map<Uuid, ColumnKey>, r: Request) {
    && !r.op.Sla?
    && (r.row.Some? ==> 0 <= r.row.value.checklistProgress <= 100)
    && (r.counts.Some? ==> r.counts.value.1 <= r.counts.value.0)
    && (r.sync.Some? ==> 0 <= r.sync.value.progress <= 100)
  }

  ghost predicate Bounded(s: State) {
    RowsBounded(s.board) && 0 <= s.board.summary.progress <= 100
    && forall k :: k in s.open ==> RequestBounded(s.board.columns, s.open[k])
  }

  lemma AggregateOfBounded(b: Board)
    requires RowsBounded(b)
    ensures 0 <= Aggregate(b).progress <= 100
  {
    assert forall t :: t in Scores(b) ==> 0 <= Scores(b)[t] <= 100;
    if Scores(b) != map[] {
      AverageBounds(Scores(b), 0, 100);
    }
  }

  lemma WrittenIsBounded(b: Board, r: Request)
    requires RowsBounded(b) && RequestBounded(b.columns, r) && Ready(b.columns, r) && Valid(b, r.op) && Written(b, r).Ok?
    ensures RowsBounded(Written(b, r).value)
  {
    if r.op.Update? {
      UpdateIsBounded(b, r);
    } else if r.op.Create? {
      CreateIsBounded(b, r.op);
    } else {
      MoveIsBounded(b, r.op);
    }
  }

  lemma UpdateIsBounded(b: Board, r: Request)
    requires RowsBounded(b) && RequestBounded(b.columns, r) && Ready(b.columns, r) && Valid(b, r.op) && Written(b, r).Ok?
    requires r.op.Update?
    ensures RowsBounded(Written(b, r).value)
  {
    var plan, b' := PlanOf(b.columns, r).value, Written(b, r).value;
    LateRow(b, r.op, SeenBy(r), plan, b');
    PlanFacts(b.columns, r.op, SeenBy(r), plan);
    LateWriteKeepsStructure(b, r.op, SeenBy(r), plan, b');
  }

  lemma CreateIsBounded(b: Board, op: Op)
    requires RowsBounded(b) && op.Create? && Valid(b, op) && Outcome(b, op).Ok?
    ensures RowsBounded(Outcome(b, op).value.(summary := b.summary))
  {
    CreateEffect(b, op);
    CreateResolvedFacts(b, op);
    CreateKeepsStructure(b, op);
  }

  lemma CreateKeepsStructure(b: Board, op: Op)
    requires Structured(b) && op.Create? && Valid(b, op) && Outcome(b, op).Ok?
    ensures Structured(Outcome(b, op).value)
  {
    CreateEffect(b, op);
    if op.p.subtasks != [] {
      ReplacedSubtasksBelong(b, op.id, op.p.subtasks, op.newIds, Outcome(b, op).value.subtasks);
    }
  }

  lemma MoveIsBounded(b: Board, op: Op)
    requires RowsBounded(b) && (op.Block? || op.Unblock?) && Valid(b, op) && Outcome(b, op).Ok?
    ensures RowsBounded(Outcome(b, op).value.(summary := b.summary))
  {
    if op.Block? {
      BlockIsBounded(b, op);
    } else {
      UnblockEffect(b, op);
    }
  }

  lemma BlockIsBounded(b: Board, op: Op)
    requires RowsBounded(b) && op.Block? && Valid(b, op) && Outcome(b, op).Ok?
    ensures RowsBounded(Outcome(b, op).value.(summary := b.summary))
  {
    BlockEffect(b, op);
  }

  lemma StepKeepsBounded(s: State, step: Step)
    requires Bounded(s) && Enabled(s, step)
    ensures Bounded(Next(s, step))
  {
    match step
    case Summarize(k) => SummarizeKeepsBounded(s, k);
    case Commit(k) => WrittenIsBounded(s.board, s.open[k]);
    case Timeout(op) => TimeoutIsBounded(s.board, op);
    case _ => ReadingKeepsBounded(s, step);
  }

  lemma SummarizeKeepsBounded(s: State, k: nat)
    requires Bounded(s) && Enabled(s, Summarize(k))
    ensures Bounded(Next(s, Summarize(k)))
  {
    WrittenIsBounded(s.board, s.open[k]);
    AggregateOfBounded(Written(s.board, s.open[k]).value);
  }

  lemma ReadingKeepsBounded(s: State, step: Step)
    requires Bounded(s) && Enabled(s, step) && (step.Arrive? || step.ReadSubtasks? || step.GiveUp?)
    ensures Bounded(Next(s, step))
  {
    if step.ReadSubtasks? {
      CompletedAreStored(s.board.subtasks, s.open[step.k].op.id);
    }
  }

  lemma TimeoutIsBounded(b: Board, op: Op)
    requires RowsBounded(b) && op.Sla? && Valid(b, op)
    ensures RowsBounded(Apply(b, op)) && Apply(b, op).summary == b.summary && Apply(b, op).columns == b.columns
  {
  }

  lemma EmptyBoardIsBounded(columns: map<Uuid, ColumnKey>)
    ensures Bounded(State(EmptyBoard(columns), map[]))
  {
  }

  /** However requests overlap: progress is a percentage, of tasks and of the project, and a completed task is at 100. */
  lemma {:induction false} CompletionMeansHundred(s: State, steps: seq<Step>, s': State)
    requires Bounded(s) && Reaches(s, steps, s')
    ensures Bounded(s')
    ensures forall t :: t in s'.board.tasks && s'.board.tasks[t].completedAt.Some? ==> s'.board.tasks[t].checklistProgress == 100
    decreases |steps|
  {
    if steps != [] {
      StepKeepsBounded(s, steps[0]);
      CompletionMeansHundred(Next(s, steps[0]), steps[1..], s');
    }
  }
}
