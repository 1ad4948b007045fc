/** Runs of overlapping board requests, from a new board, that break what serial runs keep. */
module OverlapCounterexamples {
  import opened Prelude
  import opened TaskProgress
  import opened Text
  import opened BoardTasks
  import opened BoardRuns
  import opened BoardCounterexamples
  import Over = BoardOverlaps

  const NO_PATCH := Patch(None, None, None, None, None, None, None)

  function Rename(t: Uuid, title: string, actor: Uuid, now: Time): Op {
    Update(t, NO_PATCH.(title := Some(title)), actor, [], now)
  }

  function MoveInto(t: Uuid, column: Uuid, actor: Uuid, now: Time): Op {
    Update(t, NO_PATCH.(columnId := Some(column)), actor, [], now)
  }

  /** Sets the one subtask of a task. */
  function SetSubtask(t: Uuid, s: Uuid, done: bool, actor: Uuid, newId: Uuid, now: Time): Op {
    Update(t, NO_PATCH.(subtasks := Some([SubtaskInput(Some(s), "", done, None, None)])), actor, [newId], now)
  }

  function Begin(columns: map<Uuid, ColumnKey>): Over.State {
    Over.State(EmptyBoard(columns), map[])
  }

  /** The update `late` reads, `between` runs as a whole, and then `late` writes. */
  lemma OneOverlap(start: Over.State, steps0: seq<Over.Step>, b: Board, between: Op, late: Op, plan: Plan, w: Board)
    returns (steps: seq<Over.Step>, b': Board)
    requires Over.Reaches(start, steps0, Over.State(b, map[]))
    requires late.Update? && late.id in b.tasks && Planned(b.columns, late.patch, Look(b, late.id), late.now) == Ok(plan)
    requires !between.Sla? && Valid(b, between) && Outcome(b, between).Ok?
    requires Apply(b, between).columns == b.columns && Valid(Apply(b, between), late)
    requires WriteUpdate(Apply(b, between), late.id, late.patch, plan, late.actor, late.newIds, late.now) == Ok(w)
    ensures Over.Reaches(start, steps, Over.State(b', map[])) && b' == w.(summary := b'.summary)
  {
    var r;
    steps, r := Over.ReadsFirst(start, steps0, Over.State(b, map[]), 1, late);
    var read := Over.State(b, map[][1 := r]);
    steps := Over.SerialIsARun(start, steps, read, 2, between);
    var s := Over.State(Apply(b, between), read.open);
    assert Over.PlanOf(s.board.columns, r) == Ok(plan);
    assert Over.Written(s.board, r) == Ok(w);
    steps := Over.WriteAtOnce(start, steps, s, 1);
    b' := Over.WrittenAtOnce(s.board, r);
    assert s.open - {1} == map[];
  }

  lemma CreateFirst(columns: map<Uuid, ColumnKey>, create: Op) returns (steps: seq<Over.Step>)
    requires create.Create? && Valid(EmptyBoard(columns), create) && Outcome(EmptyBoard(columns), create).Ok?
    ensures Over.Reaches(Begin(columns), steps, Over.State(Apply(EmptyBoard(columns), create), map[]))
  {
    assert Over.Reaches(Begin(columns), [], Begin(columns));
    steps := Over.SerialIsARun(Begin(columns), [], Begin(columns), 0, create);
  }

  // ---------------------------------------------------------------- a task with a subtask

  /** One task outside the final columns with the one subtask `s`. */
  ghost predicate HasOneSubtask(b: Board, t: Uuid, s: Uuid, done: bool) {
    && Derived(b) && t in b.tasks && !IsFinal(KeyOf(b, t)) && b.tasks[t].completedAt.None?
    && b.subtasks.Keys == {s} && b.subtasks[s].taskId == t && b.subtasks[s].isCompleted == done
  }

  lemma OneSubtaskCounts(b: Board, t: Uuid, s: Uuid, done: bool)
    requires HasOneSubtask(b, t, s, done)
    ensures StoredOf(b.subtasks, t) == {s} && CompletedOf(b.subtasks, t) == if done then {s} else {}
    ensures |StoredOf(b.subtasks, t)| == 1 && |CompletedOf(b.subtasks, t)| == if done then 1 else 0
    ensures b.tasks[t].checklistProgress == if done then 100 else 0
  {
    assert ProgressOk(b, t);
    assert StoredOf(b.subtasks, t) == {s};
    assert CompletedOf(b.subtasks, t) == if done then {s} else {};
  }

  lemma OneInput(s: Option<Uuid>, done: bool)
    ensures CountCompleted([SubtaskInput(s, "", done, None, None)]) == if done then 1 else 0
    ensures ChecklistProgress(1, if done then 1 else 0) == if done then 100 else 0
  {
    assert [SubtaskInput(s, "", done, None, None)][..0] == [];
  }

  function CreateWithSubtask(t: Uuid, column: Uuid, s: Uuid, done: bool, now: Time): Op {
    Create(t, NewTask(column, "", 0, [SubtaskInput(None, "", done, None, None)], true), [s], now)
  }

  lemma SubtaskCreated(columns: map<Uuid, ColumnKey>, t: Uuid, column: Uuid, s: Uuid, done: bool, now: Time)
    requires column in columns && !IsFinal(columns[column])
    ensures var op := CreateWithSubtask(t, column, s, done, now);
      && Valid(EmptyBoard(columns), op) && Outcome(EmptyBoard(columns), op).Ok?
      && var b := Apply(EmptyBoard(columns), op);
         b.columns == columns && HasOneSubtask(b, t, s, done) && b.tasks[t].columnId == column
  {
    var op, empty := CreateWithSubtask(t, column, s, done, now), EmptyBoard(columns);
    OneInput(None, done);
    EmptyBoardIsInOrder(columns);
    assert Valid(empty, op);
    assert Inserted(map[], map[], t, op.p.subtasks, [s], 0) == map[];
    assert UpsertSubtasks(map[], t, op.p.subtasks, [s]) == Ok(map[s := Subtask(t, "", done, None, 0)]);
    CreateEffect(empty, op);
    StepKeepsDerived(empty, op);
  }

  lemma SubtaskSet(b: Board, t: Uuid, s: Uuid, before: bool, done: bool, actor: Uuid, newId: Uuid, now: Time)
    requires HasOneSubtask(b, t, s, before) && newId != s
    ensures var op := SetSubtask(t, s, done, actor, newId, now);
      && Valid(b, op) && Outcome(b, op).Ok?
      && var b' := Apply(b, op);
         b'.columns == b.columns && HasOneSubtask(b', t, s, done) && b'.tasks[t].columnId == b.tasks[t].columnId
  {
    var op := SetSubtask(t, s, done, actor, newId, now);
    OneInput(Some(s), done);
    OneSubtaskCounts(b, t, s, before);
    assert Valid(b, op);
    SubtaskReplaced(b, t, s, before, done, newId);
    UpdateEffect(b, op);
    StepKeepsDerived(b, op);
  }

  lemma SubtaskReplaced(b: Board, t: Uuid, s: Uuid, before: bool, done: bool, newId: Uuid)
    requires HasOneSubtask(b, t, s, before)
    ensures UpsertSubtasks(b.subtasks, t, [SubtaskInput(Some(s), "", done, None, None)], [newId]) ==
            Ok(map[s := Subtask(t, "", done, None, 0)])
  {
    var inputs := [SubtaskInput(Some(s), "", done, None, None)];
    OneSubtaskCounts(b, t, s, before);
    assert s in StoredOf(b.subtasks, t);
    assert OtherTasks(b.subtasks, t) == map[];
    assert Inserted(map[], b.subtasks, t, inputs, [newId], 0) == map[];
  }

  // ------------------------------------------------------------------- progress overwritten

  /** A rename reads an open subtask, the subtask is completed and the task at 100, and the rename writes progress 0 back. */
  lemma {:induction false} RenameCanOverwriteProgress(t: Uuid, doing: Uuid, s: Uuid, newId: Uuid, actor: Uuid, now: Time)
    returns (steps: seq<Over.Step>, b: Board)
    requires newId != s
    ensures Over.Reaches(Begin(map[doing := DoingKey]), steps, Over.State(b, map[]))
    ensures t in b.tasks && b.tasks[t].checklistProgress == 0 && StoredOf(b.subtasks, t) == CompletedOf(b.subtasks, t) == {s}
    ensures !Derived(b)
  {
    var columns := map[doing := DoingKey];
    SubtaskCreated(columns, t, doing, s, false, now);
    steps := CreateFirst(columns, CreateWithSubtask(t, doing, s, false, now));
    var before := Apply(EmptyBoard(columns), CreateWithSubtask(t, doing, s, false, now));
    var finish, rename := SetSubtask(t, s, true, actor, newId, now), Rename(t, "", actor, now);
    SubtaskSet(before, t, s, false, true, actor, newId, now);
    var plan, w := LateRename(before, Apply(before, finish), t, s, doing, actor, now);
    steps, b := OneOverlap(Begin(columns), steps, before, finish, rename, plan, w);
    assert !ProgressOk(b, t);
  }

  lemma LateRename(read: Board, b: Board, t: Uuid, s: Uuid, doing: Uuid, actor: Uuid, now: Time) returns (plan: Plan, w: Board)
    requires HasOneSubtask(read, t, s, false) && HasOneSubtask(b, t, s, true) && read.columns == b.columns
    requires read.tasks[t].columnId == b.tasks[t].columnId
    ensures var op := Rename(t, "", actor, now);
      && Planned(read.columns, op.patch, Look(read, t), now) == Ok(plan) && Valid(b, op)
      && WriteUpdate(b, t, op.patch, plan, actor, [], now) == Ok(w)
    ensures t in w.tasks && w.tasks[t].checklistProgress == 0
    ensures StoredOf(w.subtasks, t) == {s} == CompletedOf(w.subtasks, t)
    ensures ChecklistProgress(|StoredOf(w.subtasks, t)|, |CompletedOf(w.subtasks, t)|) == 100
  {
    var op := Rename(t, "", actor, now);
    OneSubtaskCounts(read, t, s, false);
    OneSubtaskCounts(b, t, s, true);
    OneInput(None, false);
    OneInput(None, true);
    plan := Planned(read.columns, op.patch, Look(read, t), now).value;
    w := WriteUpdate(b, t, op.patch, plan, actor, [], now).value;
    assert w.subtasks == b.subtasks;
  }

  // --------------------------------------------------------------------- done with open subtask

  /** A move to done reads a completed subtask, the subtask is opened again, and the move writes done, 100 and a completion
   *  time. */
  lemma {:induction false} MoveCanFinishAnOpenTask(t: Uuid, doing: Uuid, done: Uuid, s: Uuid, newId: Uuid, actor: Uuid, now: Time)
    returns (steps: seq<Over.Step>, b: Board)
    requires newId != s && doing != done
    ensures Over.Reaches(Begin(map[doing := DoingKey, done := DoneKey]), steps, Over.State(b, map[]))
    ensures t in b.tasks && KeyOf(b, t) == DoneKey && b.tasks[t].checklistProgress == 100 && b.tasks[t].completedAt == Some(now)
    ensures GateOk(b, t) && StoredOf(b.subtasks, t) == {s} && CompletedOf(b.subtasks, t) == {}
    ensures !Derived(b)
  {
    var columns := map[doing := DoingKey, done := DoneKey];
    SubtaskCreated(columns, t, doing, s, true, now);
    steps := CreateFirst(columns, CreateWithSubtask(t, doing, s, true, now));
    var before := Apply(EmptyBoard(columns), CreateWithSubtask(t, doing, s, true, now));
    var reopen, move := SetSubtask(t, s, false, actor, newId, now), MoveInto(t, done, actor, now);
    SubtaskSet(before, t, s, true, false, actor, newId, now);
    var plan, w := LateMove(before, Apply(before, reopen), t, s, done, actor, now);
    steps, b := OneOverlap(Begin(columns), steps, before, reopen, move, plan, w);
    assert !ProgressOk(b, t);
  }

  lemma LateMove(read: Board, b: Board, t: Uuid, s: Uuid, done: Uuid, actor: Uuid, now: Time) returns (plan: Plan, w: Board)
    requires HasOneSubtask(read, t, s, true) && HasOneSubtask(b, t, s, false) && read.columns == b.columns
    requires done in b.columns && b.columns[done] == DoneKey
    ensures var op := MoveInto(t, done, actor, now);
      && Planned(read.columns, op.patch, Look(read, t), now) == Ok(plan) && Valid(b, op)
      && WriteUpdate(b, t, op.patch, plan, actor, [], now) == Ok(w)
    ensures t in w.tasks && KeyOf(w, t) == DoneKey && w.tasks[t].checklistProgress == 100 && w.tasks[t].completedAt == Some(now)
    ensures StoredOf(w.subtasks, t) == {s} && CompletedOf(w.subtasks, t) == {}
    ensures ChecklistProgress(|StoredOf(w.subtasks, t)|, |CompletedOf(w.subtasks, t)|) == 0
  {
    var op := MoveInto(t, done, actor, now);
    OneSubtaskCounts(read, t, s, true);
    OneSubtaskCounts(b, t, s, false);
    OneInput(None, false);
    OneInput(None, true);
    plan := Planned(read.columns, op.patch, Look(read, t), now).value;
    w := WriteUpdate(b, t, op.patch, plan, actor, [], now).value;
    assert w.subtasks == b.subtasks;
  }

  // ------------------------------------------------------------ block data outside the column

  /** A move reads a task in review, the task is blocked, and the move takes it out of the blocked column without clearing its
   *  block data. */
  lemma {:induction false} MoveCanKeepBlockData(t: Uuid, review: Uuid, doing: Uuid, blocked: Uuid, reason: string, actor: Uuid, now: Time)
    returns (steps: seq<Over.Step>, b: Board)
    requires review != doing && review != blocked && doing != blocked && NonBlank(reason)
    ensures Over.Reaches(Begin(map[review := ClientApprovalKey, doing := DoingKey, blocked := BlockedKey]), steps, Over.State(b, map[]))
    ensures t in b.tasks && KeyOf(b, t) == DoingKey && b.tasks[t].blockReason == Some(reason) && b.tasks[t].blockedAt == Some(now)
    ensures !NoBlockData(b.tasks[t])
  {
    var columns := map[review := ClientApprovalKey, doing := DoingKey, blocked := BlockedKey];
    var create := Create(t, NewTask(review, "", 0, [], true), [], now);
    CreatedInReview(columns, t, review, now);
    steps := CreateFirst(columns, create);
    var before := Apply(EmptyBoard(columns), create);
    var block, move := Block(t, reason, actor, now), MoveInto(t, doing, actor, now);
    BlockInReview(before, t, blocked, reason, actor, now);
    var plan, w := LateMoveOut(before, Apply(before, block), t, doing, actor, now);
    steps, b := OneOverlap(Begin(columns), steps, before, block, move, plan, w);
  }

  lemma CreatedInReview(columns: map<Uuid, ColumnKey>, t: Uuid, review: Uuid, now: Time)
    requires review in columns && columns[review] == ClientApprovalKey
    ensures var op := Create(t, NewTask(review, "", 0, [], true), [], now);
      && Valid(EmptyBoard(columns), op) && Outcome(EmptyBoard(columns), op).Ok?
      && var b := Apply(EmptyBoard(columns), op);
         && b.columns == columns && t in b.tasks && b.tasks[t].columnId in columns && KeyOf(b, t) == ClientApprovalKey
         && StoredOf(b.subtasks, t) == {}
  {
    FirstTask(columns, t, review, now);
  }

  lemma BlockInReview(b: Board, t: Uuid, blocked: Uuid, reason: string, actor: Uuid, now: Time)
    requires t in b.tasks && NonBlank(reason) && blocked in b.columns && b.columns[blocked] == BlockedKey
    ensures var op := Block(t, reason, actor, now);
      && Valid(b, op) && Outcome(b, op).Ok?
      && var b' := Apply(b, op);
         b'.columns == b.columns && t in b'.tasks && b'.tasks[t].blockReason == Some(reason) && b'.tasks[t].blockedAt == Some(now)
  {
    assert HasColumn(b, BlockedKey);
    BlockEffect(b, Block(t, reason, actor, now));
  }

  lemma LateMoveOut(read: Board, b: Board, t: Uuid, doing: Uuid, actor: Uuid, now: Time) returns (plan: Plan, w: Board)
    requires t in read.tasks && read.tasks[t].columnId in read.columns && KeyOf(read, t) == ClientApprovalKey && read.columns == b.columns
    requires t in b.tasks && doing in b.columns && b.columns[doing] == DoingKey && StoredOf(read.subtasks, t) == {}
    ensures var op := MoveInto(t, doing, actor, now);
      && Planned(read.columns, op.patch, Look(read, t), now) == Ok(plan) && Valid(b, op)
      && WriteUpdate(b, t, op.patch, plan, actor, [], now) == Ok(w)
    ensures t in w.tasks && KeyOf(w, t) == DoingKey
    ensures w.tasks[t].blockReason == b.tasks[t].blockReason && w.tasks[t].blockedAt == b.tasks[t].blockedAt
  {
    var op := MoveInto(t, doing, actor, now);
    plan := Planned(read.columns, op.patch, Look(read, t), now).value;
    w := WriteUpdate(b, t, op.patch, plan, actor, [], now).value;
  }

  // ------------------------------------------------------------------------ summaries crossing

  function CreateIn(t: Uuid, column: Uuid, now: Time): Op {
    Create(t, NewTask(column, "", 0, [], true), [], now)
  }

  /** Two creations summarize the project before either of them commits: it counts as completed, with a task pending. */
  lemma {:induction false} CrossingSummariesGoStale(t: Uuid, u: Uuid, done: Uuid, pending: Uuid, now: Time)
    returns (steps: seq<Over.Step>, b: Board)
    requires t != u && done != pending
    ensures Over.Reaches(Begin(map[done := DoneKey, pending := PendingKey]), steps, Over.State(b, map[]))
    ensures b.summary == Summary(Completed, 100) && u in b.tasks && KeyOf(b, u) == PendingKey
    ensures !Synced(b)
  {
    var columns := map[done := DoneKey, pending := PendingKey];
    var start, first, second := Begin(columns), CreateIn(t, done, now), CreateIn(u, pending, now);
    var r1, r2 := Over.AfterReads(start.board, first), Over.AfterReads(start.board, second);
    assert Over.Reaches(start, [], start);
    var both := BothArrive(start, [], r1, r2);
    FirstSummary(columns, t, done, now);
    FirstSummary(columns, u, pending, now);
    var d1, d2 := r1.(sync := Some(Summary(Completed, 100))), r2.(sync := Some(Summary(Todo, 0)));
    var crossed := BothSummarize(start, both, start.board, r1, r2, Summary(Completed, 100), Summary(Todo, 0));
    steps, b := SecondThenFirst(start, crossed, d1, d2, t, u, done, pending, now);
  }

  lemma BothArrive(s: Over.State, steps0: seq<Over.Step>, r1: Over.Request, r2: Over.Request) returns (steps: seq<Over.Step>)
    requires Over.Reaches(s, steps0, s) && s.open == map[] && r1.op.Create? && r2.op.Create?
    requires r1 == Over.AfterReads(s.board, r1.op) && r2 == Over.AfterReads(s.board, r2.op)
    ensures Over.Reaches(s, steps, Over.State(s.board, map[1 := r1, 2 := r2]))
  {
    var r;
    steps, r := Over.ReadsFirst(s, steps0, s, 1, r1.op);
    steps, r := Over.ReadsFirst(s, steps, Over.State(s.board, map[1 := r1]), 2, r2.op);
    assert map[1 := r1][2 := r2] == map[1 := r1, 2 := r2];
  }

  /** What a creation on the empty board computes as the summary. */
  lemma FirstSummary(columns: map<Uuid, ColumnKey>, t: Uuid, column: Uuid, now: Time)
    requires column in columns && columns[column] in {DoneKey, PendingKey}
    ensures Summarizes(EmptyBoard(columns), Over.AfterReads(EmptyBoard(columns), CreateIn(t, column, now)),
                       if columns[column] == DoneKey then Summary(Completed, 100) else Summary(Todo, 0))
  {
    var r := Over.AfterReads(EmptyBoard(columns), CreateIn(t, column, now));
    FirstTask(columns, t, column, now);
    var w := Over.Written(EmptyBoard(columns), r).value;
    assert w.tasks.Keys == {t} && StoredOf(w.subtasks, t) == {};
    OneTask(w, t, columns[column], KeyScore(columns[column]));
  }

  /** What request `r` needs for its summary: `sum` is what it computes. */
  ghost predicate Summarizes(b: Board, r: Over.Request, sum: Summary) {
    && r.op.Create? && r.sync.None? && Valid(b, r.op) && Over.Written(b, r).Ok?
    && Aggregate(Over.Written(b, r).value) == sum
  }

  lemma BothSummarize(start: Over.State, steps0: seq<Over.Step>, b: Board, r1: Over.Request, r2: Over.Request, sum1: Summary, sum2: Summary)
    returns (steps: seq<Over.Step>)
    requires Over.Reaches(start, steps0, Over.State(b, map[1 := r1, 2 := r2]))
    requires Summarizes(b, r1, sum1) && Summarizes(b, r2, sum2) && r1.op.id != r2.op.id
    ensures Over.Reaches(start, steps, Over.State(b, map[1 := r1.(sync := Some(sum1)), 2 := r2.(sync := Some(sum2))]))
  {
    steps := FirstSummarizes(start, steps0, b, r1, r2, sum1);
    steps := SecondSummarizes(start, steps, b, r1.(sync := Some(sum1)), r2, sum2);
  }

  lemma FirstSummarizes(start: Over.State, steps0: seq<Over.Step>, b: Board, r1: Over.Request, r2: Over.Request, sum: Summary)
    returns (steps: seq<Over.Step>)
    requires Over.Reaches(start, steps0, Over.State(b, map[1 := r1, 2 := r2])) && Summarizes(b, r1, sum)
    requires r2.op.Create? && r1.op.id != r2.op.id && r2.sync.None?
    ensures Over.Reaches(start, steps, Over.State(b, map[1 := r1.(sync := Some(sum)), 2 := r2]))
  {
    TwoRowsAreFree(b, r1, r2);
    var open, next := TwoRequests(r1, r2, r1.(sync := Some(sum)), r2);
    steps := SummarizeOne(start, steps0, b, open, 1, r1, sum);
  }

  lemma SecondSummarizes(start: Over.State, steps0: seq<Over.Step>, b: Board, r1: Over.Request, r2: Over.Request, sum: Summary)
    returns (steps: seq<Over.Step>)
    requires Over.Reaches(start, steps0, Over.State(b, map[1 := r1, 2 := r2])) && Summarizes(b, r2, sum)
    requires r1.op.Create? && r1.op.id != r2.op.id
    ensures Over.Reaches(start, steps, Over.State(b, map[1 := r1, 2 := r2.(sync := Some(sum))]))
  {
    TwoRowsAreFree(b, r1, r2);
    var open, next := TwoRequests(r1, r2, r1, r2.(sync := Some(sum)));
    steps := SummarizeOne(start, steps0, b, open, 2, r2, sum);
  }

  lemma TwoRequests(r1: Over.Request, r2: Over.Request, d1: Over.Request, d2: Over.Request)
    returns (open: map<nat, Over.Request>, next: map<nat, Over.Request>)
    ensures open == map[1 := r1, 2 := r2] && next == map[1 := d1, 2 := d2]
    ensures 1 in open && 2 in open && open[1] == r1 && open[2] == r2
    ensures d2 == r2 ==> open[1 := d1] == next
    ensures d1 == r1 ==> open[2 := d2] == next
  {
    open, next := map[1 := r1, 2 := r2], map[1 := d1, 2 := d2];
  }

  /** Requests on different tasks do not wait for each other. */
  lemma TwoRowsAreFree(b: Board, r1: Over.Request, r2: Over.Request)
    requires r1.op.Create? && r2.op.Create? && r1.op.id != r2.op.id
    ensures Over.RowFree(Over.State(b, map[1 := r1, 2 := r2]), 1) && Over.RowFree(Over.State(b, map[1 := r1, 2 := r2]), 2)
  {
  }

  lemma SummarizeOne(start: Over.State, steps0: seq<Over.Step>, b: Board, open: map<nat, Over.Request>, k: nat, r: Over.Request, sum: Summary)
    returns (steps: seq<Over.Step>)
    requires Over.Reaches(start, steps0, Over.State(b, open)) && k in open && open[k] == r && Summarizes(b, r, sum)
    requires Over.RowFree(Over.State(b, open), k)
    ensures Over.Reaches(start, steps, Over.State(b, open[k := r.(sync := Some(sum))]))
  {
    var s := Over.State(b, open);
    Over.ReachesOneMore(start, steps0, s, Over.Summarize(k));
    Over.SummarizeEffect(s, k);
    steps := steps0 + [Over.Summarize(k)];
  }

  /** Request `r` of a creation, with its summary, can commit on `b` and leaves `b'`. */
  ghost predicate Commits(b: Board, r: Over.Request, b': Board) {
    && r.op.Create? && r.sync.Some? && Valid(b, r.op) && Over.Written(b, r).Ok? && b' == Over.Committed(b, r)
  }

  lemma CommitOne(start: Over.State, steps0: seq<Over.Step>, b: Board, open: map<nat, Over.Request>, k: nat, r: Over.Request, b': Board)
    returns (steps: seq<Over.Step>)
    requires Over.Reaches(start, steps0, Over.State(b, open)) && k in open && open[k] == r && Commits(b, r, b')
    requires Over.RowFree(Over.State(b, open), k)
    ensures Over.Reaches(start, steps, Over.State(b', open - {k}))
  {
    Over.ReachesOneMore(start, steps0, Over.State(b, open), Over.Commit(k));
    steps := steps0 + [Over.Commit(k)];
  }

  lemma CommitSecond(start: Over.State, steps0: seq<Over.Step>, b: Board, d1: Over.Request, d2: Over.Request, b': Board)
    returns (steps: seq<Over.Step>)
    requires Over.Reaches(start, steps0, Over.State(b, map[1 := d1, 2 := d2])) && Commits(b, d2, b')
    requires d1.op.Create? && d1.op.id != d2.op.id
    ensures Over.Reaches(start, steps, Over.State(b', map[1 := d1]))
  {
    TwoRowsAreFree(b, d1, d2);
    var open := WithoutSecond(d1, d2);
    steps := CommitOne(start, steps0, b, open, 2, d2, b');
  }

  lemma WithoutSecond(d1: Over.Request, d2: Over.Request) returns (open: map<nat, Over.Request>)
    ensures open == map[1 := d1, 2 := d2] && 2 in open && open[2] == d2 && open - {2} == map[1 := d1]
  {
    open := map[1 := d1, 2 := d2];
  }

  lemma CommitLast(start: Over.State, steps0: seq<Over.Step>, b: Board, d1: Over.Request, b': Board) returns (steps: seq<Over.Step>)
    requires Over.Reaches(start, steps0, Over.State(b, map[1 := d1])) && Commits(b, d1, b')
    ensures Over.Reaches(start, steps, Over.State(b', map[]))
  {
    var open := OnlyFirst(d1);
    steps := CommitOne(start, steps0, b, open, 1, d1, b');
  }

  lemma OnlyFirst(d1: Over.Request) returns (open: map<nat, Over.Request>)
    ensures open == map[1 := d1] && 1 in open && open[1] == d1 && open - {1} == map[]
  {
    open := map[1 := d1];
  }

  lemma SecondThenFirst(start: Over.State, steps0: seq<Over.Step>, d1: Over.Request, d2: Over.Request,
                        t: Uuid, u: Uuid, done: Uuid, pending: Uuid, now: Time)
    returns (steps: seq<Over.Step>, b: Board)
    requires t != u && done != pending
    requires start == Begin(map[done := DoneKey, pending := PendingKey])
    requires d1 == Over.Request(CreateIn(t, done, now), None, None, Some(Summary(Completed, 100)))
    requires d2 == Over.Request(CreateIn(u, pending, now), None, None, Some(Summary(Todo, 0)))
    requires Over.Reaches(start, steps0, Over.State(start.board, map[1 := d1, 2 := d2]))
    ensures Over.Reaches(start, steps, Over.State(b, map[]))
    ensures b.summary == Summary(Completed, 100) && u in b.tasks && KeyOf(b, u) == PendingKey
    ensures !Synced(b)
  {
    var one := SecondAlone(start.board.columns, d2, u, pending, now);
    steps := CommitSecond(start, steps0, start.board, d1, d2, one);
    b := CreateBeside(one, d1, t, u, done, now);
    steps := CommitLast(start, steps, one, d1, b);
    PendingIsNotCompleted(b, u);
  }

  lemma SecondAlone(columns: map<Uuid, ColumnKey>, r: Over.Request, u: Uuid, pending: Uuid, now: Time) returns (b: Board)
    requires pending in columns && columns[pending] == PendingKey
    requires r == Over.Request(CreateIn(u, pending, now), None, None, Some(Summary(Todo, 0)))
    ensures Commits(EmptyBoard(columns), r, b)
    ensures b.columns == columns && b.tasks.Keys == {u} && KeyOf(b, u) == PendingKey
  {
    FirstTask(columns, u, pending, now);
    b := Over.Committed(EmptyBoard(columns), r);
  }

  lemma CreateBeside(b: Board, r: Over.Request, t: Uuid, u: Uuid, done: Uuid, now: Time) returns (b': Board)
    requires t != u && b.tasks.Keys == {u} && done in b.columns && b.columns[done] == DoneKey && KeyOf(b, u) == PendingKey
    requires r == Over.Request(CreateIn(t, done, now), None, None, Some(Summary(Completed, 100)))
    ensures Commits(b, r, b')
    ensures b'.summary == Summary(Completed, 100) && u in b'.tasks && KeyOf(b', u) == PendingKey
  {
    assert Valid(b, r.op);
    assert Outcome(b, r.op).Ok?;
    CreateEffect(b, r.op);
    b' := Over.Committed(b, r);
  }

  lemma PendingIsNotCompleted(b: Board, u: Uuid)
    requires u in b.tasks && KeyOf(b, u) == PendingKey
    ensures StatusOf(Keys(b)) != Completed
  {
    var keys := Keys(b);
    SubsetSize(WithKey(keys, DoneKey), keys.Keys - {u});
    assert |keys.Keys - {u}| == |keys| - 1;
  }
}
