/** The event pipeline end to end: outbox workers, the stream and its consumer group, and the notification handler,
 *  interleaved in any order with crashes anywhere. */
module Pipeline {
  import opened Prelude
  import opened Outbox
  import opened Notifications
  import Runs = OutboxRuns
  import Grp = ConsumerGroup

  /** `resolved` remembers, per entry handled by all handlers, the recipients resolved at its successful deliveries. */
  datatype System = System(outbox: Runs.State, group: Grp.Group, notes: seq<Note>, resolved: map<nat, set<Uuid>>)

  datatype Step =
    | Worker(w: Runs.Step)                                  // commit, claim, exec() returns, confirm, prune
    | Publish(t: nat, appended: bool, replied: bool)       // one XADD of a worker's pipeline
    | Sentinel(kind: Kind)                                 // an entry no event belongs to
    | Consume(s: Grp.GStep)
    | Deliver(c: nat, members: seq<Member>, inserted: bool, notified: bool, othersOk: bool)
    | DispatchLocal(row: Uuid, members: seq<Member>, inserted: bool)  // emit() without a transaction

  function Init(maxRetries: nat): System {
    System(Runs.INIT, Grp.Empty(false, maxRetries), [], map[])
  }

  function EntryKind(e: Runs.Entry): Kind {
    if e.Copy? then EventMsg else e.kind
  }

  /** The insert may take effect although the handler sees an error, never the other way round. */
  ghost predicate Enabled(s: System, step: Step) {
    match step
    case Worker(w) => !w.Append? && !w.AppendForeign? && Runs.Enabled(s.outbox, w)
    case Publish(t, appended, replied) => Runs.Enabled(s.outbox, Runs.Append(t, appended, replied))
    case Sentinel(kind) => Runs.Enabled(s.outbox, Runs.AppendForeign(kind))
    case Consume(g) => !g.Add? && !g.Handle? && Grp.Enabled(s.group, g)
    case Deliver(c, _, inserted, notified, othersOk) =>
      && Grp.Enabled(s.group, Grp.Handle(c, if notified && othersOk then Grp.Succeeded else Grp.Retryable))
      && Grp.Head(s.group, c) < |s.outbox.log| && s.outbox.log[Grp.Head(s.group, c)].Copy?
      && (notified ==> inserted)
    case DispatchLocal(row, _, _) => row in s.outbox.committed
  }

  ghost function Next(s: System, step: Step): System
    requires Enabled(s, step)
  {
    match step
    case Worker(w) => s.(outbox := Runs.Next(s.outbox, w))
    case Publish(t, appended, replied) =>
      s.(outbox := Runs.Next(s.outbox, Runs.Append(t, appended, replied)),
         group := if appended then Grp.Next(s.group, Grp.Add(EventMsg)) else s.group)
    case Sentinel(kind) =>
      s.(outbox := Runs.Next(s.outbox, Runs.AppendForeign(kind)), group := Grp.Next(s.group, Grp.Add(kind)))
    case Consume(g) => s.(group := Grp.Next(s.group, g))
    case Deliver(c, members, inserted, notified, othersOk) =>
      var ok := notified && othersOk;
      var id := Grp.Head(s.group, c);
      var ev := s.outbox.log[id].payload;
      System(
        s.outbox,
        Grp.Next(s.group, Grp.Handle(c, if ok then Grp.Succeeded else Grp.Retryable)),
        if inserted then InsertIgnoringConflicts(s.notes, NotesFor(ev, members)) else s.notes,
        if ok then s.resolved[id := Recipients(ev, members) + (if id in s.resolved then s.resolved[id] else {})]
        else s.resolved)
    case DispatchLocal(row, members, inserted) =>
      if inserted then s.(notes := InsertIgnoringConflicts(s.notes, NotesFor(s.outbox.committed[row], members))) else s
  }

  ghost predicate Reaches(s: System, steps: seq<Step>, s': System)
    decreases |steps|
  {
    if steps == [] then s == s'
    else Enabled(s, steps[0]) && Reaches(Next(s, steps[0]), steps[1..], s')
  }

  // ---------------------------------------------------------------- invariant

  /** The group sees exactly the entries the workers and the sentinels appended. */
  ghost predicate SameStream(outbox: Runs.State, group: Grp.Group) {
    !group.strict && |outbox.log| == |group.kinds|
    && forall k :: 0 <= k < |outbox.log| ==> group.kinds[k] == EntryKind(outbox.log[k])
  }

  ghost predicate NotesOk(s: System) {
    && UniqueKeys(s.notes)
    && (forall n :: n in s.notes ==> exists r :: r in s.outbox.committed && s.outbox.committed[r].id == n.eventId)
  }

  ghost predicate ResolvedOk(s: System) {
    && s.resolved.Keys == s.group.handled
    && (forall k :: k in s.resolved ==> k < |s.outbox.log| && s.outbox.log[k].Copy?)
    && (forall k, sub :: k in s.resolved && sub in s.resolved[k] ==> HasKey(s.notes, s.outbox.log[k].payload.id, sub))
  }

  ghost predicate Inv(s: System) {
    Runs.Inv(s.outbox) && Grp.Inv(s.group) && SameStream(s.outbox, s.group) && NotesOk(s) && ResolvedOk(s)
  }

  lemma WorkerGrows(b: Runs.State, w: Runs.Step)
    requires Runs.Enabled(b, w)
    ensures b.log <= Runs.Next(b, w).log
    ensures forall r :: r in b.committed ==> r in Runs.Next(b, w).committed && Runs.Next(b, w).committed[r] == b.committed[r]
    ensures !w.Append? && !w.AppendForeign? ==> Runs.Next(b, w).log == b.log
  {
  }

  lemma OutboxStepKeeps(s: System, b: Runs.State, g: Grp.Group)
    requires NotesOk(s) && ResolvedOk(s)
    requires s.outbox.log <= b.log && g.handled == s.group.handled
    requires forall r :: r in s.outbox.committed ==> r in b.committed && b.committed[r] == s.outbox.committed[r]
    ensures NotesOk(s.(outbox := b, group := g)) && ResolvedOk(s.(outbox := b, group := g))
  {
    forall n | n in s.notes
      ensures exists r :: r in b.committed && b.committed[r].id == n.eventId
    {
      var r :| r in s.outbox.committed && s.outbox.committed[r].id == n.eventId;
      assert r in b.committed && b.committed[r].id == n.eventId;
    }
    assert forall k :: 0 <= k < |s.outbox.log| ==> b.log[k] == s.outbox.log[k];
  }

  lemma WorkerKeeps(s: System, step: Step)
    requires Inv(s) && Enabled(s, step) && (step.Worker? || step.Publish? || step.Sentinel?)
    ensures Inv(Next(s, step))
  {
    var s' := Next(s, step);
    var w :=
      if step.Worker? then step.w
      else if step.Publish? then Runs.Append(step.t, step.appended, step.replied)
      else Runs.AppendForeign(step.kind);
    Runs.StepKeeps(s.outbox, w);
    WorkerGrows(s.outbox, w);
    if s'.group != s.group {
      Grp.StepKeeps(s.group, Grp.Add(if step.Sentinel? then step.kind else EventMsg));
    }
    OutboxStepKeeps(s, s'.outbox, s'.group);
  }

  lemma ConsumeKeeps(s: System, step: Step)
    requires Inv(s) && Enabled(s, step) && step.Consume?
    ensures Inv(Next(s, step))
  {
    Grp.StepKeeps(s.group, step.s);
    ConsumeEffect(s.group, step.s);
    OutboxStepKeeps(s, s.outbox, Grp.Next(s.group, step.s));
  }

  lemma ConsumeEffect(g: Grp.Group, step: Grp.GStep)
    requires Grp.Enabled(g, step) && !step.Add? && !step.Handle?
    ensures var g' := Grp.Next(g, step); g'.handled == g.handled && g'.kinds == g.kinds && g'.strict == g.strict
  {
    if step.Ack? || step.WriteDlq? {
      AnswerEffect(g, step);
    } else {
      OtherEffect(g, step);
    }
  }

  lemma AnswerEffect(g: Grp.Group, step: Grp.GStep)
    requires Grp.Enabled(g, step) && (step.Ack? || step.WriteDlq?)
    ensures var g' := Grp.Next(g, step); g'.handled == g.handled && g'.kinds == g.kinds && g'.strict == g.strict
  {
  }

  lemma OtherEffect(g: Grp.Group, step: Grp.GStep)
    requires Grp.Enabled(g, step) && !(step.Add? || step.Handle? || step.Ack? || step.WriteDlq?)
    ensures var g' := Grp.Next(g, step); g'.handled == g.handled && g'.kinds == g.kinds && g'.strict == g.strict
  {
  }

  /** An insert for a committed event keeps the table unique and every promise already made. */
  lemma InsertKeeps(s: System, ev: Event, members: seq<Member>, r: Uuid)
    requires NotesOk(s) && ResolvedOk(s) && r in s.outbox.committed && s.outbox.committed[r] == ev
    ensures var s' := s.(notes := InsertIgnoringConflicts(s.notes, NotesFor(ev, members)));
            && NotesOk(s') && ResolvedOk(s')
            && forall sub :: sub in Recipients(ev, members) ==> HasKey(s'.notes, ev.id, sub)
  {
    var notes' := InsertIgnoringConflicts(s.notes, NotesFor(ev, members));
    InsertKeepsOneRowPerKey(s.notes, NotesFor(ev, members));
    forall k, sub | k in s.resolved && sub in s.resolved[k]
      ensures HasKey(notes', s.outbox.log[k].payload.id, sub)
    {
      KeysStay(s.notes, notes', s.outbox.log[k].payload.id, sub);
    }
  }

  lemma DeliverKeeps(s: System, step: Step)
    requires Inv(s) && Enabled(s, step) && step.Deliver?
    ensures Inv(Next(s, step))
  {
    var id := Grp.Head(s.group, step.c);
    var entry := s.outbox.log[id];
    var ok := step.notified && step.othersOk;
    var handle := Grp.Handle(step.c, if ok then Grp.Succeeded else Grp.Retryable);
    Grp.StepKeeps(s.group, handle);
    HandleEffect(s.group, handle);
    EntryIsCommitted(s.outbox, id);
    if step.inserted {
      InsertKeeps(s, entry.payload, step.members, entry.row);
    }
    var notes := Next(s, step).notes;
    DeliverKeepsResolved(s, notes, Grp.Next(s.group, handle), id, Recipients(entry.payload, step.members), ok);
  }

  /** A successful delivery adds its recipients to the promises made for the entry. */
  lemma DeliverKeepsResolved(s: System, notes: seq<Note>, g: Grp.Group, id: nat, recipients: set<Uuid>, ok: bool)
    requires ResolvedOk(s.(notes := notes)) && id < |s.outbox.log| && s.outbox.log[id].Copy?
    requires g.handled == if ok then s.group.handled + {id} else s.group.handled
    requires ok ==> forall sub :: sub in recipients ==> HasKey(notes, s.outbox.log[id].payload.id, sub)
    ensures ResolvedOk(System(s.outbox, g, notes,
      if ok then s.resolved[id := recipients + (if id in s.resolved then s.resolved[id] else {})] else s.resolved))
  {
  }

  lemma HandleEffect(g: Grp.Group, step: Grp.GStep)
    requires step.Handle? && Grp.Enabled(g, step)
    ensures Grp.Next(g, step).kinds == g.kinds && Grp.Next(g, step).strict == g.strict
    ensures Grp.Next(g, step).handled == if step.verdict.Succeeded? then g.handled + {Grp.Head(g, step.c)} else g.handled
  {
  }

  lemma EntryIsCommitted(b: Runs.State, k: nat)
    requires Runs.LogOk(b) && k < |b.log| && b.log[k].Copy?
    ensures b.log[k].row in b.committed && b.committed[b.log[k].row] == b.log[k].payload
  {
  }

  lemma LocalKeeps(s: System, step: Step)
    requires Inv(s) && Enabled(s, step) && step.DispatchLocal?
    ensures Inv(Next(s, step))
  {
    if step.inserted {
      InsertKeeps(s, s.outbox.committed[step.row], step.members, step.row);
    }
  }

  lemma StepKeeps(s: System, step: Step)
    requires Inv(s) && Enabled(s, step)
    ensures Inv(Next(s, step))
  {
    if step.Consume? {
      ConsumeKeeps(s, step);
    } else if step.Deliver? {
      DeliverKeeps(s, step);
    } else if step.DispatchLocal? {
      LocalKeeps(s, step);
    } else {
      WorkerKeeps(s, step);
    }
  }

  lemma {:induction false} RunKeeps(s: System, steps: seq<Step>, s': System)
    requires Inv(s) && Reaches(s, steps, s')
    ensures Inv(s')
    decreases |steps|
  {
    if steps != [] {
      StepKeeps(s, steps[0]);
      RunKeeps(Next(s, steps[0]), steps[1..], s');
    }
  }

  lemma Reachable(maxRetries: nat, steps: seq<Step>, s: System)
    requires Reaches(Init(maxRetries), steps, s)
    ensures Inv(s)
  {
    InitOk(maxRetries);
    RunKeeps(Init(maxRetries), steps, s);
  }

  lemma InitOk(maxRetries: nat)
    ensures Inv(Init(maxRetries))
  {
    Runs.InitOk();
    Grp.InitOk(false, maxRetries);
    assert Init(maxRetries).notes == [] && Init(maxRetries).resolved == map[];
  }

  // -------------------------------------------------------------- main results

  /** Where a committed event is: still in an unpublished row, or in a stream entry that is undelivered, pending, handled
   *  by all handlers, or dead-lettered. */
  ghost predicate IsSafe(s: System, r: Uuid)
    requires r in s.outbox.committed
  {
    || (r in s.outbox.rows && s.outbox.rows[r].status != Published && s.outbox.rows[r].payload == s.outbox.committed[r])
    || (exists k :: 0 <= k < |s.outbox.log| && Runs.IsCopyOf(s.outbox.log[k], r) && s.outbox.log[k].payload == s.outbox.committed[r]
          && (s.group.next <= k || k in s.group.pel || k in s.group.handled || k in s.group.dlq))
  }

  /** No committed event is ever lost. */
  lemma {:induction false} NoEventIsLost(maxRetries: nat, steps: seq<Step>, s: System, r: Uuid)
    requires Reaches(Init(maxRetries), steps, s) && r in s.outbox.committed
    ensures IsSafe(s, r)
  {
    Reachable(maxRetries, steps, s);
    EventIsSafe(s, r);
  }

  lemma EventIsSafe(s: System, r: Uuid)
    requires Runs.RowsOk(s.outbox) && Runs.LogOk(s.outbox) && Runs.PublishedOk(s.outbox)
    requires Grp.Inv(s.group) && SameStream(s.outbox, s.group) && r in s.outbox.committed
    ensures IsSafe(s, r)
  {
    if !(r in s.outbox.rows && s.outbox.rows[r].status != Published) {
      assert Runs.HasCopy(s.outbox.log, r);
      var k :| 0 <= k < |s.outbox.log| && Runs.IsCopyOf(s.outbox.log[k], r);
      assert s.group.kinds[k] == EventMsg;
      assert s.group.next <= k || k in s.group.pel || Grp.Settled(s.group, k);
    }
  }

  /** However often an event is published, redelivered or dispatched locally, there is at most one row per event and
   *  recipient, and only for committed events. */
  lemma {:induction false} AtMostOneNotification(maxRetries: nat, steps: seq<Step>, s: System, i: nat, j: nat)
    requires Reaches(Init(maxRetries), steps, s) && i < |s.notes| && j < |s.notes|
    ensures SameKey(s.notes[i], s.notes[j]) ==> i == j
    ensures exists r :: r in s.outbox.committed && s.outbox.committed[r].id == s.notes[i].eventId
  {
    Reachable(maxRetries, steps, s);
    assert s.notes[i] in s.notes;
  }

  /** Rows are never rewritten or removed by the pipeline. */
  lemma {:induction false} NotificationsArePermanent(s: System, steps: seq<Step>, s': System)
    requires Inv(s) && Reaches(s, steps, s')
    ensures s.notes <= s'.notes
    decreases |steps|
  {
    if steps != [] {
      StepKeeps(s, steps[0]);
      StepAppendsNotes(s, steps[0]);
      NotificationsArePermanent(Next(s, steps[0]), steps[1..], s');
    }
  }

  lemma StepAppendsNotes(s: System, step: Step)
    requires UniqueKeys(s.notes) && Enabled(s, step)
    ensures s.notes <= Next(s, step).notes
  {
    if step.Deliver? {
      InsertKeepsOneRowPerKey(s.notes, NotesFor(s.outbox.log[Grp.Head(s.group, step.c)].payload, step.members));
    } else if step.DispatchLocal? {
      InsertKeepsOneRowPerKey(s.notes, NotesFor(s.outbox.committed[step.row], step.members));
    }
  }

  /** An acknowledged event that is not dead-lettered was delivered, and everyone resolved at that delivery has a row. */
  lemma {:induction false} AcknowledgedMeansNotified(maxRetries: nat, steps: seq<Step>, s: System, k: nat)
    requires Reaches(Init(maxRetries), steps, s)
    requires k in s.group.acked && k !in s.group.dlq && k < |s.outbox.log| && s.outbox.log[k].Copy?
    ensures k in s.resolved
    ensures forall sub :: sub in s.resolved[k] ==> HasKey(s.notes, s.outbox.log[k].payload.id, sub)
  {
    Reachable(maxRetries, steps, s);
    AckedIsResolved(s, k);
  }

  lemma AckedIsResolved(s: System, k: nat)
    requires Grp.Inv(s.group) && SameStream(s.outbox, s.group) && ResolvedOk(s)
    requires k in s.group.acked && k !in s.group.dlq && k < |s.outbox.log| && s.outbox.log[k].Copy?
    ensures k in s.resolved
  {
    assert Grp.Settled(s.group, k) && s.group.kinds[k] == EventMsg;
  }

  /** A successful delivery records exactly the recipients it resolved, so the promise above is about real people. */
  lemma DeliveryRecordsRecipients(s: System, step: Step)
    requires Inv(s) && Enabled(s, step) && step.Deliver? && step.notified && step.othersOk
    ensures var id := Grp.Head(s.group, step.c);
            var s' := Next(s, step);
            && id in s'.resolved
            && Recipients(s.outbox.log[id].payload, step.members) <= s'.resolved[id]
            && forall sub :: sub in Recipients(s.outbox.log[id].payload, step.members) ==>
                 HasKey(s'.notes, s.outbox.log[id].payload.id, sub)
  {
    DeliveryRecords(s, step);
    DeliveryKeepsPromises(s, step);
    RecordedHaveTheirRow(Next(s, step), Grp.Head(s.group, step.c));
  }

  /** So does the dispatch by `emit` when its insert succeeds: everyone it resolves has a row afterwards. */
  lemma LocalDispatchNotifies(s: System, step: Step)
    requires Inv(s) && Enabled(s, step) && step.DispatchLocal? && step.inserted
    ensures var ev := s.outbox.committed[step.row];
            forall sub :: sub in Recipients(ev, step.members) ==> HasKey(Next(s, step).notes, ev.id, sub)
  {
    var ev := s.outbox.committed[step.row];
    InsertKeepsOneRowPerKey(s.notes, NotesFor(ev, step.members));
  }

  lemma DeliveryRecords(s: System, step: Step)
    requires Enabled(s, step) && step.Deliver? && step.notified && step.othersOk
    ensures var id, s' := Grp.Head(s.group, step.c), Next(s, step);
            && s'.outbox == s.outbox && id in s'.resolved
            && Recipients(s.outbox.log[id].payload, step.members) <= s'.resolved[id]
  {
  }

  lemma DeliveryKeepsPromises(s: System, step: Step)
    requires Inv(s) && Enabled(s, step) && step.Deliver?
    ensures ResolvedOk(Next(s, step))
  {
    DeliverKeeps(s, step);
  }

  lemma RecordedHaveTheirRow(s: System, k: nat)
    requires ResolvedOk(s) && k in s.resolved
    ensures k < |s.outbox.log| && s.outbox.log[k].Copy?
    ensures forall sub :: sub in s.resolved[k] ==> HasKey(s.notes, s.outbox.log[k].payload.id, sub)
  {
  }
}
