/** A Redis consumer group read by any number of consumers, as both stream consumers of the repository drive it.
 *
 *  `strict` selects the reusable consumer (count deliveries first, dead-letter malformed entries, honour non-retryable
 *  errors); otherwise the machine is the collaboration event bus (handle first, drop malformed entries). A consumer that
 *  crashes takes no further step; `Abort` is a process that restarts under the same name. Entries are not trimmed and the
 *  group exists before the first entry. */
module ConsumerGroup {
  import opened Prelude

  datatype Pending = Pending(owner: nat, deliveries: nat)

  datatype Stage =
    | Ready
    | Counted(count: nat)        // strict only: delivery count read, handler not run yet
    | HandlerFailed              // bus only: handlers failed, delivery count not read yet
    | ToDlq
    | ToAck
    | ToAckHandled(count: nat)   // strict only: handler succeeded

  /** The batch a consumer has read and not worked off yet; the stage is that of its first entry. */
  datatype Consumer = Consumer(inbox: seq<nat>, stage: Stage)

  datatype Verdict = Succeeded | Retryable | NonRetryable

  datatype Group = Group(
    strict: bool,
    maxRetries: nat,
    kinds: seq<Kind>,
    next: nat,
    pel: map<nat, Pending>,
    consumers: map<nat, Consumer>,
    dlq: seq<nat>,
    handled: set<nat>,
    acked: map<nat, nat>)

  datatype GStep =
    | Add(kind: Kind)
    | Read(c: nat, count: nat)
    | Reclaim(c: nat, ids: seq<nat>)
    | Inspect(c: nat)
    | CountFirst(c: nat, lookupFailed: bool)
    | Handle(c: nat, verdict: Verdict)
    | CountAfter(c: nat, lookupFailed: bool)
    | WriteDlq(c: nat, applied: bool, replied: bool)
    | Ack(c: nat, applied: bool, replied: bool)
    | Abort(c: nat)

  function Empty(strict: bool, maxRetries: nat): Group {
    Group(strict, maxRetries, [], 0, map[], map[], [], {}, map[])
  }

  function Of(g: Group, c: nat): Consumer {
    if c in g.consumers then g.consumers[c] else Consumer([], Ready)
  }

  /** XPENDING for one entry; a failed or empty lookup counts as one delivery. */
  function Deliveries(g: Group, id: nat, lookupFailed: bool): nat {
    if lookupFailed || id !in g.pel then 1 else g.pel[id].deliveries
  }

  predicate Busy(g: Group, c: nat) {
    Of(g, c).inbox != []
  }

  function Head(g: Group, c: nat): nat
    requires Busy(g, c)
  {
    Of(g, c).inbox[0]
  }

  function KindOf(g: Group, id: nat): Kind {
    if id < |g.kinds| then g.kinds[id] else BadMsg
  }

  predicate Enabled(g: Group, step: GStep) {
    match step
    case Add(_) => true
    case Read(c, count) => !Busy(g, c) && g.next + count <= |g.kinds|
    case Reclaim(c, ids) => !Busy(g, c) && Distinct(ids) && forall id :: id in ids ==> id in g.pel
    case Inspect(c) => Busy(g, c) && Of(g, c).stage.Ready? && (KindOf(g, Head(g, c)).ShutdownMsg? || KindOf(g, Head(g, c)).BadMsg?)
    case CountFirst(c, _) => g.strict && Busy(g, c) && Of(g, c).stage.Ready? && KindOf(g, Head(g, c)).EventMsg?
    case Handle(c, _) =>
      Busy(g, c) && KindOf(g, Head(g, c)).EventMsg? && if g.strict then Of(g, c).stage.Counted? else Of(g, c).stage.Ready?
    case CountAfter(c, _) => Busy(g, c) && Of(g, c).stage.HandlerFailed?
    case WriteDlq(c, applied, replied) => Busy(g, c) && Of(g, c).stage.ToDlq? && (replied ==> applied)
    case Ack(c, applied, replied) =>
      Busy(g, c) && (Of(g, c).stage.ToAck? || Of(g, c).stage.ToAckHandled?) && (replied ==> applied)
    case Abort(c) => true
  }

  function Put(g: Group, c: nat, consumer: Consumer): Group {
    g.(consumers := g.consumers[c := consumer])
  }

  function SetStage(g: Group, c: nat, stage: Stage): Group {
    Put(g, c, Of(g, c).(stage := stage))
  }

  /** The entry stays pending; on to the next one of the batch. */
  function Skip(g: Group, c: nat): Group
    requires Busy(g, c)
  {
    Put(g, c, Consumer(Of(g, c).inbox[1..], Ready))
  }

  /** An exception left the batch loop: the rest of the batch stays pending. */
  function DropBatch(g: Group, c: nat): Group {
    Put(g, c, Consumer([], Ready))
  }

  function Range(from: nat, count: nat): seq<nat> {
    seq(count, i requires 0 <= i => from + i)
  }

  function Deliver(pel: map<nat, Pending>, ids: seq<nat>, c: nat): map<nat, Pending> {
    map id | id in pel.Keys + (set x | x in ids) ::
      if id in ids then Pending(c, if id in pel then pel[id].deliveries + 1 else 1) else pel[id]
  }

  function Verdicted(g: Group, c: nat, verdict: Verdict): Group
    requires Busy(g, c)
  {
    var id := Head(g, c);
    if verdict.Succeeded? then
      SetStage(g.(handled := g.handled + {id}), c,
               if g.strict && Of(g, c).stage.Counted? then ToAckHandled(Of(g, c).stage.count) else ToAck)
    else if !g.strict then SetStage(g, c, HandlerFailed)
    else if verdict.Retryable? && Of(g, c).stage.Counted? && Of(g, c).stage.count < g.maxRetries then Skip(g, c)
    else SetStage(g, c, ToDlq)
  }

  /** XACK takes effect for an entry that is pending. */
  function Settle(g: Group, c: nat, id: nat): Group {
    if id in g.pel then g.(pel := g.pel - {id}, acked := g.acked[id := c]) else g
  }

  function Acked(g: Group, c: nat, applied: bool, replied: bool): Group
    requires Busy(g, c)
  {
    var after := if applied then Settle(g, c, Head(g, c)) else g;
    if replied then Skip(after, c)
    else match Of(g, c).stage
         case ToAckHandled(n) =>
           // The failed acknowledgement is caught like a handler error.
           if n < g.maxRetries then Skip(after, c) else SetStage(after, c, ToDlq)
         case _ => DropBatch(after, c)
  }

  function DeadLettered(g: Group, c: nat, applied: bool, replied: bool): Group
    requires Busy(g, c)
  {
    var after := if applied then g.(dlq := g.dlq + [Head(g, c)]) else g;
    if replied then SetStage(after, c, ToAck) else DropBatch(after, c)
  }

  function Next(g: Group, step: GStep): Group
    requires Enabled(g, step)
  {
    match step
    case Add(kind) => g.(kinds := g.kinds + [kind])
    case Read(c, count) =>
      Put(g.(next := g.next + count, pel := Deliver(g.pel, Range(g.next, count), c)), c, Consumer(Range(g.next, count), Ready))
    case Reclaim(c, ids) => Put(g.(pel := Deliver(g.pel, ids, c)), c, Consumer(ids, Ready))
    case Inspect(c) =>
      SetStage(g, c, if g.strict && KindOf(g, Head(g, c)).BadMsg? then ToDlq else ToAck)
    case CountFirst(c, lookupFailed) => SetStage(g, c, Counted(Deliveries(g, Head(g, c), lookupFailed)))
    case Handle(c, verdict) => Verdicted(g, c, verdict)
    case CountAfter(c, lookupFailed) =>
      if g.maxRetries <= Deliveries(g, Head(g, c), lookupFailed) then SetStage(g, c, ToDlq) else Skip(g, c)
    case WriteDlq(c, applied, replied) => DeadLettered(g, c, applied, replied)
    case Ack(c, applied, replied) => Acked(g, c, applied, replied)
    case Abort(c) => DropBatch(g, c)
  }

  ghost predicate Reaches(g: Group, steps: seq<GStep>, g': Group)
    decreases |steps|
  {
    if steps == [] then g == g'
    else Enabled(g, steps[0]) && Reaches(Next(g, steps[0]), steps[1..], g')
  }

  // ---------------------------------------------------------------- invariant

  /** It is safe to forget the entry: all handlers succeeded, it is dead-lettered, or it carries no event to lose. */
  predicate Settled(g: Group, id: nat) {
    id in g.handled || id in g.dlq || KindOf(g, id).ShutdownMsg? || (!g.strict && KindOf(g, id).BadMsg?)
  }

  predicate ConsumerOk(g: Group, c: Consumer) {
    && (forall i :: 0 <= i < |c.inbox| ==> c.inbox[i] < g.next)
    && (c.stage.Ready? || c.inbox != [])
    && (c.stage.ToAck? || c.stage.ToAckHandled? ==> c.inbox != [] && Settled(g, c.inbox[0]))
  }

  predicate QueueOk(g: Group) {
    && g.next <= |g.kinds|
    && (forall id :: id in g.pel ==> id < g.next && 1 <= g.pel[id].deliveries)
    && (forall id :: 0 <= id < g.next ==> id in g.pel || id in g.acked)
    && (forall id :: id in g.acked ==> id < g.next && id !in g.pel && Settled(g, id))
    && (forall id :: id in g.handled ==> id < g.next && g.kinds[id].EventMsg?)
    && (forall i :: 0 <= i < |g.dlq| ==> g.dlq[i] < g.next)
  }

  predicate ConsumersOk(g: Group) {
    forall c :: c in g.consumers ==> ConsumerOk(g, g.consumers[c])
  }

  predicate Inv(g: Group) {
    QueueOk(g) && ConsumersOk(g)
  }

  /** What was settled stays settled, an acknowledgement is final, and delivery counts never fall. */
  predicate Grows(g: Group, g': Group) {
    && g.strict == g'.strict && g.maxRetries == g'.maxRetries && g.kinds <= g'.kinds && g.next <= g'.next
    && g.handled <= g'.handled && g.dlq <= g'.dlq
    && (forall id :: id in g.acked ==> id in g'.acked && g'.acked[id] == g.acked[id])
    && (forall id :: id in g.pel ==> id in g'.acked || (id in g'.pel && g.pel[id].deliveries <= g'.pel[id].deliveries))
  }

  lemma SettledStays(g: Group, g': Group, id: nat)
    requires Grows(g, g') && id < |g.kinds| && Settled(g, id)
    ensures Settled(g', id)
  {
    if id in g.dlq {
      var i :| 0 <= i < |g.dlq| && g.dlq[i] == id;
      assert g'.dlq[i] == id;
    }
    assert g'.kinds[id] == g.kinds[id];
  }

  /** Only consumer `c` may have changed, and it is fine. */
  lemma ConsumersStayOk(g: Group, g': Group, c: nat)
    requires QueueOk(g) && ConsumersOk(g) && Grows(g, g')
    requires forall d :: d in g'.consumers && d != c ==> d in g.consumers && g'.consumers[d] == g.consumers[d]
    requires c in g'.consumers ==> ConsumerOk(g', g'.consumers[c])
    ensures ConsumersOk(g')
  {
    forall d | d in g'.consumers && d != c ensures ConsumerOk(g', g'.consumers[d]) {
      ConsumerStaysOk(g, g', g.consumers[d]);
    }
  }

  lemma ConsumerStaysOk(g: Group, g': Group, k: Consumer)
    requires QueueOk(g) && ConsumerOk(g, k) && Grows(g, g')
    ensures ConsumerOk(g', k)
  {
    if k.stage.ToAck? || k.stage.ToAckHandled? {
      SettledStays(g, g', k.inbox[0]);
    }
  }

  lemma AckedStaySettled(g: Group, g': Group)
    requires QueueOk(g) && Grows(g, g')
    ensures forall id :: id in g.acked ==> Settled(g', id)
  {
    forall id | id in g.acked ensures Settled(g', id) {
      SettledStays(g, g', id);
    }
  }

  lemma AddKeeps(g: Group, step: GStep)
    requires Inv(g) && step.Add?
    ensures Inv(Next(g, step)) && Grows(g, Next(g, step))
  {
    var g' := Next(g, step);
    AckedStaySettled(g, g');
    if 0 in g.consumers {
      ConsumerStaysOk(g, g', g.consumers[0]);
    }
    ConsumersStayOk(g, g', 0);
  }

  lemma ReadKeeps(g: Group, step: GStep)
    requires Inv(g) && step.Read? && Enabled(g, step)
    ensures Inv(Next(g, step)) && Grows(g, Next(g, step))
  {
    var g' := Next(g, step);
    ReadGrows(g, step);
    AckedStaySettled(g, g');
    ConsumersStayOk(g, g', step.c);
    forall id | 0 <= id < g'.next ensures id in g'.pel || id in g'.acked {
      if g.next <= id {
        assert Range(g.next, step.count)[id - g.next] == id;
      }
    }
  }

  lemma ReadGrows(g: Group, step: GStep)
    requires QueueOk(g) && step.Read? && Enabled(g, step)
    ensures Grows(g, Next(g, step))
    ensures forall id :: id in Next(g, step).pel ==> id < Next(g, step).next && 1 <= Next(g, step).pel[id].deliveries
  {
  }

  lemma ReclaimKeeps(g: Group, step: GStep)
    requires Inv(g) && step.Reclaim? && Enabled(g, step)
    ensures Inv(Next(g, step)) && Grows(g, Next(g, step))
  {
    var g' := Next(g, step);
    AckedStaySettled(g, g');
    assert forall i :: 0 <= i < |step.ids| ==> step.ids[i] in g.pel;
    ConsumersStayOk(g, g', step.c);
  }

  lemma SettleKeepsQueue(g: Group, c: nat, id: nat)
    requires QueueOk(g) && Settled(g, id)
    ensures QueueOk(Settle(g, c, id)) && Grows(g, Settle(g, c, id))
  {
    AckedStaySettled(g, g);
  }

  lemma AckKeepsQueue(g: Group, step: GStep)
    requires Inv(g) && step.Ack? && Enabled(g, step)
    ensures QueueOk(Next(g, step)) && Grows(g, Next(g, step))
  {
    var g' := Next(g, step);
    assert ConsumerOk(g, Of(g, step.c));
    SettleKeepsQueue(g, step.c, Head(g, step.c));
    var after := if step.applied then Settle(g, step.c, Head(g, step.c)) else g;
    AckedStaySettled(g, g);
    assert g' == after.(consumers := g'.consumers);
    QueueIsNotTheConsumers(g, after, g'.consumers);
  }

  lemma QueueIsNotTheConsumers(g: Group, after: Group, consumers: map<nat, Consumer>)
    requires QueueOk(after) && Grows(g, after)
    ensures QueueOk(after.(consumers := consumers)) && Grows(g, after.(consumers := consumers))
  {
    var g' := after.(consumers := consumers);
    forall id | id in g'.acked ensures Settled(g', id) {
      assert Settled(after, id);
    }
  }

  lemma DlqKeepsQueue(g: Group, step: GStep)
    requires Inv(g) && step.WriteDlq? && Enabled(g, step)
    ensures QueueOk(Next(g, step)) && Grows(g, Next(g, step))
  {
    assert ConsumerOk(g, Of(g, step.c));
    AckedStaySettled(g, Next(g, step));
  }

  lemma HandleKeepsQueue(g: Group, step: GStep)
    requires Inv(g) && step.Handle? && Enabled(g, step)
    ensures QueueOk(Next(g, step)) && Grows(g, Next(g, step))
  {
    assert ConsumerOk(g, Of(g, step.c));
    AckedStaySettled(g, Next(g, step));
  }

  lemma OtherWorkKeepsQueue(g: Group, step: GStep)
    requires Inv(g) && Enabled(g, step) && (step.Inspect? || step.CountFirst? || step.CountAfter? || step.Abort?)
    ensures QueueOk(Next(g, step)) && Grows(g, Next(g, step))
  {
    var g' := Next(g, step);
    assert g' == g.(consumers := g'.consumers);
    AckedStaySettled(g, g');
  }

  lemma WorkKeepsQueue(g: Group, step: GStep)
    requires Inv(g) && Enabled(g, step) && !(step.Add? || step.Read? || step.Reclaim?)
    ensures QueueOk(Next(g, step)) && Grows(g, Next(g, step))
  {
    if step.Ack? {
      AckKeepsQueue(g, step);
    } else if step.WriteDlq? {
      DlqKeepsQueue(g, step);
    } else if step.Handle? {
      HandleKeepsQueue(g, step);
    } else {
      OtherWorkKeepsQueue(g, step);
    }
  }

  lemma WorkKeepsConsumer(g: Group, step: GStep)
    requires Inv(g) && Enabled(g, step) && !(step.Add? || step.Read? || step.Reclaim?)
    requires Grows(g, Next(g, step))
    ensures ConsumerOk(Next(g, step), Of(Next(g, step), step.c))
  {
    if step.Ack? {
      AckKeepsConsumer(g, step);
    } else if step.WriteDlq? {
      DlqKeepsConsumer(g, step);
    } else {
      OtherWorkKeepsConsumer(g, step);
    }
  }

  lemma OtherWorkKeepsConsumer(g: Group, step: GStep)
    requires Inv(g) && Enabled(g, step) && (step.Inspect? || step.CountFirst? || step.Handle? || step.CountAfter? || step.Abort?)
    ensures ConsumerOk(Next(g, step), Of(Next(g, step), step.c))
  {
    if Busy(g, step.c) {
      assert ConsumerOk(g, Of(g, step.c));
    }
  }

  lemma AckKeepsConsumer(g: Group, step: GStep)
    requires Inv(g) && step.Ack? && Enabled(g, step)
    ensures ConsumerOk(Next(g, step), Of(Next(g, step), step.c))
  {
    assert ConsumerOk(g, Of(g, step.c));
    assert Next(g, step).next == g.next;
  }

  lemma DlqKeepsConsumer(g: Group, step: GStep)
    requires Inv(g) && step.WriteDlq? && Enabled(g, step)
    ensures ConsumerOk(Next(g, step), Of(Next(g, step), step.c))
  {
    assert ConsumerOk(g, Of(g, step.c));
    var g' := Next(g, step);
    if step.applied {
      assert g'.dlq[|g.dlq|] == Head(g, step.c);
    }
  }

  lemma WorkKeeps(g: Group, step: GStep)
    requires Inv(g) && Enabled(g, step) && !(step.Add? || step.Read? || step.Reclaim?)
    ensures Inv(Next(g, step)) && Grows(g, Next(g, step))
  {
    WorkKeepsQueue(g, step);
    WorkKeepsConsumer(g, step);
    OthersUntouched(g, step);
    ConsumersStayOk(g, Next(g, step), step.c);
  }

  lemma OthersUntouched(g: Group, step: GStep)
    requires Enabled(g, step) && !(step.Add? || step.Read? || step.Reclaim?)
    ensures forall d :: d in Next(g, step).consumers && d != step.c ==>
              d in g.consumers && Next(g, step).consumers[d] == g.consumers[d]
  {
  }

  lemma StepKeeps(g: Group, step: GStep)
    requires Inv(g) && Enabled(g, step)
    ensures Inv(Next(g, step)) && Grows(g, Next(g, step))
  {
    if step.Add? {
      AddKeeps(g, step);
    } else if step.Read? {
      ReadKeeps(g, step);
    } else if step.Reclaim? {
      ReclaimKeeps(g, step);
    } else {
      WorkKeeps(g, step);
    }
  }

  lemma InitOk(strict: bool, maxRetries: nat)
    ensures Inv(Empty(strict, maxRetries))
  {
  }

  lemma {:induction false} RunKeeps(g: Group, steps: seq<GStep>, g': Group)
    requires Inv(g) && Reaches(g, steps, g')
    ensures Inv(g') && Grows(g, g')
    decreases |steps|
  {
    if steps != [] {
      StepKeeps(g, steps[0]);
      RunKeeps(Next(g, steps[0]), steps[1..], g');
    }
  }

  // -------------------------------------------------------------- main results

  /** In every reachable state each entry is undelivered, pending, or safely settled; only settled entries are acknowledged. */
  lemma {:induction false} NoEntryIsLost(strict: bool, maxRetries: nat, steps: seq<GStep>, g: Group, id: nat)
    requires Reaches(Empty(strict, maxRetries), steps, g) && id < |g.kinds|
    ensures g.next <= id || id in g.pel || Settled(g, id)
    ensures id in g.acked ==> id < g.next && id !in g.pel && Settled(g, id)
    ensures id in g.acked && g.kinds[id].EventMsg? ==> id in g.handled || id in g.dlq
  {
    RunKeeps(Empty(strict, maxRetries), steps, g);
  }

  /** The step that acknowledges an entry finds it settled already, whatever other consumers did meanwhile. */
  lemma {:induction false} AcksOnlySettledEntries(strict: bool, maxRetries: nat, steps: seq<GStep>, g: Group, step: GStep)
    requires Reaches(Empty(strict, maxRetries), steps, g) && Enabled(g, step)
    ensures forall id :: id in g.pel && id !in Next(g, step).pel ==>
              step.Ack? && step.applied && Head(g, step.c) == id && Settled(g, id) && Next(g, step).acked[id] == step.c
  {
    RunKeeps(Empty(strict, maxRetries), steps, g);
    OnlyAcksShrinkPending(g, step);
    if step.Ack? {
      assert ConsumerOk(g, Of(g, step.c));
    }
  }

  lemma OnlyAcksShrinkPending(g: Group, step: GStep)
    requires Enabled(g, step)
    ensures forall id :: id in g.pel && id !in Next(g, step).pel ==>
              step.Ack? && step.applied && Head(g, step.c) == id && id in Next(g, step).acked && Next(g, step).acked[id] == step.c
  {
  }

  /** Nothing is decided about an entry at which the event bus throws. */
  predicate NullsWait(g: Group) {
    && (forall c :: c in g.consumers && g.consumers[c].inbox != [] && !g.consumers[c].stage.Ready? ==>
          !KindOf(g, g.consumers[c].inbox[0]).NullMsg?)
    && (forall i :: 0 <= i < |g.dlq| ==> !KindOf(g, g.dlq[i]).NullMsg?)
  }

  lemma StepKeepsNullsWaiting(g: Group, step: GStep)
    requires Inv(g) && NullsWait(g) && Enabled(g, step)
    ensures NullsWait(Next(g, step))
  {
    var g' := Next(g, step);
    KindsStay(g, step);
    OtherConsumersStay(g, step);
    DlqGrowsByDecision(g, step);
    forall c | c in g'.consumers && g'.consumers[c].inbox != [] && !g'.consumers[c].stage.Ready?
      ensures !KindOf(g', g'.consumers[c].inbox[0]).NullMsg?
    {
      if !step.Add? && c == step.c {
        DecisionsAreOnEntries(g, step);
      }
      assert c in g.consumers ==> ConsumerOk(g, g.consumers[c]);
    }
  }

  lemma KindsStay(g: Group, step: GStep)
    requires QueueOk(g) && Enabled(g, step)
    ensures forall id :: 0 <= id < g.next ==> KindOf(Next(g, step), id) == KindOf(g, id)
  {
  }

  lemma OtherConsumersStay(g: Group, step: GStep)
    requires Enabled(g, step)
    ensures forall d :: d in Next(g, step).consumers && (step.Add? || d != step.c) ==>
              d in g.consumers && Next(g, step).consumers[d] == g.consumers[d]
  {
  }

  /** A consumer past the start of an entry has looked at it. */
  lemma DecisionsAreOnEntries(g: Group, step: GStep)
    requires Enabled(g, step) && !step.Add?
    ensures var k' := Of(Next(g, step), step.c);
            k'.inbox != [] && !k'.stage.Ready? ==>
              Busy(g, step.c) && k'.inbox[0] == Head(g, step.c)
              && (!Of(g, step.c).stage.Ready? || !KindOf(g, Head(g, step.c)).NullMsg?)
  {
  }

  lemma DlqGrowsByDecision(g: Group, step: GStep)
    requires Inv(g) && NullsWait(g) && Enabled(g, step)
    ensures forall i :: 0 <= i < |Next(g, step).dlq| ==> Next(g, step).dlq[i] < g.next && !KindOf(g, Next(g, step).dlq[i]).NullMsg?
  {
    if step.WriteDlq? {
      assert ConsumerOk(g, Of(g, step.c));
      assert Next(g, step).dlq == if step.applied then g.dlq + [Head(g, step.c)] else g.dlq;
    } else {
      OnlyWritesDeadLetter(g, step);
    }
  }

  lemma OnlyWritesDeadLetter(g: Group, step: GStep)
    requires Enabled(g, step) && !step.WriteDlq?
    ensures Next(g, step).dlq == g.dlq
  {
  }

  lemma {:induction false} RunKeepsNullsWaiting(g: Group, steps: seq<GStep>, g': Group)
    requires Inv(g) && NullsWait(g) && Reaches(g, steps, g')
    ensures NullsWait(g')
    decreases |steps|
  {
    if steps != [] {
      StepKeepsNullsWaiting(g, steps[0]);
      StepKeeps(g, steps[0]);
      RunKeepsNullsWaiting(Next(g, steps[0]), steps[1..], g');
    }
  }

  /** A JSON `null` is never handled, dead-lettered or acknowledged: once delivered it is pending for good, and whoever reclaims
   *  it loses his batch. */
  lemma {:induction false} NullEntriesStayPending(maxRetries: nat, steps: seq<GStep>, g: Group, id: nat)
    requires Reaches(Empty(false, maxRetries), steps, g) && id < g.next && KindOf(g, id).NullMsg?
    ensures id in g.pel && id !in g.handled && id !in g.dlq && id !in g.acked
    ensures forall step :: Enabled(g, step) && !step.Add? && Busy(g, step.c) && Head(g, step.c) == id ==> step == Abort(step.c)
  {
    RunKeeps(Empty(false, maxRetries), steps, g);
    RunKeepsNullsWaiting(Empty(false, maxRetries), steps, g);
    forall step | Enabled(g, step) && !step.Add? && Busy(g, step.c) && Head(g, step.c) == id ensures step == Abort(step.c) {
      assert g.consumers[step.c].stage.Ready?;
    }
  }

  lemma StepFirst(g: Group, step: GStep, steps: seq<GStep>, g': Group)
    requires Enabled(g, step) && Reaches(Next(g, step), steps, g')
    ensures Reaches(g, [step] + steps, g')
  {
    assert ([step] + steps)[1..] == steps;
  }

  /** A group with one event, delivered to consumer 0 with one allowed delivery. */
  function OneDelivered(stage: Stage, handled: set<nat>): Group {
    Group(true, 1, [EventMsg], 1, map[0 := Pending(0, 1)], map[0 := Consumer([0], stage)], [], handled, map[])
  }

  lemma DeliverOne(steps: seq<GStep>, g: Group)
    requires Reaches(OneDelivered(Ready, {}), steps, g)
    ensures Reaches(Empty(true, 1), [Add(EventMsg)] + ([Read(0, 1)] + steps), g)
  {
    var added := Next(Empty(true, 1), Add(EventMsg));
    assert added == Empty(true, 1).(kinds := [EventMsg]);
    assert Range(0, 1) == [0];
    assert Deliver(map[], [0], 0) == map[0 := Pending(0, 1)];
    assert Next(added, Read(0, 1)) == OneDelivered(Ready, {});
    StepFirst(added, Read(0, 1), steps, g);
    StepFirst(Empty(true, 1), Add(EventMsg), [Read(0, 1)] + steps, g);
  }

  lemma HandleOne(steps: seq<GStep>, g: Group)
    requires Reaches(OneDelivered(ToAckHandled(1), {0}), steps, g)
    ensures Reaches(OneDelivered(Ready, {}), [CountFirst(0, false)] + ([Handle(0, Succeeded)] + steps), g)
  {
    var counted := OneDelivered(Counted(1), {});
    assert Next(OneDelivered(Ready, {}), CountFirst(0, false)) == counted;
    assert Next(counted, Handle(0, Succeeded)) == OneDelivered(ToAckHandled(1), {0});
    StepFirst(counted, Handle(0, Succeeded), steps, g);
    StepFirst(OneDelivered(Ready, {}), CountFirst(0, false), [Handle(0, Succeeded)] + steps, g);
  }

  /** With one allowed delivery: the handler succeeds, the acknowledgement takes effect but its reply is lost, and the strict
   *  consumer dead-letters an entry that is handled and acknowledged. */
  lemma {:induction false} HandledEntryCanBeDeadLettered() returns (steps: seq<GStep>, g: Group)
    ensures Reaches(Empty(true, 1), steps, g)
    ensures 0 in g.handled && 0 in g.acked && 0 in g.dlq
  {
    var handled := OneDelivered(ToAckHandled(1), {0});
    var unseen := handled.(pel := map[], acked := map[0 := 0], consumers := map[0 := Consumer([0], ToDlq)]);
    g := unseen.(dlq := [0], consumers := map[0 := Consumer([0], ToAck)]);
    assert Next(handled, Ack(0, true, false)) == unseen;
    assert Next(unseen, WriteDlq(0, true, true)) == g;
    assert Reaches(g, [], g);
    StepFirst(unseen, WriteDlq(0, true, true), [], g);
    StepFirst(handled, Ack(0, true, false), [WriteDlq(0, true, true)] + [], g);
    var last := [Ack(0, true, false)] + ([WriteDlq(0, true, true)] + []);
    HandleOne(last, g);
    DeliverOne([CountFirst(0, false)] + ([Handle(0, Succeeded)] + last), g);
    steps := [Add(EventMsg)] + ([Read(0, 1)] + ([CountFirst(0, false)] + ([Handle(0, Succeeded)] + last)));
  }
}
