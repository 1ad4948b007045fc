/** The batch loops of the two stream consumers, each command a step of the consumer-group machine, with other consumers
 *  and publishers acting between any two commands. */
module EventConsumers {
  import opened Prelude
  import opened ConsumerGroup
  import opened StreamFields

  datatype Outcome = Acknowledged | LeftPending | Threw

  lemma {:induction false} ReachesOneMore(g: Group, steps: seq<GStep>, m: Group, step: GStep)
    requires Reaches(g, steps, m) && Enabled(m, step)
    ensures Reaches(g, steps + [step], Next(m, step))
    decreases |steps|
  {
    if steps == [] {
      assert Reaches(Next(m, step), [], Next(m, step));
      assert (steps + [step])[1..] == [];
    } else {
      ReachesOneMore(Next(g, steps[0]), steps[1..], m, step);
      assert (steps + [step])[1..] == steps[1..] + [step];
    }
  }

  /** `g` is a state the machine can get into. */
  ghost predicate Reached(g: Group) {
    exists steps :: Reaches(Empty(g.strict, g.maxRetries), steps, g)
  }

  lemma ReachedIsOk(g: Group)
    requires Reached(g)
    ensures Inv(g)
  {
    var steps :| Reaches(Empty(g.strict, g.maxRetries), steps, g);
    InitOk(g.strict, g.maxRetries);
    RunKeeps(Empty(g.strict, g.maxRetries), steps, g);
  }

  lemma QueueFacts(g: Group)
    requires Reached(g)
    ensures g.next <= |g.kinds|
    ensures forall id :: 0 <= id < g.next ==> id in g.pel || id in g.acked
    ensures forall id :: id in g.acked ==> id !in g.pel
  {
    ReachedIsOk(g);
  }

  lemma StepGrows(g: Group, step: GStep)
    requires Reached(g) && Enabled(g, step)
    ensures Grows(g, Next(g, step))
  {
    ReachedIsOk(g);
    StepKeeps(g, step);
  }

  function StepOwner(step: GStep): Option<nat> {
    if step.Add? then None else Some(step.c)
  }

  /** The entries consumer `me` has acknowledged. */
  function AckedBy(g: Group, me: nat): set<nat> {
    set id | id in g.acked && g.acked[id] == me
  }

  /** What becomes of the command that is step `n` of a run: whether it takes effect, whether its answer arrives, whether a count
   *  can be read, and what the handlers of an event make of it. */
  datatype Fate = Fate(applied: bool, replied: bool, lookupFailed: bool, verdict: Verdict)

  predicate Answered(f: Fate) {
    f.applied && f.replied
  }

  predicate Fated(step: GStep, f: Fate) {
    match step
    case WriteDlq(_, applied, replied) => applied == f.applied && replied == Answered(f)
    case Ack(_, applied, replied) => applied == f.applied && replied == Answered(f)
    case Handle(_, verdict) => verdict == f.verdict
    case CountFirst(_, lookupFailed) => lookupFailed == f.lookupFailed
    case CountAfter(_, lookupFailed) => lookupFailed == f.lookupFailed
    case _ => true
  }

  /** From step `from` to step `to`, with some command unanswered if something `failed`. */
  ghost predicate Took(wire: nat -> Fate, from: nat, to: nat, failed: bool) {
    from <= to && (failed ==> exists k: nat :: from <= k < to && !Answered(wire(k)))
  }

  lemma TookBoth(wire: nat -> Fate, from: nat, mid: nat, to: nat, first: bool, second: bool)
    requires Took(wire, from, mid, first) && Took(wire, mid, to, second)
    ensures Took(wire, from, to, first || second)
  {
    if first {
      var k: nat :| from <= k < mid && !Answered(wire(k));
    }
    if second {
      var k: nat :| mid <= k < to && !Answered(wire(k));
    }
  }

  /** What a consumer has to show for its commands: a batch received, a handler run, a command without an answer, or the rest
   *  of a batch dropped. */
  datatype Deed = Received(isNew: bool, ids: seq<nat>) | Ran(id: nat, verdict: Verdict) | Unanswered | Dropped

  function DeedsBy(g: Group, step: GStep): seq<Deed>
    requires Enabled(g, step)
  {
    match step
    case Read(_, count) => [Received(true, Range(g.next, count))]
    case Reclaim(_, ids) => [Received(false, ids)]
    case Handle(c, verdict) => [Ran(Head(g, c), verdict)]
    case WriteDlq(_, _, replied) => if replied then [] else [Unanswered]
    case Ack(_, _, replied) => if replied then [] else [Unanswered]
    case Abort(_) => [Dropped]
    case _ => []
  }

  /** The deeds of `me` along a run. */
  ghost function DeedsOf(g: Group, steps: seq<GStep>, me: nat): seq<Deed>
    decreases |steps|
  {
    if steps == [] || !Enabled(g, steps[0]) then []
    else (if StepOwner(steps[0]) == Some(me) then DeedsBy(g, steps[0]) else []) + DeedsOf(Next(g, steps[0]), steps[1..], me)
  }

  lemma {:induction false} DeedsOneMore(g: Group, steps: seq<GStep>, m: Group, step: GStep, me: nat)
    requires Reaches(g, steps, m) && Enabled(m, step)
    ensures DeedsOf(g, steps + [step], me) ==
            DeedsOf(g, steps, me) + if StepOwner(step) == Some(me) then DeedsBy(m, step) else []
    decreases |steps|
  {
    if steps == [] {
      assert (steps + [step])[1..] == [];
    } else {
      DeedsOneMore(Next(g, steps[0]), steps[1..], m, step, me);
      assert (steps + [step])[1..] == steps[1..] + [step];
    }
  }

  /** An outcome after which only a missing answer is left to tell. */
  function Silence(o: Outcome): seq<Deed> {
    if o.Threw? then [Unanswered] else []
  }

  lemma Joined(a: seq<Deed>, b: seq<Deed>, c: seq<Deed>)
    ensures a + b + c == a + (b + c)
  {
  }

  lemma NothingMore(a: seq<Deed>)
    ensures a + [] == a
  {
  }

  predicate OnlySilence(deeds: seq<Deed>) {
    forall i :: 0 <= i < |deeds| ==> deeds[i] == Unanswered
  }

  /** The deeds on one entry: the handlers of an event run once, first of all; an exception means a missing answer or a JSON
   *  null; an entry is left only when its handlers failed or their acknowledgement was not answered. */
  predicate DeedsFor(deeds: seq<Deed>, id: nat, kind: Kind, o: Outcome) {
    && (if kind.EventMsg? then deeds != [] && deeds[0].Ran? && deeds[0].id == id && OnlySilence(deeds[1..])
        else if kind.NullMsg? then deeds == [Dropped]
        else OnlySilence(deeds))
    && (o.Threw? ==> kind.NullMsg? || Unanswered in deeds)
    && (o.LeftPending? ==> kind.EventMsg? && (deeds[0].verdict != Succeeded || Unanswered in deeds))
  }

  /** Nothing happened to the batch `me` works on: others acted, or `me` has taken a step that acknowledges nothing. */
  ghost predicate Meanwhile(g: Group, g': Group, me: nat) {
    && Grows(g, g') && Of(g', me).inbox == Of(g, me).inbox && AckedBy(g', me) == AckedBy(g, me)
  }

  lemma OtherStepsLeaveConsumerAlone(g: Group, step: GStep, me: nat)
    requires Reached(g) && Enabled(g, step) && StepOwner(step) != Some(me)
    ensures Of(Next(g, step), me) == Of(g, me)
    ensures AckedBy(Next(g, step), me) == AckedBy(g, me)
  {
    OtherStepsLeaveBatchAlone(g, step, me);
    if step.Ack? {
      QueueFacts(g);
      OthersAcknowledge(g, step, me);
    } else {
      OnlyAcksAcknowledge(g, step);
    }
  }

  lemma OtherStepsLeaveBatchAlone(g: Group, step: GStep, me: nat)
    requires Enabled(g, step) && StepOwner(step) != Some(me)
    ensures Of(Next(g, step), me) == Of(g, me)
  {
  }

  lemma OnlyAcksAcknowledge(g: Group, step: GStep)
    requires Enabled(g, step) && !step.Ack?
    ensures Next(g, step).acked == g.acked
  {
  }

  lemma OthersAcknowledge(g: Group, step: GStep, me: nat)
    requires forall id :: id in g.acked ==> id !in g.pel
    requires Enabled(g, step) && step.Ack? && step.c != me
    ensures AckedBy(Next(g, step), me) == AckedBy(g, me)
  {
    var acked := Next(g, step).acked;
    assert acked == g.acked || (Head(g, step.c) !in g.acked && acked == g.acked[Head(g, step.c) := step.c]);
  }

  lemma MeanwhileTwice(g: Group, m: Group, g': Group, me: nat)
    requires Meanwhile(g, m, me) && Meanwhile(m, g', me)
    ensures Meanwhile(g, g', me)
  {
  }

  /** Steps of `me` that stay with the first entry of its batch. */
  lemma OwnStepsStay(g: Group, step: GStep, me: nat)
    requires Reached(g) && Enabled(g, step) && StepOwner(step) == Some(me)
    requires step.Inspect? || step.CountFirst? || step.Handle? || step.CountAfter? || (step.WriteDlq? && step.replied)
    ensures Grows(g, Next(g, step))
    ensures var k, k' := Of(g, me), Of(Next(g, step), me);
            && AckedBy(Next(g, step), me) == AckedBy(g, me)
            && (k'.inbox == k.inbox || k' == Consumer(k.inbox[1..], Ready))
            && (k'.inbox == k.inbox ==> Meanwhile(g, Next(g, step), me))
  {
    StepGrows(g, step);
    OnlyAcksAcknowledge(g, step);
  }

  lemma EntriesStay(g: Group, step: GStep)
    requires Enabled(g, step)
    ensures Next(g, step).kinds == if step.Add? then g.kinds + [step.kind] else g.kinds
  {
  }

  lemma StepTaken(g: Group, steps: seq<GStep>, step: GStep)
    requires Reaches(Empty(g.strict, g.maxRetries), steps, g) && Reached(g) && Enabled(g, step)
    ensures var g' := Next(g, step);
            Grows(g, g') && Reaches(Empty(g'.strict, g'.maxRetries), steps + [step], g') && Reached(g')
    ensures forall me: nat :: DeedsOf(Empty(g.strict, g.maxRetries), steps + [step], me) ==
              DeedsOf(Empty(g.strict, g.maxRetries), steps, me) + if StepOwner(step) == Some(me) then DeedsBy(g, step) else []
  {
    forall me: nat {
      DeedsOneMore(Empty(g.strict, g.maxRetries), steps, g, step, me);
    }
    ReachesOneMore(Empty(g.strict, g.maxRetries), steps, g, step);
    StepGrows(g, step);
  }

  /** The consumer group in Redis. `raw` gives the fields of every entry, now or to come; `classify` is the reading rule; `wire`
   *  is what becomes of every command. */
  class SharedGroup {
    const raw: nat -> seq<string>
    const classify: seq<string> -> Kind
    const wire: nat -> Fate
    var g: Group
    var clock: nat
    ghost var steps: seq<GStep>

    constructor (strict: bool, maxRetries: nat, raw: nat -> seq<string>, classify: seq<string> -> Kind, wire: nat -> Fate)
      ensures Valid() && g == Empty(strict, maxRetries) && this.raw == raw && this.classify == classify && this.wire == wire
      ensures forall me: nat :: Deeds(me) == []
    {
      this.raw, this.classify, this.wire := raw, classify, wire;
      g, clock, steps := Empty(strict, maxRetries), 0, [];
      new;
      assert Reaches(Empty(strict, maxRetries), [], g);
    }

    /** The group is the outcome of a run of the machine. */
    ghost predicate Valid()
      reads this
    {
      && Reaches(Empty(g.strict, g.maxRetries), steps, g) && Reached(g)
      && clock == |steps|
      && forall id :: 0 <= id < |g.kinds| ==> g.kinds[id] == classify(raw(id))
    }

    ghost function Deeds(me: nat): seq<Deed>
      reads this
    {
      DeedsOf(Empty(g.strict, g.maxRetries), steps, me)
    }

    /** Every step is taken with the fate of its turn. */
    method Take(step: GStep)
      requires Valid() && Enabled(g, step) && Fated(step, wire(clock))
      requires step.Add? ==> step.kind == classify(raw(|g.kinds|))
      modifies this
      ensures Valid() && g == Next(old(g), step) && clock == old(clock) + 1 && steps == old(steps) + [step]
      ensures Grows(old(g), g)
      ensures forall me: nat :: Deeds(me) == old(Deeds(me)) + if StepOwner(step) == Some(me) then DeedsBy(old(g), step) else []
    {
      StepTaken(g, steps, step);
      EntriesStay(g, step);
      g, clock := Next(g, step), clock + 1;
      steps := steps + [step];
    }

    /** Whatever other consumers and publishers do before the next command of `me`. */
    method Others(me: nat)
      requires Valid()
      modifies this
      ensures Valid() && Of(g, me) == Of(old(g), me) && Meanwhile(old(g), g, me)
      ensures Deeds(me) == old(Deeds(me)) && old(clock) <= clock
    {
      var count: nat := *;
      while 0 < count
        invariant Valid() && Of(g, me) == Of(old(g), me) && Meanwhile(old(g), g, me)
        invariant Deeds(me) == old(Deeds(me)) && old(clock) <= clock
      {
        var step: GStep := *;
        if Enabled(g, step) && Fated(step, wire(clock)) && StepOwner(step) != Some(me) && (step.Add? ==> step.kind == classify(raw(|g.kinds|))) {
          OtherStepsLeaveConsumerAlone(g, step, me);
          ghost var before := g;
          Take(step);
          MeanwhileTwice(old(g), before, g, me);
        }
        count := count - 1;
      }
    }
  }

  lemma HeadIsEntry(g: Group, me: nat)
    requires Reached(g) && Busy(g, me)
    ensures Head(g, me) < g.next <= |g.kinds|
    ensures Head(g, me) in g.pel || Head(g, me) in g.acked
  {
    ReachedIsOk(g);
    assert ConsumerOk(g, Of(g, me));
  }

  /** What is pending now was pending before, with no more deliveries. */
  lemma PendingBefore(g: Group, g': Group, id: nat)
    requires Reached(g) && Reached(g') && Grows(g, g') && id < g.next && id in g'.pel
    ensures id in g.pel && g.pel[id].deliveries <= g'.pel[id].deliveries
  {
    ReachedIsOk(g);
    ReachedIsOk(g');
  }

  lemma KindStays(g: Group, g': Group, id: nat)
    requires Grows(g, g') && id < |g.kinds|
    ensures KindOf(g', id) == KindOf(g, id)
  {
  }

  lemma AckEffect(g: Group, me: nat, applied: bool, replied: bool)
    requires Reached(g) && Enabled(g, Ack(me, applied, replied))
    ensures var g' := Next(g, Ack(me, applied, replied));
            && AckedBy(g', me) <= AckedBy(g, me) + {Head(g, me)}
            && (replied ==> Head(g, me) in g'.acked && Of(g', me) == Consumer(Of(g, me).inbox[1..], Ready))
            && (!replied && Of(g, me).stage.ToAck? ==> Of(g', me) == Consumer([], Ready))
  {
    HeadIsEntry(g, me);
  }

  /** What working off the first entry of a batch may end in. Whatever happens, `me` acknowledges no other entry, and this
   *  one stays pending or is acknowledged. */
  ghost predicate WorkedOff(before: Group, g: Group, me: nat, o: Outcome)
    requires Busy(before, me)
  {
    var id, inbox := Head(before, me), Of(before, me).inbox;
    && Grows(before, g) && AckedBy(g, me) <= AckedBy(before, me) + {id}
    && (id in g.pel || id in g.acked)
    && match o
       case Acknowledged => Of(g, me) == Consumer(inbox[1..], Ready) && id in g.acked
       case LeftPending => Of(g, me) == Consumer(inbox[1..], Ready) && KindOf(g, id).EventMsg?
       case Threw => Of(g, me) == Consumer([], Ready)
  }

  lemma WorkedOffLater(start: Group, before: Group, g: Group, me: nat, o: Outcome)
    requires Busy(start, me) && Meanwhile(start, before, me) && WorkedOff(before, g, me, o)
    ensures WorkedOff(start, g, me, o)
  {
  }

  method AckHead(sh: SharedGroup, me: nat) returns (o: Outcome)
    requires sh.Valid() && Busy(sh.g, me) && Of(sh.g, me).stage.ToAck?
    modifies sh
    ensures sh.Valid() && WorkedOff(old(sh.g), sh.g, me, o) && !o.LeftPending?
    ensures Took(sh.wire, old(sh.clock), sh.clock, o.Threw?)
    ensures sh.Deeds(me) == old(sh.Deeds(me)) + Silence(o)
  {
    HeadIsEntry(sh.g, me);
    sh.Others(me);
    var fate := sh.wire(sh.clock);
    var replied := Answered(fate);
    AckEffect(sh.g, me, fate.applied, replied);
    ghost var before := sh.g;
    sh.Take(Ack(me, fate.applied, replied));
    o := if replied then Acknowledged else Threw;
    WorkedOffLater(old(sh.g), before, sh.g, me, o);
  }

  /** Writes the entry to the dead-letter queue, then acknowledges it. A write without a reply aborts the batch, and nothing
   *  is acknowledged. */
  method SendToDlqAndAck(sh: SharedGroup, me: nat) returns (o: Outcome, ghost replied: bool)
    requires sh.Valid() && Busy(sh.g, me) && Of(sh.g, me).stage.ToDlq?
    modifies sh
    ensures sh.Valid() && WorkedOff(old(sh.g), sh.g, me, o) && !o.LeftPending?
    ensures Took(sh.wire, old(sh.clock), sh.clock, o.Threw?)
    ensures sh.Deeds(me) == old(sh.Deeds(me)) + Silence(o)
    ensures replied ==> Head(old(sh.g), me) in sh.g.dlq
    ensures !replied ==> o.Threw? && AckedBy(sh.g, me) == AckedBy(old(sh.g), me)
  {
    HeadIsEntry(sh.g, me);
    sh.Others(me);
    var fate := sh.wire(sh.clock);
    var seen := Answered(fate);
    replied := seen;
    ghost var before := sh.g;
    DlqEffect(before, me, fate.applied, seen);
    sh.Take(WriteDlq(me, fate.applied, seen));
    if !seen {
      WorkedOffLater(old(sh.g), before, sh.g, me, Threw);
      return Threw, replied;
    }
    MeanwhileTwice(old(sh.g), before, sh.g, me);
    before := sh.g;
    o := AckHead(sh, me);
    WorkedOffLater(old(sh.g), before, sh.g, me, o);
  }

  lemma DlqEffect(g: Group, me: nat, applied: bool, replied: bool)
    requires Reached(g) && Enabled(g, WriteDlq(me, applied, replied))
    ensures var g' := Next(g, WriteDlq(me, applied, replied));
            && AckedBy(g', me) == AckedBy(g, me)
            && (replied ==> Head(g, me) in g'.dlq && Meanwhile(g, g', me) && Of(g', me).stage.ToAck?)
            && (!replied ==> WorkedOff(g, g', me, Threw))
  {
    ReachedIsOk(g);
    var step := WriteDlq(me, applied, replied);
    StepKeeps(g, step);
    HeadIsEntry(g, me);
    assert applied ==> Next(g, step).dlq[|g.dlq|] == Head(g, me);
  }

  /** After a successful handler. A failed acknowledgement is caught and treated like a handler error: the entry is left while
   *  retries remain, and dead-lettered otherwise, acknowledged or not. */
  method AckHandled(sh: SharedGroup, me: nat) returns (o: Outcome, ghost replied: bool)
    requires sh.Valid() && Busy(sh.g, me) && Of(sh.g, me).stage.ToAckHandled?
    requires KindOf(sh.g, Head(sh.g, me)).EventMsg?
    modifies sh
    ensures sh.Valid() && WorkedOff(old(sh.g), sh.g, me, o)
    ensures Took(sh.wire, old(sh.clock), sh.clock, !replied)
    ensures sh.Deeds(me) == old(sh.Deeds(me)) + if replied then [] else [Unanswered] + Silence(o)
    ensures replied ==> o.Acknowledged?
    ensures !replied && Of(old(sh.g), me).stage.count < sh.g.maxRetries ==> o.LeftPending?
    ensures !replied && sh.g.maxRetries <= Of(old(sh.g), me).stage.count ==>
      !o.LeftPending? && (o.Acknowledged? ==> Head(old(sh.g), me) in sh.g.dlq)
  {
    var count := Of(sh.g, me).stage.count;
    HeadIsEntry(sh.g, me);
    sh.Others(me);
    var fate := sh.wire(sh.clock);
    var seen := Answered(fate);
    replied := seen;
    ghost var before := sh.g;
    AckHandledEffect(before, me, fate.applied, seen);
    sh.Take(Ack(me, fate.applied, seen));
    o := if seen then Acknowledged else LeftPending;
    if !seen && sh.g.maxRetries <= count {
      o := DlqUnanswered(sh, me, before);
      Joined(old(sh.Deeds(me)), [Unanswered], Silence(o));
    }
    WorkedOffLater(old(sh.g), before, sh.g, me, o);
  }

  /** The acknowledgement made in `before` was not answered, whether or not it took effect: dead-letter the entry. */
  method DlqUnanswered(sh: SharedGroup, me: nat, ghost before: Group) returns (o: Outcome)
    requires sh.Valid() && Busy(before, me) && Of(sh.g, me) == Consumer(Of(before, me).inbox, ToDlq)
    requires Grows(before, sh.g) && AckedBy(sh.g, me) <= AckedBy(before, me) + {Head(before, me)}
    modifies sh
    ensures sh.Valid() && WorkedOff(before, sh.g, me, o)
    ensures Took(sh.wire, old(sh.clock), sh.clock, o.Threw?)
    ensures sh.Deeds(me) == old(sh.Deeds(me)) + Silence(o)
    ensures !o.LeftPending? && (o.Acknowledged? ==> Head(before, me) in sh.g.dlq)
  {
    ghost var mid, stored := sh.g, false;
    o, stored := SendToDlqAndAck(sh, me);
    AcknowledgedBefore(before, mid, sh.g, me, o);
  }

  lemma AckHandledEffect(g: Group, me: nat, applied: bool, replied: bool)
    requires Reached(g) && Enabled(g, Ack(me, applied, replied)) && Of(g, me).stage.ToAckHandled? && KindOf(g, Head(g, me)).EventMsg?
    ensures var g' := Next(g, Ack(me, applied, replied));
            && Grows(g, g')
            && (replied ==> WorkedOff(g, g', me, Acknowledged))
            && (!replied && Of(g, me).stage.count < g.maxRetries ==> WorkedOff(g, g', me, LeftPending))
            && (!replied && g.maxRetries <= Of(g, me).stage.count ==>
                  Of(g', me) == Consumer(Of(g, me).inbox, ToDlq) && AckedBy(g', me) <= AckedBy(g, me) + {Head(g, me)})
  {
    ReachedIsOk(g);
    StepKeeps(g, Ack(me, applied, replied));
    AckEffect(g, me, applied, replied);
  }

  /** The acknowledgement whose reply was lost may have had its effect before the entry is dead-lettered. */
  lemma AcknowledgedBefore(g: Group, mid: Group, g': Group, me: nat, o: Outcome)
    requires Busy(g, me) && Grows(g, mid) && Of(mid, me).inbox == Of(g, me).inbox
    requires AckedBy(mid, me) <= AckedBy(g, me) + {Head(g, me)} && WorkedOff(mid, g', me, o)
    ensures WorkedOff(g, g', me, o)
  {
  }

  /** A well-formed event: read its delivery count, run the handler, then acknowledge, leave or dead-letter it. `count` is the
   *  count the decision goes by: the entry's deliveries when the lookup succeeds, else one. */
  method DeliverStrict(sh: SharedGroup, me: nat) 
    returns (o: Outcome, ghost count: nat, ghost blind: bool, ghost verdict: Verdict, ghost deeds: seq<Deed>)
    requires sh.Valid() && sh.g.strict && Busy(sh.g, me) && Of(sh.g, me).stage.Ready?
    requires KindOf(sh.g, Head(sh.g, me)).EventMsg?
    modifies sh
    ensures sh.Valid() && WorkedOff(old(sh.g), sh.g, me, o)
    ensures Took(sh.wire, old(sh.clock), sh.clock, o.Threw?)
    ensures sh.Deeds(me) == old(sh.Deeds(me)) + deeds && DeedsFor(deeds, Head(old(sh.g), me), EventMsg, o)
    ensures var id := Head(old(sh.g), me);
      && (blind ==> count == 1)
      && (!blind && id in sh.g.pel ==> id in old(sh.g).pel && old(sh.g).pel[id].deliveries <= count <= sh.g.pel[id].deliveries)
      && (verdict.Succeeded? ==> id in sh.g.handled)
      && (verdict.Retryable? && count < sh.g.maxRetries ==> o.LeftPending?)
      && (verdict.NonRetryable? || (verdict.Retryable? && sh.g.maxRetries <= count) ==>
            !o.LeftPending? && (o.Acknowledged? ==> id in sh.g.dlq))
      && (o.LeftPending? ==> count < sh.g.maxRetries)
  {
    ghost var id, looked := Head(sh.g, me), sh.g;
    var seen, lookupFailed;
    seen, lookupFailed, looked := CountDeliveries(sh, me);
    var outcome := sh.wire(sh.clock).verdict;
    count, blind, verdict := seen, lookupFailed, outcome;
    ghost var before := sh.g;
    o, deeds := HandleStrict(sh, me, seen, outcome);
    WorkedOffLater(old(sh.g), before, sh.g, me, o);
    if id in sh.g.pel {
      PendingBefore(looked, sh.g, id);
      PendingBefore(old(sh.g), looked, id);
    }
  }

  /** Reads the delivery count of the entry at hand, in the state `looked`. */
  method CountDeliveries(sh: SharedGroup, me: nat) returns (count: nat, lookupFailed: bool, ghost looked: Group)
    requires sh.Valid() && sh.g.strict && Busy(sh.g, me) && Of(sh.g, me).stage.Ready?
    requires KindOf(sh.g, Head(sh.g, me)).EventMsg?
    modifies sh
    ensures sh.Valid() && Meanwhile(old(sh.g), sh.g, me) && Of(sh.g, me).stage == Counted(count)
    ensures KindOf(sh.g, Head(sh.g, me)).EventMsg? && sh.Deeds(me) == old(sh.Deeds(me)) && old(sh.clock) <= sh.clock
    ensures Reached(looked) && Grows(old(sh.g), looked) && Grows(looked, sh.g) && Head(old(sh.g), me) < old(sh.g).next
    ensures count == Deliveries(looked, Head(old(sh.g), me), lookupFailed)
  {
    HeadIsEntry(sh.g, me);
    sh.Others(me);
    lookupFailed, looked := sh.wire(sh.clock).lookupFailed, sh.g;
    count := Deliveries(sh.g, Head(sh.g, me), lookupFailed);
    KindStays(old(sh.g), looked, Head(looked, me));
    OwnStepsStay(looked, CountFirst(me, lookupFailed), me);
    sh.Take(CountFirst(me, lookupFailed));
    MeanwhileTwice(old(sh.g), looked, sh.g, me);
    ghost var counted := sh.g;
    sh.Others(me);
    MeanwhileTwice(old(sh.g), counted, sh.g, me);
  }

  /** The handler has come to `verdict`; go by that and by the delivery count. */
  method HandleStrict(sh: SharedGroup, me: nat, count: nat, verdict: Verdict) returns (o: Outcome, ghost deeds: seq<Deed>)
    requires sh.Valid() && sh.g.strict && Busy(sh.g, me) && Of(sh.g, me).stage == Counted(count)
    requires KindOf(sh.g, Head(sh.g, me)).EventMsg? && verdict == sh.wire(sh.clock).verdict
    modifies sh
    ensures sh.Valid() && WorkedOff(old(sh.g), sh.g, me, o)
    ensures Took(sh.wire, old(sh.clock), sh.clock, o.Threw?)
    ensures sh.Deeds(me) == old(sh.Deeds(me)) + deeds && DeedsFor(deeds, Head(old(sh.g), me), EventMsg, o)
    ensures var id, exhausted := Head(old(sh.g), me), sh.g.maxRetries <= count;
      && (verdict.Succeeded? ==> id in sh.g.handled)
      && (verdict.Retryable? && !exhausted ==> o.LeftPending?)
      && (verdict.NonRetryable? || (verdict.Retryable? && exhausted) ==> !o.LeftPending? && (o.Acknowledged? ==> id in sh.g.dlq))
      && (o.LeftPending? ==> !exhausted)
  {
    ghost var start := sh.g;
    HandleEffect(start, me, verdict);
    sh.Take(Handle(me, verdict));
    if verdict.Retryable? && count < sh.g.maxRetries {
      AfterRun(old(sh.Deeds(me)), Head(start, me), verdict, [], LeftPending);
      return LeftPending, [Ran(Head(start, me), verdict)] + [];
    }
    ghost var before, seenReply, rest := sh.g, false, [];
    if verdict.Succeeded? {
      o, seenReply := AckHandled(sh, me);
      rest := if seenReply then [] else [Unanswered] + Silence(o);
    } else {
      o, seenReply := SendToDlqAndAck(sh, me);
      rest := Silence(o);
    }
    deeds := [Ran(Head(start, me), verdict)] + rest;
    AfterRun(old(sh.Deeds(me)), Head(start, me), verdict, rest, o);
    WorkedOffLater(start, before, sh.g, me, o);
  }

  lemma AfterRun(past: seq<Deed>, id: nat, verdict: Verdict, rest: seq<Deed>, o: Outcome)
    requires OnlySilence(rest) && (o.Threw? ==> Unanswered in rest)
    requires o.LeftPending? ==> verdict != Succeeded || Unanswered in rest
    ensures past + [Ran(id, verdict)] + rest == past + ([Ran(id, verdict)] + rest)
    ensures DeedsFor([Ran(id, verdict)] + rest, id, EventMsg, o)
  {
    var deeds := [Ran(id, verdict)] + rest;
    assert deeds[1..] == rest;
  }

  lemma HandleEffect(g: Group, me: nat, verdict: Verdict)
    requires Reached(g) && g.strict && Enabled(g, Handle(me, verdict))
    ensures var g', count := Next(g, Handle(me, verdict)), Of(g, me).stage.count;
            && Grows(g, g') && KindOf(g', Head(g, me)).EventMsg?
            && (verdict.Succeeded? ==>
                  Meanwhile(g, g', me) && Of(g', me).stage == ToAckHandled(count) && Head(g, me) in g'.handled)
            && (verdict.Retryable? && count < g.maxRetries ==> WorkedOff(g, g', me, LeftPending))
            && (verdict.NonRetryable? || (verdict.Retryable? && g.maxRetries <= count) ==> Meanwhile(g, g', me) && Of(g', me).stage.ToDlq?)
  {
    ReachedIsOk(g);
    StepKeeps(g, Handle(me, verdict));
    HeadIsEntry(g, me);
  }

  /** A retry was due: the entry is left with fewer than the allowed deliveries, unless its count could not be read. */
  ghost predicate RetryDue(before: Group, g: Group, id: nat, blind: bool) {
    && KindOf(g, id).EventMsg?
    && (id in g.pel && !blind ==> id in before.pel && before.pel[id].deliveries < g.maxRetries)
  }

  /** One message of `RedisStreamConsumer.processMessages`. */
  method ProcessStrict(sh: SharedGroup, me: nat, accepts: string -> bool)
    returns (o: Outcome, ghost blind: bool, ghost deeds: seq<Deed>)
    requires sh.Valid() && sh.g.strict && Busy(sh.g, me) && Of(sh.g, me).stage.Ready?
    requires forall fields :: sh.classify(fields) == StrictKind(fields, accepts)
    modifies sh
    ensures sh.Valid() && WorkedOff(old(sh.g), sh.g, me, o)
    ensures Took(sh.wire, old(sh.clock), sh.clock, o.Threw?)
    ensures sh.Deeds(me) == old(sh.Deeds(me)) + deeds
    ensures DeedsFor(deeds, Head(old(sh.g), me), KindOf(old(sh.g), Head(old(sh.g), me)), o)
    ensures o.LeftPending? ==> RetryDue(old(sh.g), sh.g, Head(old(sh.g), me), blind)
  {
    HeadIsEntry(sh.g, me);
    var id := Head(sh.g, me);
    var fields := ParseStreamFields(sh.raw(id));
    blind := false;
    if SHUTDOWN in fields && fields[SHUTDOWN] == "1" {
      o := InspectAndAck(sh, me);
      deeds := Silence(o);
      return;
    }
    if PAYLOAD !in fields || fields[PAYLOAD] == "" || !accepts(fields[PAYLOAD]) {
      o := InspectAndDlq(sh, me);
      deeds := Silence(o);
      return;
    }
    ghost var count, verdict;
    o, count, blind, verdict, deeds := DeliverStrict(sh, me);
  }

  lemma InspectEffect(g: Group, me: nat)
    requires Reached(g) && Enabled(g, Inspect(me))
    ensures var g' := Next(g, Inspect(me));
            && Meanwhile(g, g', me)
            && Of(g', me).stage == if g.strict && KindOf(g, Head(g, me)).BadMsg? then ToDlq else ToAck
  {
    OwnStepsStay(g, Inspect(me), me);
  }

  /** Nothing to deliver: acknowledge. */
  method InspectAndAck(sh: SharedGroup, me: nat) returns (o: Outcome)
    requires sh.Valid() && Busy(sh.g, me) && Of(sh.g, me).stage.Ready?
    requires var kind := KindOf(sh.g, Head(sh.g, me)); kind.ShutdownMsg? || (!sh.g.strict && kind.BadMsg?)
    modifies sh
    ensures sh.Valid() && WorkedOff(old(sh.g), sh.g, me, o) && !o.LeftPending?
    ensures Took(sh.wire, old(sh.clock), sh.clock, o.Threw?)
    ensures sh.Deeds(me) == old(sh.Deeds(me)) + Silence(o)
  {
    ghost var start := sh.g;
    InspectEffect(start, me);
    sh.Take(Inspect(me));
    ghost var before := sh.g;
    o := AckHead(sh, me);
    WorkedOffLater(start, before, sh.g, me, o);
  }

  /** A malformed entry goes to the dead-letter queue. */
  method InspectAndDlq(sh: SharedGroup, me: nat) returns (o: Outcome)
    requires sh.Valid() && sh.g.strict && Busy(sh.g, me) && Of(sh.g, me).stage.Ready?
    requires KindOf(sh.g, Head(sh.g, me)).BadMsg?
    modifies sh
    ensures sh.Valid() && WorkedOff(old(sh.g), sh.g, me, o) && !o.LeftPending?
    ensures Took(sh.wire, old(sh.clock), sh.clock, o.Threw?)
    ensures sh.Deeds(me) == old(sh.Deeds(me)) + Silence(o)
  {
    ghost var start := sh.g;
    InspectEffect(start, me);
    sh.Take(Inspect(me));
    ghost var before, seenReply := sh.g, false;
    o, seenReply := SendToDlqAndAck(sh, me);
    WorkedOffLater(start, before, sh.g, me, o);
  }

  /** The entries handlers were run for, in order. */
  function RunIds(deeds: seq<Deed>): seq<nat> {
    if deeds == [] then []
    else RunIds(deeds[..|deeds| - 1]) + if deeds[|deeds| - 1].Ran? then [deeds[|deeds| - 1].id] else []
  }

  /** The well-formed events among `messages`. */
  function EventsIn(g: Group, messages: seq<nat>): seq<nat> {
    if messages == [] then []
    else EventsIn(g, messages[..|messages| - 1]) + if KindOf(g, messages[|messages| - 1]).EventMsg? then [messages[|messages| - 1]] else []
  }

  /** The handlers of the entry failed, or their acknowledgement was not answered. */
  predicate InVain(deeds: seq<Deed>, id: nat) {
    exists i :: 0 <= i < |deeds| && deeds[i].Ran? && deeds[i].id == id && (deeds[i].verdict != Succeeded || Unanswered in deeds)
  }

  /** What was done for the first `worked` messages of a batch: their events went to the handlers once each, in order, and a
   *  message is left only after that was in vain. */
  ghost predicate BatchDeeds(deeds: seq<Deed>, before: Group, messages: seq<nat>, worked: nat, left: set<nat>)
    requires worked <= |messages|
  {
    && RunIds(deeds) == EventsIn(before, messages[..worked])
    && (forall i :: 0 <= i < |deeds| ==> !deeds[i].Received?)
    && (forall id :: id in left ==> InVain(deeds, id))
  }

  /** What working off a batch leaves: every entry is still pending or acknowledged; `me` has acknowledged none behind the
   *  `worked` first ones; each of these is acknowledged or left, except one that an exception was thrown at, for a missing
   *  answer or a JSON null; left are only events due for a retry. */
  ghost predicate BatchDone(before: Group, g: Group, me: nat, messages: seq<nat>, threw: bool, worked: nat, left: set<nat>, blind: set<nat>) {
    && Grows(before, g) && Of(g, me) == Consumer([], Ready)
    && (forall id :: id in messages ==> id in g.pel || id in g.acked)
    && worked <= |messages| && AckedBy(g, me) <= AckedBy(before, me) + SeqSet(messages[..worked])
    && (if threw then 0 < worked else worked == |messages|)
    && (forall k :: 0 <= k < (if threw then worked - 1 else worked) ==> messages[k] in g.acked || messages[k] in left)
    && (forall id :: id in left ==> id in messages && RetryDue(before, g, id, id in blind))
  }

  /** An exception has its reason in the last message that was worked on. */
  ghost predicate Excused(deeds: seq<Deed>, before: Group, messages: seq<nat>, threw: bool, worked: nat)
    requires worked <= |messages|
  {
    threw ==> 0 < worked && (KindOf(before, messages[worked - 1]).NullMsg? || Unanswered in deeds)
  }

  lemma RunIdsOfAppend(a: seq<Deed>, b: seq<Deed>)
    ensures RunIds(a + b) == RunIds(a) + RunIds(b)
    decreases |b|
  {
    if b == [] {
      assert a + b == a;
    } else {
      RunIdsOfAppend(a, b[..|b| - 1]);
      assert (a + b)[..|a + b| - 1] == a + b[..|b| - 1];
    }
  }

  lemma {:induction false} SilenceRunsNothing(deeds: seq<Deed>)
    requires forall i :: 0 <= i < |deeds| ==> !deeds[i].Ran?
    ensures RunIds(deeds) == []
  {
    if deeds != [] {
      SilenceRunsNothing(deeds[..|deeds| - 1]);
    }
  }

  lemma DeedsRun(deeds: seq<Deed>, id: nat, kind: Kind, o: Outcome)
    requires DeedsFor(deeds, id, kind, o)
    ensures RunIds(deeds) == if kind.EventMsg? then [id] else []
    ensures forall i :: 0 <= i < |deeds| ==> !deeds[i].Received?
    ensures o.LeftPending? ==> InVain(deeds, id)
  {
    if kind.EventMsg? {
      assert deeds == deeds[..1] + deeds[1..];
      RunIdsOfAppend(deeds[..1], deeds[1..]);
      SilenceRunsNothing(deeds[1..]);
      assert deeds[..1][..0] == [];
    } else {
      SilenceRunsNothing(deeds);
    }
  }

  lemma InVainStays(a: seq<Deed>, b: seq<Deed>, left: set<nat>)
    requires forall id :: id in left ==> InVain(a, id)
    ensures forall id :: id in left ==> InVain(a + b, id)
  {
    forall id | id in left ensures InVain(a + b, id) {
      var i :| 0 <= i < |a| && a[i].Ran? && a[i].id == id && (a[i].verdict != Succeeded || Unanswered in a);
      assert (a + b)[i] == a[i];
    }
  }

  lemma InVainNow(a: seq<Deed>, b: seq<Deed>, id: nat)
    requires InVain(b, id)
    ensures InVain(a + b, id)
  {
    var i :| 0 <= i < |b| && b[i].Ran? && b[i].id == id && (b[i].verdict != Succeeded || Unanswered in b);
    assert (a + b)[|a| + i] == b[i];
  }

  lemma OneMoreEvent(g: Group, messages: seq<nat>, i: nat)
    requires i < |messages|
    ensures EventsIn(g, messages[..i + 1]) == EventsIn(g, messages[..i]) + if KindOf(g, messages[i]).EventMsg? then [messages[i]] else []
  {
    assert messages[..i + 1][..i] == messages[..i];
  }

  lemma NothingReceived(a: seq<Deed>, b: seq<Deed>)
    requires forall i :: 0 <= i < |a| ==> !a[i].Received?
    requires forall i :: 0 <= i < |b| ==> !b[i].Received?
    ensures forall i :: 0 <= i < |a + b| ==> !(a + b)[i].Received?
  {
  }

  lemma OneMoreDeed(done: seq<Deed>, deeds: seq<Deed>, start: Group, messages: seq<nat>, i: nat, left: set<nat>, o: Outcome)
    requires i < |messages| && BatchDeeds(done, start, messages, i, left)
    requires DeedsFor(deeds, messages[i], KindOf(start, messages[i]), o)
    ensures BatchDeeds(done + deeds, start, messages, i + 1, if o.LeftPending? then left + {messages[i]} else left)
    ensures Excused(done + deeds, start, messages, o.Threw?, i + 1)
  {
    RunIdsOfAppend(done, deeds);
    DeedsRun(deeds, messages[i], KindOf(start, messages[i]), o);
    OneMoreEvent(start, messages, i);
    NothingReceived(done, deeds);
    InVainStays(done, deeds, left);
    if o.LeftPending? {
      InVainNow(done, deeds, messages[i]);
    }
  }

  /** `RedisStreamConsumer.processMessages`. */
  method ProcessMessagesStrict(sh: SharedGroup, me: nat, messages: seq<nat>, accepts: string -> bool)
    returns (threw: bool, left: set<nat>, ghost worked: nat, ghost blind: set<nat>, ghost deeds: seq<Deed>)
    requires sh.Valid() && sh.g.strict && Of(sh.g, me) == Consumer(messages, Ready)
    requires forall fields :: sh.classify(fields) == StrictKind(fields, accepts)
    modifies sh
    ensures sh.Valid() && BatchDone(old(sh.g), sh.g, me, messages, threw, worked, left, blind)
    ensures Took(sh.wire, old(sh.clock), sh.clock, threw && !KindOf(old(sh.g), messages[worked - 1]).NullMsg?)
    ensures sh.Deeds(me) == old(sh.Deeds(me)) + deeds && BatchDeeds(deeds, old(sh.g), messages, worked, left)
    ensures Excused(deeds, old(sh.g), messages, threw, worked)
  {
    threw, left, worked, blind, deeds := false, {}, 0, {}, [];
    BatchBegins(sh.g, me, messages);
    var i := 0;
    while i < |messages|
      invariant sh.Valid() && BatchGoing(old(sh.g), sh.g, me, messages, i, left, blind)
      invariant sh.Deeds(me) == old(sh.Deeds(me)) + deeds && BatchDeeds(deeds, old(sh.g), messages, i, left)
      invariant worked == i && Took(sh.wire, old(sh.clock), sh.clock, false)
    {
      ghost var before, clock := sh.g, sh.clock;
      var o;
      ghost var unseen, mine;
      o, unseen, mine := ProcessStrict(sh, me, accepts);
      OneMoreMessage(old(sh.g), before, sh.g, me, messages, i, left, blind, o, unseen, old(sh.Deeds(me)), deeds, mine);
      TookBoth(sh.wire, old(sh.clock), clock, sh.clock, false, o.Threw? && !KindOf(before, Head(before, me)).NullMsg?);
      deeds := deeds + mine;
      i, worked := i + 1, i + 1;
      if o.Threw? {
        return true, left, worked, blind, deeds;
      }
      if o.LeftPending? {
        left := left + {messages[i - 1]};
        blind := if unseen then blind + {messages[i - 1]} else blind;
      }
    }
    BatchEnds(old(sh.g), sh.g, me, messages, left, blind);
  }

  /** The same in the middle of a batch: the first `i` messages are worked off. */
  ghost predicate BatchGoing(before: Group, g: Group, me: nat, messages: seq<nat>, i: nat, left: set<nat>, blind: set<nat>) {
    && Reached(before) && Reached(g) && Grows(before, g) && g.strict == before.strict
    && i <= |messages| && Of(g, me) == Consumer(messages[i..], Ready)
    && (forall id :: id in messages ==> id < before.next)
    && AckedBy(g, me) <= AckedBy(before, me) + SeqSet(messages[..i])
    && (forall k :: 0 <= k < i ==> messages[k] in g.acked || messages[k] in left)
    && (forall id :: id in left ==> id in messages && RetryDue(before, g, id, id in blind))
    && blind <= left
  }

  lemma BatchBegins(g: Group, me: nat, messages: seq<nat>)
    requires Reached(g) && Of(g, me) == Consumer(messages, Ready)
    ensures BatchGoing(g, g, me, messages, 0, {}, {})
  {
    ReachedIsOk(g);
    assert me in g.consumers ==> ConsumerOk(g, g.consumers[me]);
  }

  lemma OneMoreMessage(start: Group, before: Group, g: Group, me: nat, messages: seq<nat>, i: nat, left: set<nat>, blind: set<nat>,
                       o: Outcome, unseen: bool, past: seq<Deed>, done: seq<Deed>, deeds: seq<Deed>)
    requires BatchGoing(start, before, me, messages, i, left, blind) && i < |messages| && Reached(g)
    requires Busy(before, me) && WorkedOff(before, g, me, o) && (o.LeftPending? ==> RetryDue(before, g, Head(before, me), unseen))
    requires BatchDeeds(done, start, messages, i, left) && DeedsFor(deeds, Head(before, me), KindOf(before, Head(before, me)), o)
    ensures past + done + deeds == past + (done + deeds) && KindOf(start, messages[i]) == KindOf(before, Head(before, me))
    ensures var left' := if o.LeftPending? then left + {messages[i]} else left;
      && BatchDeeds(done + deeds, start, messages, i + 1, left') && Excused(done + deeds, start, messages, o.Threw?, i + 1)
      && (o.Threw? ==> BatchDone(start, g, me, messages, true, i + 1, left, blind))
      && (!o.Threw? ==> BatchGoing(start, g, me, messages, i + 1, left',
                                   if o.LeftPending? && unseen then blind + {messages[i]} else blind))
  {
    QueueFacts(start);
    assert messages[i..][0] == messages[i] && messages[i] in messages;
    KindStays(start, before, messages[i]);
    Joined(past, done, deeds);
    OneMoreDeed(done, deeds, start, messages, i, left, o);
    OneMoreWorkedOff(start, before, g, me, messages, i, left, blind, o, unseen);
  }

  lemma OneMoreWorkedOff(start: Group, before: Group, g: Group, me: nat, messages: seq<nat>, i: nat, left: set<nat>, blind: set<nat>,
                         o: Outcome, unseen: bool)
    requires BatchGoing(start, before, me, messages, i, left, blind) && i < |messages| && Reached(g)
    requires Busy(before, me) && WorkedOff(before, g, me, o) && (o.LeftPending? ==> RetryDue(before, g, messages[i], unseen))
    ensures o.Threw? ==> BatchDone(start, g, me, messages, true, i + 1, left, blind)
    ensures !o.Threw? ==> var left' := if o.LeftPending? then left + {messages[i]} else left;
      BatchGoing(start, g, me, messages, i + 1, left', if o.LeftPending? && unseen then blind + {messages[i]} else blind)
  {
    assert messages[i..][0] == messages[i] && messages[i..][1..] == messages[i + 1..];
    assert SeqSet(messages[..i + 1]) == SeqSet(messages[..i]) + {messages[i]};
    RetriesStayDue(start, before, g, left, blind);
    if o.Threw? {
      BatchAborts(start, before, g, me, messages, i, left, blind);
    } else {
      BatchGoesOn(start, before, g, me, messages, i, left, blind, o, unseen);
    }
  }

  lemma BatchAborts(start: Group, before: Group, g: Group, me: nat, messages: seq<nat>, i: nat, left: set<nat>, blind: set<nat>)
    requires BatchGoing(start, before, me, messages, i, left, blind) && i < |messages| && Reached(g) && Busy(before, me)
    requires SeqSet(messages[..i + 1]) == SeqSet(messages[..i]) + {messages[i]} && Head(before, me) == messages[i]
    requires WorkedOff(before, g, me, Threw) && forall id :: id in left ==> RetryDue(start, g, id, id in blind)
    ensures BatchDone(start, g, me, messages, true, i + 1, left, blind)
  {
    QueueFacts(g);
  }

  lemma BatchEnds(start: Group, g: Group, me: nat, messages: seq<nat>, left: set<nat>, blind: set<nat>)
    requires BatchGoing(start, g, me, messages, |messages|, left, blind)
    ensures BatchDone(start, g, me, messages, false, |messages|, left, blind)
  {
    QueueFacts(g);
    assert messages[..|messages|] == messages && messages[|messages|..] == [];
  }

  lemma BatchGoesOn(start: Group, before: Group, g: Group, me: nat, messages: seq<nat>, i: nat, left: set<nat>, blind: set<nat>,
                    o: Outcome, unseen: bool)
    requires BatchGoing(start, before, me, messages, i, left, blind) && i < |messages| && Reached(g) && Busy(before, me)
    requires SeqSet(messages[..i + 1]) == SeqSet(messages[..i]) + {messages[i]}
    requires Head(before, me) == messages[i] && Of(before, me).inbox[1..] == messages[i + 1..]
    requires WorkedOff(before, g, me, o) && !o.Threw? && (o.LeftPending? ==> RetryDue(before, g, messages[i], unseen))
    requires forall id :: id in left ==> RetryDue(start, g, id, id in blind)
    ensures var left' := if o.LeftPending? then left + {messages[i]} else left;
      BatchGoing(start, g, me, messages, i + 1, left', if o.LeftPending? && unseen then blind + {messages[i]} else blind)
  {
    assert messages[i] in messages;
    if o.LeftPending? {
      NewRetryIsDue(start, before, g, messages[i], unseen);
    }
  }

  lemma RetriesStayDue(start: Group, before: Group, g: Group, left: set<nat>, blind: set<nat>)
    requires Reached(before) && Reached(g) && Grows(start, before) && Grows(before, g)
    requires forall id :: id in left ==> RetryDue(start, before, id, id in blind) && id < before.next
    ensures forall id :: id in left ==> RetryDue(start, g, id, id in blind)
  {
    forall id | id in left ensures RetryDue(start, g, id, id in blind) {
      KindStays(before, g, id);
      if id in g.pel {
        PendingBefore(before, g, id);
      }
    }
  }

  lemma NewRetryIsDue(start: Group, before: Group, g: Group, id: nat, unseen: bool)
    requires Reached(start) && Reached(before) && Reached(g) && Grows(start, before) && Grows(before, g) && id < start.next
    requires RetryDue(before, g, id, unseen)
    ensures RetryDue(start, g, id, unseen)
  {
    if id in g.pel {
      PendingBefore(before, g, id);
      PendingBefore(start, before, id);
    }
  }

  /** `RedisStreamsEventBus.processMessage` and the acknowledgement that follows it. */
  method ProcessBus(sh: SharedGroup, me: nat, json: string -> Json)
    returns (o: Outcome, ghost blind: bool, ghost deeds: seq<Deed>)
    requires sh.Valid() && !sh.g.strict && Busy(sh.g, me) && Of(sh.g, me).stage.Ready?
    requires forall fields :: sh.classify(fields) == BusKind(fields, json)
    modifies sh
    ensures sh.Valid() && WorkedOff(old(sh.g), sh.g, me, o)
    ensures Took(sh.wire, old(sh.clock), sh.clock, o.Threw? && !KindOf(old(sh.g), Head(old(sh.g), me)).NullMsg?)
    ensures sh.Deeds(me) == old(sh.Deeds(me)) + deeds
    ensures DeedsFor(deeds, Head(old(sh.g), me), KindOf(old(sh.g), Head(old(sh.g), me)), o)
    ensures o.LeftPending? ==> RetryDue(old(sh.g), sh.g, Head(old(sh.g), me), blind)
  {
    HeadIsEntry(sh.g, me);
    var id := Head(sh.g, me);
    var fields := sh.raw(id);
    var payloadIndex := IndexOf(fields, PAYLOAD);
    blind := false;
    if |fields| <= payloadIndex + 1 || json(fields[payloadIndex + 1]).Invalid? {
      // The sentinel, a malformed entry or invalid JSON: nothing to deliver.
      o := InspectAndAck(sh, me);
      deeds := Silence(o);
      return;
    }
    if json(fields[payloadIndex + 1]).Null? {
      // The type of the event is read before any error handling.
      AbortEffect(sh.g, me);
      sh.Take(Abort(me));
      return Threw, blind, [Dropped];
    }
    ghost var count, delivered;
    o, count, blind, delivered, deeds := DeliverBus(sh, me);
  }

  /** A readable event: run the handlers; when they fail, read the delivery count and leave or dead-letter the entry. */
  method DeliverBus(sh: SharedGroup, me: nat)
    returns (o: Outcome, ghost count: nat, ghost blind: bool, ghost delivered: bool, ghost deeds: seq<Deed>)
    requires sh.Valid() && !sh.g.strict && Busy(sh.g, me) && Of(sh.g, me).stage.Ready?
    requires KindOf(sh.g, Head(sh.g, me)).EventMsg?
    modifies sh
    ensures sh.Valid() && WorkedOff(old(sh.g), sh.g, me, o)
    ensures Took(sh.wire, old(sh.clock), sh.clock, o.Threw?)
    ensures sh.Deeds(me) == old(sh.Deeds(me)) + deeds && DeedsFor(deeds, Head(old(sh.g), me), EventMsg, o)
    ensures var id := Head(old(sh.g), me);
      && (delivered ==> id in sh.g.handled && !o.LeftPending?)
      && (!delivered && blind ==> count == 1)
      && (!delivered && !blind && id in sh.g.pel ==>
            id in old(sh.g).pel && old(sh.g).pel[id].deliveries <= count <= sh.g.pel[id].deliveries)
      && (!delivered && count < sh.g.maxRetries ==> o.LeftPending?)
      && (!delivered && sh.g.maxRetries <= count ==> !o.LeftPending? && (o.Acknowledged? ==> id in sh.g.dlq))
  {
    HeadIsEntry(sh.g, me);
    ghost var id := Head(sh.g, me);
    sh.Others(me);
    KindStays(old(sh.g), sh.g, id);
    var verdict := sh.wire(sh.clock).verdict;
    var ok := verdict.Succeeded?;
    count, blind, delivered := 1, false, ok;
    ghost var before := sh.g;
    DispatchEffect(before, me, verdict);
    sh.Take(Handle(me, verdict));
    MeanwhileTwice(old(sh.g), before, sh.g, me);
    before := sh.g;
    if ok {
      o := AckHead(sh, me);
    } else {
      o, count, blind := CountAndDecide(sh, me);
    }
    deeds := [Ran(id, verdict)] + Silence(o);
    AfterRun(old(sh.Deeds(me)), id, verdict, Silence(o), o);
    WorkedOffLater(old(sh.g), before, sh.g, me, o);
    if !ok && !blind && id in sh.g.pel {
      PendingBefore(old(sh.g), before, id);
    }
  }

  lemma DispatchEffect(g: Group, me: nat, verdict: Verdict)
    requires Reached(g) && !g.strict && Enabled(g, Handle(me, verdict))
    ensures var g' := Next(g, Handle(me, verdict));
            && Meanwhile(g, g', me) && KindOf(g', Head(g, me)).EventMsg?
            && (if verdict.Succeeded? then Of(g', me).stage.ToAck? && Head(g, me) in g'.handled else Of(g', me).stage.HandlerFailed?)
  {
    OwnStepsStay(g, Handle(me, verdict), me);
  }

  /** After failed handlers: the delivery count decides. */
  method CountAndDecide(sh: SharedGroup, me: nat) returns (o: Outcome, ghost count: nat, ghost blind: bool)
    requires sh.Valid() && !sh.g.strict && Busy(sh.g, me) && Of(sh.g, me).stage.HandlerFailed?
    requires KindOf(sh.g, Head(sh.g, me)).EventMsg?
    modifies sh
    ensures sh.Valid() && WorkedOff(old(sh.g), sh.g, me, o)
    ensures Took(sh.wire, old(sh.clock), sh.clock, o.Threw?)
    ensures sh.Deeds(me) == old(sh.Deeds(me)) + Silence(o)
    ensures var id := Head(old(sh.g), me);
      && (blind ==> count == 1)
      && (!blind && id in sh.g.pel ==> id in old(sh.g).pel && old(sh.g).pel[id].deliveries <= count <= sh.g.pel[id].deliveries)
      && (count < sh.g.maxRetries ==> o.LeftPending?)
      && (sh.g.maxRetries <= count ==> !o.LeftPending? && (o.Acknowledged? ==> id in sh.g.dlq))
  {
    HeadIsEntry(sh.g, me);
    var id := Head(sh.g, me);
    sh.Others(me);
    KindStays(old(sh.g), sh.g, id);
    var lookupFailed := sh.wire(sh.clock).lookupFailed;
    var deliveryCount := Deliveries(sh.g, id, lookupFailed);
    count, blind := deliveryCount, lookupFailed;
    ghost var looked := sh.g;
    CountEffect(looked, me, lookupFailed);
    sh.Take(CountAfter(me, lookupFailed));
    o := LeftPending;
    if sh.g.maxRetries <= deliveryCount {
      ghost var before, stored := sh.g, false;
      o, stored := SendToDlqAndAck(sh, me);
      WorkedOffLater(looked, before, sh.g, me, o);
    }
    WorkedOffLater(old(sh.g), looked, sh.g, me, o);
    if id in sh.g.pel {
      PendingBefore(looked, sh.g, id);
      PendingBefore(old(sh.g), looked, id);
    }
  }

  lemma CountEffect(g: Group, me: nat, lookupFailed: bool)
    requires Reached(g) && Enabled(g, CountAfter(me, lookupFailed)) && KindOf(g, Head(g, me)).EventMsg?
    ensures var g' := Next(g, CountAfter(me, lookupFailed));
            && Grows(g, g')
            && (if g.maxRetries <= Deliveries(g, Head(g, me), lookupFailed) then Meanwhile(g, g', me) && Of(g', me).stage.ToDlq?
                else WorkedOff(g, g', me, LeftPending))
  {
    ReachedIsOk(g);
    StepKeeps(g, CountAfter(me, lookupFailed));
    HeadIsEntry(g, me);
  }

  /** `RedisStreamsEventBus.processMessages`. */
  method ProcessMessagesBus(sh: SharedGroup, me: nat, messages: seq<nat>, json: string -> Json)
    returns (threw: bool, left: set<nat>, ghost worked: nat, ghost blind: set<nat>, ghost deeds: seq<Deed>)
    requires sh.Valid() && !sh.g.strict && Of(sh.g, me) == Consumer(messages, Ready)
    requires forall fields :: sh.classify(fields) == BusKind(fields, json)
    modifies sh
    ensures sh.Valid() && BatchDone(old(sh.g), sh.g, me, messages, threw, worked, left, blind)
    ensures Took(sh.wire, old(sh.clock), sh.clock, threw && !KindOf(old(sh.g), messages[worked - 1]).NullMsg?)
    ensures sh.Deeds(me) == old(sh.Deeds(me)) + deeds && BatchDeeds(deeds, old(sh.g), messages, worked, left)
    ensures Excused(deeds, old(sh.g), messages, threw, worked)
  {
    threw, left, worked, blind, deeds := false, {}, 0, {}, [];
    BatchBegins(sh.g, me, messages);
    var i := 0;
    while i < |messages|
      invariant sh.Valid() && BatchGoing(old(sh.g), sh.g, me, messages, i, left, blind)
      invariant sh.Deeds(me) == old(sh.Deeds(me)) + deeds && BatchDeeds(deeds, old(sh.g), messages, i, left)
      invariant worked == i && Took(sh.wire, old(sh.clock), sh.clock, false)
    {
      ghost var before, clock := sh.g, sh.clock;
      var o;
      ghost var unseen, mine;
      o, unseen, mine := ProcessBus(sh, me, json);
      OneMoreMessage(old(sh.g), before, sh.g, me, messages, i, left, blind, o, unseen, old(sh.Deeds(me)), deeds, mine);
      TookBoth(sh.wire, old(sh.clock), clock, sh.clock, false, o.Threw? && !KindOf(before, Head(before, me)).NullMsg?);
      deeds := deeds + mine;
      i, worked := i + 1, i + 1;
      if o.Threw? {
        return true, left, worked, blind, deeds;
      }
      if o.LeftPending? {
        left := left + {messages[i - 1]};
        blind := if unseen then blind + {messages[i - 1]} else blind;
      }
    }
    BatchEnds(old(sh.g), sh.g, me, messages, left, blind);
  }

  /** What XAUTOCLAIM may return from a cursor on: some entries in order, and a next cursor that is past them or back at the start. */
  predicate FromCursor(start: nat, batchSize: nat, next: nat, ids: seq<nat>) {
    && |ids| <= batchSize
    && (forall i :: 0 <= i < |ids| ==> start <= ids[i] && (next == 0 || ids[i] < next))
    && (forall i, j :: 0 <= i < j < |ids| ==> ids[i] < ids[j])
  }

  /** A command whose reply did not arrive, whether or not it took effect. */
  predicate Unread(deeds: seq<Deed>, isNew: bool) {
    deeds == [Dropped] || (|deeds| == 2 && deeds[0].Received? && deeds[0].isNew == isNew && deeds[1] == Dropped)
  }

  /** XAUTOCLAIM from a cursor: some pending entries, now owned by `me`, and the next cursor. When the reply is lost, the
   *  entries may have changed hands all the same. */
  method XAutoClaim(sh: SharedGroup, me: nat, start: nat, batchSize: nat)
    returns (replied: bool, next: nat, messages: seq<nat>, ghost deeds: seq<Deed>)
    requires sh.Valid() && !Busy(sh.g, me)
    modifies sh
    ensures sh.Valid() && Grows(old(sh.g), sh.g) && sh.g.strict == old(sh.g).strict
    ensures Of(sh.g, me) == Consumer(messages, Ready) && (!replied ==> messages == [])
    ensures FromCursor(start, batchSize, next, messages)
    ensures forall id :: id in messages ==>
      id in old(sh.g).pel && id in sh.g.pel && sh.g.pel[id] == Pending(me, old(sh.g).pel[id].deliveries + 1)
    ensures AckedBy(sh.g, me) == AckedBy(old(sh.g), me)
    ensures Took(sh.wire, old(sh.clock), sh.clock, !replied)
    ensures sh.Deeds(me) == old(sh.Deeds(me)) + deeds
    ensures if replied then deeds == [Received(false, messages)] else Unread(deeds, false)
  {
    var fate := sh.wire(sh.clock);
    if !fate.applied {
      LoseReply(sh, me);
      return false, 0, [], [Dropped];
    }
    next, messages := ClaimSome(sh, me, start, batchSize);
    replied, deeds := fate.replied, [Received(false, messages)];
    if !replied {
      LoseReply(sh, me);
      messages, deeds := [], deeds + [Dropped];
    }
  }

  method ClaimSome(sh: SharedGroup, me: nat, start: nat, batchSize: nat) returns (next: nat, ids: seq<nat>)
    requires sh.Valid() && !Busy(sh.g, me)
    modifies sh
    ensures sh.Valid() && Grows(old(sh.g), sh.g) && sh.g.strict == old(sh.g).strict && Of(sh.g, me) == Consumer(ids, Ready)
    ensures FromCursor(start, batchSize, next, ids)
    ensures forall id :: id in ids ==>
      id in old(sh.g).pel && id in sh.g.pel && sh.g.pel[id] == Pending(me, old(sh.g).pel[id].deliveries + 1)
    ensures AckedBy(sh.g, me) == AckedBy(old(sh.g), me)
    ensures sh.Deeds(me) == old(sh.Deeds(me)) + [Received(false, ids)] && sh.clock == old(sh.clock) + 1
  {
    next, ids := SomePending(sh.g, me, start, batchSize);
    ReclaimEffect(sh.g, me, ids);
    sh.Take(Reclaim(me, ids));
  }

  /** No answer arrives: what the command may have delivered stays with `me`, unread. */
  method LoseReply(sh: SharedGroup, me: nat)
    requires sh.Valid()
    modifies sh
    ensures sh.Valid() && Grows(old(sh.g), sh.g) && Of(sh.g, me) == Consumer([], Ready)
    ensures sh.g == old(sh.g).(consumers := sh.g.consumers) && sh.clock == old(sh.clock) + 1
    ensures sh.Deeds(me) == old(sh.Deeds(me)) + [Dropped] && AckedBy(sh.g, me) == AckedBy(old(sh.g), me)
  {
    AbortEffect(sh.g, me);
    sh.Take(Abort(me));
  }

  /** Whatever entries Redis finds idle. */
  method SomePending(g: Group, me: nat, start: nat, batchSize: nat) returns (next: nat, ids: seq<nat>)
    requires !Busy(g, me)
    ensures Enabled(g, Reclaim(me, ids)) && FromCursor(start, batchSize, next, ids)
  {
    var idle: seq<nat>, cursor: nat := *, *;
    next, ids := 0, [];
    if Enabled(g, Reclaim(me, idle)) && FromCursor(start, batchSize, cursor, idle) {
      next, ids := cursor, idle;
    }
  }

  lemma ReclaimEffect(g: Group, me: nat, ids: seq<nat>)
    requires Reached(g) && Enabled(g, Reclaim(me, ids))
    ensures var g' := Next(g, Reclaim(me, ids));
            && g'.strict == g.strict && Of(g', me) == Consumer(ids, Ready) && AckedBy(g', me) == AckedBy(g, me)
            && forall id :: id in ids ==> id in g.pel && id in g'.pel && g'.pel[id] == Pending(me, g.pel[id].deliveries + 1)
  {
    ReachedIsOk(g);
  }

  lemma ReadEffect(g: Group, me: nat, count: nat)
    requires Reached(g) && Enabled(g, Read(me, count))
    ensures var g' := Next(g, Read(me, count));
            && g'.strict == g.strict && g'.kinds == g.kinds
            && Of(g', me) == Consumer(Range(g.next, count), Ready) && AckedBy(g', me) == AckedBy(g, me)
  {
    ReachedIsOk(g);
  }

  lemma AbortEffect(g: Group, me: nat)
    ensures var g' := Next(g, Abort(me));
            g' == g.(consumers := g'.consumers) && Of(g', me) == Consumer([], Ready) && AckedBy(g', me) == AckedBy(g, me)
  {
  }

  /** The entries next in line, just delivered: as many as there are, up to the batch size. */
  predicate NextInLine(ids: seq<nat>, g: Group, batchSize: nat) {
    && |ids| <= batchSize && |ids| <= g.next && ids == Range(g.next - |ids|, |ids|)
    && (|ids| < batchSize ==> g.next == |g.kinds|)
  }

  /** XREADGROUP: the next undelivered entries, up to `batchSize`, or nothing when the command does not reach Redis. When only
   *  the reply is lost they are delivered all the same. */
  method XReadGroup(sh: SharedGroup, me: nat, batchSize: nat) returns (replied: bool, messages: seq<nat>, ghost deeds: seq<Deed>)
    requires sh.Valid() && !Busy(sh.g, me)
    modifies sh
    ensures sh.Valid() && Grows(old(sh.g), sh.g) && sh.g.strict == old(sh.g).strict
    ensures Of(sh.g, me) == Consumer(messages, Ready) && (!replied ==> messages == [])
    ensures replied ==> sh.g.next == old(sh.g).next + |messages| && NextInLine(messages, sh.g, batchSize)
    ensures AckedBy(sh.g, me) == AckedBy(old(sh.g), me)
    ensures Took(sh.wire, old(sh.clock), sh.clock, !replied)
    ensures sh.Deeds(me) == old(sh.Deeds(me)) + deeds
    ensures if replied then deeds == [Received(true, messages)] else Unread(deeds, true)
  {
    var fate := sh.wire(sh.clock);
    if !fate.applied {
      LoseReply(sh, me);
      return false, [], [Dropped];
    }
    QueueFacts(sh.g);
    var count: nat := if |sh.g.kinds| - sh.g.next < batchSize then |sh.g.kinds| - sh.g.next else batchSize;
    replied, messages := fate.replied, Range(sh.g.next, count);
    deeds := [Received(true, messages)];
    ReadEffect(sh.g, me, count);
    sh.Take(Read(me, count));
    if !replied {
      LoseReply(sh, me);
      messages, deeds := [], deeds + [Dropped];
    }
  }

  /** A batch and what became of it, from its arrival to the end of its work. */
  datatype Batch = Batch(ids: seq<nat>, before: Group, after: Group, threw: bool, worked: nat, left: set<nat>, blind: set<nat>, deeds: seq<Deed>)

  /** Did the work end at a JSON null? */
  predicate AtNull(b: Batch) {
    b.threw && 0 < b.worked <= |b.ids| && KindOf(b.before, b.ids[b.worked - 1]).NullMsg?
  }

  /** A batch that did not arrive, or not all of which was worked off for want of an answer. */
  predicate Failed(b: Option<Batch>) {
    b.None? || (b.value.threw && !AtNull(b.value))
  }

  ghost predicate Worked(b: Batch, me: nat) {
    && BatchDone(b.before, b.after, me, b.ids, b.threw, b.worked, b.left, b.blind)
    && BatchDeeds(b.deeds, b.before, b.ids, b.worked, b.left)
    && Excused(b.deeds, b.before, b.ids, b.threw, b.worked)
  }

  /** One command of a round: its reply did not arrive, or its batch was worked off between `from` and `to`. */
  ghost predicate RoundDone(b: Option<Batch>, isNew: bool, deeds: seq<Deed>, me: nat, from: Group, to: Group) {
    match b
    case None => Unread(deeds, isNew)
    case Some(batch) =>
      && Worked(batch, me) && deeds == [Received(isNew, batch.ids)] + batch.deeds
      && Grows(from, batch.before) && Grows(batch.after, to)
  }

  /** One round of `RedisStreamConsumer.readLoop`: reclaim once and work that off, then read new messages and work them off.
   *  Exceptions while reclaiming are swallowed, so the read is tried in every round. */
  method PollStrict(sh: SharedGroup, me: nat, batchSize: nat, accepts: string -> bool)
    returns (threw: bool, ghost claimed: Option<Batch>, ghost read: Option<Batch>, ghost first: seq<Deed>, ghost second: seq<Deed>)
    requires sh.Valid() && sh.g.strict && Of(sh.g, me) == Consumer([], Ready)
    requires forall fields :: sh.classify(fields) == StrictKind(fields, accepts)
    modifies sh
    ensures sh.Valid() && Grows(old(sh.g), sh.g) && Of(sh.g, me) == Consumer([], Ready)
    ensures Took(sh.wire, old(sh.clock), sh.clock, Failed(claimed) || Failed(read))
    ensures sh.Deeds(me) == old(sh.Deeds(me)) + first + second
    ensures RoundDone(claimed, false, first, me, old(sh.g), sh.g) && RoundDone(read, true, second, me, old(sh.g), sh.g)
    ensures read.Some? ==> NextInLine(read.value.ids, read.value.before, batchSize)
    ensures threw == (read.None? || read.value.threw)
  {
    claimed, first := ReclaimStrict(sh, me, batchSize, accepts);
    ghost var between := sh.g;
    threw, read, second := ReadStrict(sh, me, batchSize, accepts);
    RoundLater(claimed, false, first, me, old(sh.g), between, sh.g);
    RoundEarlier(read, true, second, me, old(sh.g), between, sh.g);
  }

  lemma WorkedInRound(b: Batch, isNew: bool, received: seq<Deed>, me: nat, from: Group, to: Group, past: seq<Deed>)
    requires Worked(b, me) && received == [Received(isNew, b.ids)] && Grows(from, b.before) && b.after == to
    ensures RoundDone(Some(b), isNew, received + b.deeds, me, from, to)
    ensures past + received + b.deeds == past + (received + b.deeds)
  {
  }

  lemma RoundLater(b: Option<Batch>, isNew: bool, deeds: seq<Deed>, me: nat, from: Group, between: Group, to: Group)
    requires RoundDone(b, isNew, deeds, me, from, between) && Grows(between, to)
    ensures RoundDone(b, isNew, deeds, me, from, to)
  {
  }

  lemma RoundEarlier(b: Option<Batch>, isNew: bool, deeds: seq<Deed>, me: nat, from: Group, between: Group, to: Group)
    requires RoundDone(b, isNew, deeds, me, between, to) && Grows(from, between)
    ensures RoundDone(b, isNew, deeds, me, from, to)
  {
  }

  /** `RedisStreamConsumer.reclaimPending`, which swallows every exception. */
  method ReclaimStrict(sh: SharedGroup, me: nat, batchSize: nat, accepts: string -> bool)
    returns (ghost claimed: Option<Batch>, ghost deeds: seq<Deed>)
    requires sh.Valid() && sh.g.strict && Of(sh.g, me) == Consumer([], Ready)
    requires forall fields :: sh.classify(fields) == StrictKind(fields, accepts)
    modifies sh
    ensures sh.Valid() && sh.g.strict && Grows(old(sh.g), sh.g) && Of(sh.g, me) == Consumer([], Ready)
    ensures Took(sh.wire, old(sh.clock), sh.clock, Failed(claimed))
    ensures sh.Deeds(me) == old(sh.Deeds(me)) + deeds
    ensures RoundDone(claimed, false, deeds, me, old(sh.g), sh.g)
  {
    sh.Others(me);
    var replied, _, messages, received := XAutoClaim(sh, me, 0, batchSize);
    if !replied {
      return None, received;
    }
    ghost var batch;
    var swallowed;
    swallowed, batch := WorkOffStrict(sh, me, messages, accepts);
    claimed, deeds := Some(batch), received + batch.deeds;
    WorkedInRound(batch, false, received, me, old(sh.g), sh.g, old(sh.Deeds(me)));
  }

  method ReadStrict(sh: SharedGroup, me: nat, batchSize: nat, accepts: string -> bool)
    returns (threw: bool, ghost read: Option<Batch>, ghost deeds: seq<Deed>)
    requires sh.Valid() && sh.g.strict && Of(sh.g, me) == Consumer([], Ready)
    requires forall fields :: sh.classify(fields) == StrictKind(fields, accepts)
    modifies sh
    ensures sh.Valid() && Grows(old(sh.g), sh.g) && Of(sh.g, me) == Consumer([], Ready)
    ensures Took(sh.wire, old(sh.clock), sh.clock, Failed(read))
    ensures sh.Deeds(me) == old(sh.Deeds(me)) + deeds
    ensures RoundDone(read, true, deeds, me, old(sh.g), sh.g)
    ensures read.Some? ==> NextInLine(read.value.ids, read.value.before, batchSize)
    ensures threw == (read.None? || read.value.threw)
  {
    sh.Others(me);
    var replied, messages, received := XReadGroup(sh, me, batchSize);
    if !replied {
      return true, None, received;
    }
    ghost var batch;
    threw, batch := WorkOffStrict(sh, me, messages, accepts);
    read, deeds := Some(batch), received + batch.deeds;
    WorkedInRound(batch, true, received, me, old(sh.g), sh.g, old(sh.Deeds(me)));
  }

  method WorkOffStrict(sh: SharedGroup, me: nat, messages: seq<nat>, accepts: string -> bool) returns (threw: bool, ghost batch: Batch)
    requires sh.Valid() && sh.g.strict && Of(sh.g, me) == Consumer(messages, Ready)
    requires forall fields :: sh.classify(fields) == StrictKind(fields, accepts)
    modifies sh
    ensures sh.Valid() && sh.g.strict && Grows(old(sh.g), sh.g) && Of(sh.g, me) == Consumer([], Ready)
    ensures Worked(batch, me) && batch.ids == messages && batch.before == old(sh.g) && batch.after == sh.g && batch.threw == threw
    ensures Took(sh.wire, old(sh.clock), sh.clock, Failed(Some(batch)))
    ensures sh.Deeds(me) == old(sh.Deeds(me)) + batch.deeds
  {
    var left;
    ghost var worked, blind, deeds;
    threw, left, worked, blind, deeds := ProcessMessagesStrict(sh, me, messages, accepts);
    batch := Batch(messages, old(sh.g), sh.g, threw, worked, left, blind, deeds);
  }

  method WorkOffBus(sh: SharedGroup, me: nat, messages: seq<nat>, json: string -> Json) returns (threw: bool, ghost batch: Batch)
    requires sh.Valid() && !sh.g.strict && Of(sh.g, me) == Consumer(messages, Ready)
    requires forall fields :: sh.classify(fields) == BusKind(fields, json)
    modifies sh
    ensures sh.Valid() && !sh.g.strict && Grows(old(sh.g), sh.g) && Of(sh.g, me) == Consumer([], Ready)
    ensures Worked(batch, me) && batch.ids == messages && batch.before == old(sh.g) && batch.after == sh.g && batch.threw == threw
    ensures Took(sh.wire, old(sh.clock), sh.clock, Failed(Some(batch)))
    ensures sh.Deeds(me) == old(sh.Deeds(me)) + batch.deeds
  {
    var left;
    ghost var worked, blind, deeds;
    threw, left, worked, blind, deeds := ProcessMessagesBus(sh, me, messages, json);
    batch := Batch(messages, old(sh.g), sh.g, threw, worked, left, blind, deeds);
  }

  /** The claims of a recovery so far: the cursor each starts from, the one it returns, and its batch. */
  datatype Recovery = Begun | Claimed(earlier: Recovery, start: nat, next: nat, batch: Batch)

  function NextStart(r: Recovery): nat {
    if r.Begun? then 0 else r.next
  }

  predicate GoesOn(r: Recovery) {
    r.Begun? || (r.batch.ids != [] && !r.batch.threw && r.next != r.start)
  }

  function Rounds(r: Recovery): nat {
    if r.Begun? then 0 else Rounds(r.earlier) + 1
  }

  function RecoveryDeeds(r: Recovery): seq<Deed> {
    if r.Begun? then [] else RecoveryDeeds(r.earlier) + [Received(false, r.batch.ids)] + r.batch.deeds
  }

  ghost predicate ClaimDone(b: Batch, start: nat, next: nat, me: nat, batchSize: nat, from: Group, to: Group) {
    Worked(b, me) && Grows(from, b.before) && Grows(b.after, to) && FromCursor(start, batchSize, next, b.ids)
  }

  /** The claims follow the cursor from the start, each worked off before the next; only the last one may end the recovery. */
  ghost predicate Recovered(r: Recovery, me: nat, batchSize: nat, from: Group, to: Group) {
    r.Claimed? ==>
      && Recovered(r.earlier, me, batchSize, from, to) && GoesOn(r.earlier)
      && r.start == NextStart(r.earlier) && ClaimDone(r.batch, r.start, r.next, me, batchSize, from, to)
  }

  lemma {:induction false} RecoveredLater(r: Recovery, me: nat, batchSize: nat, from: Group, mid: Group, to: Group)
    requires Recovered(r, me, batchSize, from, mid) && Grows(mid, to)
    ensures Recovered(r, me, batchSize, from, to)
  {
    if r.Claimed? {
      RecoveredLater(r.earlier, me, batchSize, from, mid, to);
    }
  }

  lemma RecoveryGrows(r: Recovery, next: nat, b: Batch, me: nat, batchSize: nat, from: Group, mid: Group, to: Group, past: seq<Deed>)
    requires Recovered(r, me, batchSize, from, mid) && GoesOn(r) && Grows(from, mid)
    requires Worked(b, me) && Grows(mid, b.before) && b.after == to && FromCursor(NextStart(r), batchSize, next, b.ids)
    ensures var r' := Claimed(r, NextStart(r), next, b);
            && Recovered(r', me, batchSize, from, to)
            && past + RecoveryDeeds(r) + [Received(false, b.ids)] + b.deeds == past + RecoveryDeeds(r')
  {
    assert Grows(mid, to);
    RecoveredLater(r, me, batchSize, from, mid, to);
    Joined(past, RecoveryDeeds(r), [Received(false, b.ids)]);
    Joined(past, RecoveryDeeds(r) + [Received(false, b.ids)], b.deeds);
  }

  /** One round of the recovery `r`, which began in `from` with the deeds `past`. */
  method RecoverOnce(sh: SharedGroup, me: nat, batchSize: nat, start: nat, json: string -> Json,
                     ghost r: Recovery, ghost from: Group, ghost past: seq<Deed>)
    returns (replied: bool, threw: bool, next: nat, messages: seq<nat>, ghost r': Recovery, ghost unread: seq<Deed>)
    requires sh.Valid() && !sh.g.strict && Of(sh.g, me) == Consumer([], Ready) && Grows(from, sh.g)
    requires forall fields :: sh.classify(fields) == BusKind(fields, json)
    requires Recovered(r, me, batchSize, from, sh.g) && GoesOn(r) && start == NextStart(r)
    requires sh.Deeds(me) == past + RecoveryDeeds(r) + []
    modifies sh
    ensures sh.Valid() && !sh.g.strict && Grows(old(sh.g), sh.g) && Of(sh.g, me) == Consumer([], Ready)
    ensures Recovered(r', me, batchSize, from, sh.g)
    ensures Took(sh.wire, old(sh.clock), sh.clock, !replied || (r'.Claimed? && Failed(Some(r'.batch))))
    ensures sh.Deeds(me) == past + RecoveryDeeds(r') + unread
    ensures if replied then r'.Claimed? && Rounds(r') == Rounds(r) + 1 && unread == [] else r' == r && Unread(unread, false)
    ensures replied ==> NextStart(r') == next && r'.batch.threw == threw
    ensures replied ==> (GoesOn(r') <==> !threw && messages != [] && next != start)
  {
    NothingMore(past + RecoveryDeeds(r));
    sh.Others(me);
    ghost var received;
    replied, next, messages, received := XAutoClaim(sh, me, start, batchSize);
    threw, unread, r' := false, received, r;
    if !replied {
      RecoveredLater(r, me, batchSize, from, old(sh.g), sh.g);
      return;
    }
    unread := [];
    ghost var batch;
    threw, batch := WorkOffBus(sh, me, messages, json);
    r' := Claimed(r, start, next, batch);
    NothingMore(sh.Deeds(me));
    RecoveryGrows(r, next, batch, me, batchSize, from, old(sh.g), sh.g, past);
  }

  /** `RedisStreamsEventBus.recoverPendingMessages`: follow the cursor until nothing is claimed, the cursor stops or the bus
   *  is stopped; `rounds` is how many rounds it keeps running. Every batch claimed is worked off. */
  method RecoverPendingMessages(sh: SharedGroup, me: nat, batchSize: nat, json: string -> Json, rounds: nat)
    returns (threw: bool, ghost r: Recovery, ghost unread: seq<Deed>)
    requires sh.Valid() && !sh.g.strict && Of(sh.g, me) == Consumer([], Ready)
    requires forall fields :: sh.classify(fields) == BusKind(fields, json)
    modifies sh
    ensures sh.Valid() && !sh.g.strict && Grows(old(sh.g), sh.g) && Of(sh.g, me) == Consumer([], Ready)
    ensures Recovered(r, me, batchSize, old(sh.g), sh.g)
    ensures Took(sh.wire, old(sh.clock), sh.clock, unread != [] || (r.Claimed? && Failed(Some(r.batch))))
    ensures sh.Deeds(me) == old(sh.Deeds(me)) + RecoveryDeeds(r) + unread
    ensures unread == [] || Unread(unread, false)
    ensures threw <==> unread != [] || (r.Claimed? && r.batch.threw)
    ensures !threw ==> r.Claimed? && (GoesOn(r) ==> Rounds(r) == rounds + 1)
  {
    threw, r, unread := false, Begun, [];
    var start, left := 0, rounds;
    while true
      invariant sh.Valid() && !sh.g.strict && Grows(old(sh.g), sh.g) && Of(sh.g, me) == Consumer([], Ready)
      invariant Recovered(r, me, batchSize, old(sh.g), sh.g) && GoesOn(r) && start == NextStart(r)
      invariant sh.Deeds(me) == old(sh.Deeds(me)) + RecoveryDeeds(r) + unread
      invariant unread == [] && Rounds(r) + left == rounds && Took(sh.wire, old(sh.clock), sh.clock, false)
      decreases left
    {
      var replied, next, messages;
      ghost var clock := sh.clock;
      replied, threw, next, messages, r, unread :=
        RecoverOnce(sh, me, batchSize, start, json, r, old(sh.g), old(sh.Deeds(me)));
      TookBoth(sh.wire, old(sh.clock), clock, sh.clock, false, !replied || (r.Claimed? && Failed(Some(r.batch))));
      if !replied {
        return true, r, unread;
      }
      if threw || messages == [] || next == start || left == 0 {
        return;
      }
      start, left := next, left - 1;
    }
  }

  method ReadBus(sh: SharedGroup, me: nat, batchSize: nat, json: string -> Json)
    returns (threw: bool, ghost read: Option<Batch>, ghost deeds: seq<Deed>)
    requires sh.Valid() && !sh.g.strict && Of(sh.g, me) == Consumer([], Ready)
    requires forall fields :: sh.classify(fields) == BusKind(fields, json)
    modifies sh
    ensures sh.Valid() && Grows(old(sh.g), sh.g) && Of(sh.g, me) == Consumer([], Ready)
    ensures Took(sh.wire, old(sh.clock), sh.clock, Failed(read))
    ensures sh.Deeds(me) == old(sh.Deeds(me)) + deeds
    ensures RoundDone(read, true, deeds, me, old(sh.g), sh.g)
    ensures read.Some? ==> NextInLine(read.value.ids, read.value.before, batchSize)
    ensures threw == (read.None? || read.value.threw)
  {
    sh.Others(me);
    var replied, messages, received := XReadGroup(sh, me, batchSize);
    if !replied {
      return true, None, received;
    }
    ghost var batch;
    threw, batch := WorkOffBus(sh, me, messages, json);
    read, deeds := Some(batch), received + batch.deeds;
    WorkedInRound(batch, true, received, me, old(sh.g), sh.g, old(sh.Deeds(me)));
  }

  /** One round of `RedisStreamsEventBus.readLoop`. An exception while recovering skips the read of this round. */
  method PollBus(sh: SharedGroup, me: nat, batchSize: nat, rounds: nat, json: string -> Json)
    returns (recoveryThrew: bool, threw: bool, ghost r: Recovery, ghost read: Option<Batch>, ghost rest: seq<Deed>)
    requires sh.Valid() && !sh.g.strict && Of(sh.g, me) == Consumer([], Ready)
    requires forall fields :: sh.classify(fields) == BusKind(fields, json)
    modifies sh
    ensures sh.Valid() && Grows(old(sh.g), sh.g) && Of(sh.g, me) == Consumer([], Ready)
    ensures Took(sh.wire, old(sh.clock), sh.clock, recoveryThrew && !(r.Claimed? && AtNull(r.batch)))
    ensures !recoveryThrew ==> Took(sh.wire, old(sh.clock), sh.clock, Failed(read))
    ensures sh.Deeds(me) == old(sh.Deeds(me)) + RecoveryDeeds(r) + rest
    ensures Recovered(r, me, batchSize, old(sh.g), sh.g)
    ensures recoveryThrew ==> threw && read.None? && (Unread(rest, false) || (rest == [] && r.Claimed? && r.batch.threw))
    ensures !recoveryThrew ==>
      && r.Claimed? && !r.batch.threw && (GoesOn(r) ==> Rounds(r) == rounds + 1)
      && RoundDone(read, true, rest, me, old(sh.g), sh.g) && (read.Some? ==> NextInLine(read.value.ids, read.value.before, batchSize))
      && threw == (read.None? || read.value.threw)
  {
    recoveryThrew, r, rest := RecoverPendingMessages(sh, me, batchSize, json, rounds);
    threw, read := recoveryThrew, None;
    if !recoveryThrew {
      ghost var mid := sh.g;
      NothingMore(old(sh.Deeds(me)) + RecoveryDeeds(r));
      threw, read, rest := ReadBus(sh, me, batchSize, json);
      RecoveredLater(r, me, batchSize, old(sh.g), mid, sh.g);
      RoundEarlier(read, true, rest, me, old(sh.g), mid, sh.g);
    }
  }
}
