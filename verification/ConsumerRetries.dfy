/** How often a handler can run for one entry: at most `maxRetries` times, plus once per dead-letter write of that entry
 *  without a reply and per acknowledgement of it that had no effect, as long as one consumer reads the group, it does not
 *  crash and its delivery-count lookups succeed. */
module ConsumerRetries {
  import opened Prelude
  import opened ConsumerGroup

  /** The single consumer `c` neither crashes nor fails to look up a delivery count. */
  predicate Smooth(step: GStep, c: nat) {
    match step
    case Add(_) => true
    case Abort(_) => false
    case CountFirst(d, lookupFailed) => d == c && !lookupFailed
    case CountAfter(d, lookupFailed) => d == c && !lookupFailed
    case _ => step.c == c
  }

  predicate RunsHandler(g: Group, step: GStep, id: nat) {
    step.Handle? && Busy(g, step.c) && Head(g, step.c) == id
  }

  predicate IsFault(g: Group, step: GStep, id: nat) {
    ((step.WriteDlq? && !step.replied) || (step.Ack? && !step.applied)) && Busy(g, step.c) && Head(g, step.c) == id
  }

  ghost function HandlerRuns(g: Group, steps: seq<GStep>, id: nat): nat
    decreases |steps|
  {
    if steps == [] || !Enabled(g, steps[0]) then 0
    else (if RunsHandler(g, steps[0], id) then 1 else 0) + HandlerRuns(Next(g, steps[0]), steps[1..], id)
  }

  ghost function Faults(g: Group, steps: seq<GStep>, id: nat): nat
    decreases |steps|
  {
    if steps == [] || !Enabled(g, steps[0]) then 0
    else (if IsFault(g, steps[0], id) then 1 else 0) + Faults(Next(g, steps[0]), steps[1..], id)
  }

  function Min(a: int, b: int): int {
    if a <= b then a else b
  }

  /** Has the handler already run for the first entry of the batch, at its current delivery? */
  predicate HasRun(stage: Stage) {
    stage.HandlerFailed? || stage.ToDlq? || stage.ToAck? || stage.ToAckHandled?
  }

  /** How many runs, not counting faults, entry `id` may have behind it. */
  function Allowance(g: Group, c: nat, id: nat): int {
    var k := Of(g, c);
    if g.next <= id then 0
    else if id !in g.pel then g.maxRetries
    else if id !in k.inbox then Min(g.pel[id].deliveries, g.maxRetries - 1)
    else if id == k.inbox[0] && HasRun(k.stage) then Min(g.pel[id].deliveries - 1, g.maxRetries - 1) + 1
    else Min(g.pel[id].deliveries - 1, g.maxRetries - 1)
  }

  /** Stages in which the first entry may be acknowledged already, by a command whose reply was lost. */
  predicate IsSettling(stage: Stage) {
    stage.ToDlq? || stage.ToAck?
  }

  predicate Solo(g: Group, c: nat) {
    var k := Of(g, c);
    && 1 <= g.maxRetries
    && Inv(g)
    && g.consumers.Keys <= {c}
    && (forall i, j :: 0 <= i < j < |k.inbox| ==> k.inbox[i] != k.inbox[j])
    && (forall i :: 0 <= i < |k.inbox| ==> k.inbox[i] in g.pel || (i == 0 && IsSettling(k.stage)))
    && (k.stage.Counted? || k.stage.ToAckHandled? ==>
          g.strict && k.inbox != [] && k.inbox[0] in g.pel && k.stage.count == g.pel[k.inbox[0]].deliveries)
    && (k.stage.HandlerFailed? ==> !g.strict)
  }

  /** Everything but delivering entries to a consumer. */
  predicate IsWork(step: GStep) {
    !(step.Add? || step.Read? || step.Reclaim?)
  }

  lemma DeliveryKeepsSolo(g: Group, step: GStep, c: nat)
    requires Solo(g, c) && Enabled(g, step) && Smooth(step, c) && !IsWork(step)
    requires Inv(Next(g, step))
    ensures Solo(Next(g, step), c)
  {
    var g' := Next(g, step);
    if step.Read? {
      assert forall i :: 0 <= i < step.count ==> Range(g.next, step.count)[i] == g.next + i;
      assert forall i :: 0 <= i < step.count ==> Of(g', c).inbox[i] in g'.pel;
    } else if step.Reclaim? {
      assert forall i :: 0 <= i < |step.ids| ==> step.ids[i] in g'.pel;
    }
  }

  lemma DeliveryKeepsAllowance(g: Group, step: GStep, c: nat, id: nat)
    requires Solo(g, c) && Enabled(g, step) && Smooth(step, c) && !IsWork(step)
    ensures Allowance(g, c, id) <= Allowance(Next(g, step), c, id)
  {
    if step.Read? {
      assert forall i :: 0 <= i < step.count ==> Range(g.next, step.count)[i] == g.next + i;
      assert g.next <= id < g.next + step.count ==> Range(g.next, step.count)[id - g.next] == id;
    }
  }

  /** What a step may do to the batch of the consumer that takes it, and to the pending list. */
  lemma WorkOnBatch(g: Group, step: GStep, c: nat)
    requires Solo(g, c) && Enabled(g, step) && Smooth(step, c) && IsWork(step)
    ensures var g', k, k' := Next(g, step), Of(g, c), Of(Next(g, step), c);
            && k.inbox != [] && g'.next == g.next && g'.strict == g.strict && g'.maxRetries == g.maxRetries
            && g'.consumers.Keys <= {c}
            && (g'.pel == g.pel || (g'.pel == g.pel - {k.inbox[0]} && (k'.inbox == k.inbox ==> IsSettling(k'.stage))))
            && (k'.inbox == k.inbox && IsSettling(k.stage) ==> IsSettling(k'.stage))
            && ((k' == Consumer(k.inbox, k'.stage) && !k'.stage.Ready?)
                || k' == Consumer(k.inbox[1..], Ready) || k' == Consumer([], Ready))
  {
  }

  lemma WorkOnStage(g: Group, step: GStep, c: nat)
    requires Solo(g, c) && Enabled(g, step) && Smooth(step, c) && IsWork(step)
    ensures var g', k, k' := Next(g, step), Of(g, c), Of(Next(g, step), c);
            && (k'.stage.Counted? || k'.stage.ToAckHandled? ==>
                  g.strict && k'.inbox == k.inbox && g'.pel == g.pel && k'.stage.count == g.pel[k.inbox[0]].deliveries)
            && (k'.stage.HandlerFailed? ==> !g.strict)
  {
  }

  lemma WorkKeepsSolo(g: Group, step: GStep, c: nat)
    requires Solo(g, c) && Enabled(g, step) && Smooth(step, c) && IsWork(step)
    requires Inv(Next(g, step))
    ensures Solo(Next(g, step), c)
  {
    WorkOnBatch(g, step, c);
    WorkOnStage(g, step, c);
    var k, k' := Of(g, c), Of(Next(g, step), c);
    assert forall i :: 0 <= i < |k.inbox[1..]| ==> k.inbox[1..][i] == k.inbox[i + 1];
  }

  lemma WorkKeepsAllowance(g: Group, step: GStep, c: nat, id: nat)
    requires Solo(g, c) && Enabled(g, step) && Smooth(step, c) && IsWork(step)
    ensures Allowance(g, c, id) + (if RunsHandler(g, step, id) then 1 else 0) <=
            Allowance(Next(g, step), c, id) + (if IsFault(g, step, id) then 1 else 0)
  {
    WorkOnBatch(g, step, c);
    if id == Head(g, c) {
      HeadKeepsAllowance(g, step, c);
    } else {
      OthersKeepAllowance(g, Next(g, step), c, id);
    }
  }

  /** Entries behind the first one of the batch, or outside of it, never lose allowance. */
  lemma OthersKeepAllowance(g: Group, g': Group, c: nat, id: nat)
    requires Solo(g, c) && g'.next == g.next && g'.maxRetries == g.maxRetries && Busy(g, c) && id != Head(g, c)
    requires g'.pel == g.pel || g'.pel == g.pel - {Head(g, c)}
    requires var k, k' := Of(g, c), Of(g', c); k'.inbox == k.inbox || k' == Consumer(k.inbox[1..], Ready) || k' == Consumer([], Ready)
    ensures Allowance(g, c, id) <= Allowance(g', c, id)
  {
    var k := Of(g, c);
    assert k.inbox == [k.inbox[0]] + k.inbox[1..];
    assert id in k.inbox <==> id in k.inbox[1..];
  }

  lemma HeadKeepsAllowance(g: Group, step: GStep, c: nat)
    requires Solo(g, c) && Enabled(g, step) && Smooth(step, c) && IsWork(step)
    ensures var id := Head(g, c);
            Allowance(g, c, id) + (if RunsHandler(g, step, id) then 1 else 0) <=
            Allowance(Next(g, step), c, id) + (if IsFault(g, step, id) then 1 else 0)
  {
    var k := Of(g, c);
    assert k.inbox[0] !in k.inbox[1..];
  }

  lemma {:induction false} RunsWithinAllowance(g: Group, steps: seq<GStep>, g': Group, c: nat, id: nat)
    requires Solo(g, c) && Reaches(g, steps, g')
    requires forall i :: 0 <= i < |steps| ==> Smooth(steps[i], c)
    ensures Solo(g', c)
    ensures Allowance(g, c, id) + HandlerRuns(g, steps, id) <= Allowance(g', c, id) + Faults(g, steps, id)
    decreases |steps|
  {
    if steps != [] {
      var step := steps[0];
      StepKeeps(g, step);
      if !IsWork(step) {
        DeliveryKeepsSolo(g, step, c);
        DeliveryKeepsAllowance(g, step, c, id);
      } else {
        WorkKeepsSolo(g, step, c);
        WorkKeepsAllowance(g, step, c, id);
      }
      RunsWithinAllowance(Next(g, step), steps[1..], g', c, id);
    }
  }

  /** Retries are bounded, for both consumers of the repository. */
  lemma {:induction false} HandlerRunsAreBounded(strict: bool, maxRetries: nat, steps: seq<GStep>, g: Group, c: nat, id: nat)
    requires 1 <= maxRetries && Reaches(Empty(strict, maxRetries), steps, g)
    requires forall i :: 0 <= i < |steps| ==> Smooth(steps[i], c)
    ensures HandlerRuns(Empty(strict, maxRetries), steps, id) <= maxRetries + Faults(Empty(strict, maxRetries), steps, id)
  {
    RunsWithinAllowance(Empty(strict, maxRetries), steps, g, c, id);
    RunKeeps(Empty(strict, maxRetries), steps, g);
  }

  // -------------------------------------------------------------- the bound is reached

  /** The event bus with one event, delivered to consumer 0 for the `d`-th time. */
  function Delivered(maxRetries: nat, d: nat, stage: Stage): Group {
    Group(false, maxRetries, [EventMsg], 1, map[0 := Pending(0, d)], map[0 := Consumer([0], stage)], [], {}, map[])
  }

  function Waiting(maxRetries: nat, d: nat): Group {
    Delivered(maxRetries, d, Ready).(consumers := map[0 := Consumer([], Ready)])
  }

  lemma StepCounts(g: Group, step: GStep, rest: seq<GStep>, g': Group, id: nat)
    requires Enabled(g, step) && Reaches(Next(g, step), rest, g')
    ensures Reaches(g, [step] + rest, g')
    ensures HandlerRuns(g, [step] + rest, id) == (if RunsHandler(g, step, id) then 1 else 0) + HandlerRuns(Next(g, step), rest, id)
    ensures Faults(g, [step] + rest, id) == (if IsFault(g, step, id) then 1 else 0) + Faults(Next(g, step), rest, id)
  {
    assert ([step] + rest)[1..] == rest;
  }

  lemma HandlerFails(maxRetries: nat, d: nat)
    ensures var g := Delivered(maxRetries, d, Ready);
      && Enabled(g, Handle(0, Retryable)) && Next(g, Handle(0, Retryable)) == Delivered(maxRetries, d, HandlerFailed)
      && RunsHandler(g, Handle(0, Retryable), 0) && !IsFault(g, Handle(0, Retryable), 0)
  {
  }

  lemma CountDecides(maxRetries: nat, d: nat)
    requires 1 <= d
    ensures var g := Delivered(maxRetries, d, HandlerFailed);
      && Enabled(g, CountAfter(0, false))
      && Next(g, CountAfter(0, false)) == (if maxRetries <= d then Delivered(maxRetries, d, ToDlq) else Waiting(maxRetries, d))
      && !RunsHandler(g, CountAfter(0, false), 0) && !IsFault(g, CountAfter(0, false), 0)
  {
    var inbox: seq<nat> := [0];
    assert inbox[1..] == [];
  }

  lemma WriteFails(maxRetries: nat, d: nat)
    ensures var g := Delivered(maxRetries, d, ToDlq);
      && Enabled(g, WriteDlq(0, false, false)) && Next(g, WriteDlq(0, false, false)) == Waiting(maxRetries, d)
      && !RunsHandler(g, WriteDlq(0, false, false), 0) && IsFault(g, WriteDlq(0, false, false), 0)
  {
  }

  lemma ReclaimedAgain(maxRetries: nat, d: nat)
    ensures var g := Waiting(maxRetries, d);
      && Enabled(g, Reclaim(0, [0])) && Next(g, Reclaim(0, [0])) == Delivered(maxRetries, d + 1, Ready)
      && !RunsHandler(g, Reclaim(0, [0]), 0) && !IsFault(g, Reclaim(0, [0]), 0)
  {
    assert Deliver(map[0 := Pending(0, d)], [0], 0) == map[0 := Pending(0, d + 1)];
  }

  /** From the `d`-th delivery to the handler run of the `last`: one handler run per delivery, and a failed dead-letter write per
   *  delivery from the `maxRetries`-th on, except the last. */
  lemma {:induction false} FailingDeliveries(maxRetries: nat, d: nat, last: nat) returns (steps: seq<GStep>)
    requires 1 <= d <= last
    ensures Reaches(Delivered(maxRetries, d, Ready), steps, Delivered(maxRetries, last, HandlerFailed))
    ensures HandlerRuns(Delivered(maxRetries, d, Ready), steps, 0) == last + 1 - d
    ensures Faults(Delivered(maxRetries, d, Ready), steps, 0) == Over(maxRetries, last) - Over(maxRetries, d)
    ensures forall i :: 0 <= i < |steps| ==> Smooth(steps[i], 0)
    decreases last - d
  {
    if d == last {
      HandlerFails(maxRetries, d);
      var g' := Delivered(maxRetries, d, HandlerFailed);
      assert Reaches(g', [], g');
      StepCounts(Delivered(maxRetries, d, Ready), Handle(0, Retryable), [], g', 0);
      steps := [Handle(0, Retryable)] + [];
    } else {
      var rest := FailingDeliveries(maxRetries, d + 1, last);
      steps := OneFailingDelivery(maxRetries, d, rest, Delivered(maxRetries, last, HandlerFailed));
    }
  }

  /** How many deliveries before the `d`-th were the `maxRetries`-th or later. */
  function Over(maxRetries: nat, d: nat): nat {
    if d <= maxRetries then 0 else d - maxRetries
  }

  lemma OneFailingDelivery(maxRetries: nat, d: nat, rest: seq<GStep>, g': Group) returns (steps: seq<GStep>)
    requires 1 <= d && Reaches(Delivered(maxRetries, d + 1, Ready), rest, g')
    requires forall i :: 0 <= i < |rest| ==> Smooth(rest[i], 0)
    ensures Reaches(Delivered(maxRetries, d, Ready), steps, g')
    ensures HandlerRuns(Delivered(maxRetries, d, Ready), steps, 0) == 1 + HandlerRuns(Delivered(maxRetries, d + 1, Ready), rest, 0)
    ensures Faults(Delivered(maxRetries, d, Ready), steps, 0) ==
            (if maxRetries <= d then 1 else 0) + Faults(Delivered(maxRetries, d + 1, Ready), rest, 0)
    ensures forall i :: 0 <= i < |steps| ==> Smooth(steps[i], 0)
  {
    steps := UntilReclaimed(maxRetries, d, rest, g');
    CountDecides(maxRetries, d);
    StepCounts(Delivered(maxRetries, d, HandlerFailed), CountAfter(0, false), steps, g', 0);
    steps := [CountAfter(0, false)] + steps;
    HandlerFails(maxRetries, d);
    StepCounts(Delivered(maxRetries, d, Ready), Handle(0, Retryable), steps, g', 0);
    steps := [Handle(0, Retryable)] + steps;
  }

  lemma UntilReclaimed(maxRetries: nat, d: nat, rest: seq<GStep>, g': Group) returns (steps: seq<GStep>)
    requires 1 <= d && Reaches(Delivered(maxRetries, d + 1, Ready), rest, g')
    requires forall i :: 0 <= i < |rest| ==> Smooth(rest[i], 0)
    ensures var g := if maxRetries <= d then Delivered(maxRetries, d, ToDlq) else Waiting(maxRetries, d);
      && Reaches(g, steps, g')
      && HandlerRuns(g, steps, 0) == HandlerRuns(Delivered(maxRetries, d + 1, Ready), rest, 0)
      && Faults(g, steps, 0) == (if maxRetries <= d then 1 else 0) + Faults(Delivered(maxRetries, d + 1, Ready), rest, 0)
    ensures forall i :: 0 <= i < |steps| ==> Smooth(steps[i], 0)
  {
    ReclaimedAgain(maxRetries, d);
    StepCounts(Waiting(maxRetries, d), Reclaim(0, [0]), rest, g', 0);
    steps := [Reclaim(0, [0])] + rest;
    if maxRetries <= d {
      WriteFails(maxRetries, d);
      StepCounts(Delivered(maxRetries, d, ToDlq), WriteDlq(0, false, false), steps, g', 0);
      steps := [WriteDlq(0, false, false)] + steps;
    }
  }

  /** For every limit and every number of faults, some run of one consumer reaches the bound. */
  lemma {:induction false} HandlerBoundIsReached(maxRetries: nat, faults: nat) returns (steps: seq<GStep>, g: Group)
    requires 1 <= maxRetries
    ensures Reaches(Empty(false, maxRetries), steps, g) && forall i :: 0 <= i < |steps| ==> Smooth(steps[i], 0)
    ensures Faults(Empty(false, maxRetries), steps, 0) == faults
    ensures HandlerRuns(Empty(false, maxRetries), steps, 0) == maxRetries + faults
  {
    g := Delivered(maxRetries, maxRetries + faults, HandlerFailed);
    var failing := FailingDeliveries(maxRetries, 1, maxRetries + faults);
    steps := FirstDelivery(maxRetries, failing, g);
  }

  lemma FirstDelivery(maxRetries: nat, rest: seq<GStep>, g': Group) returns (steps: seq<GStep>)
    requires Reaches(Delivered(maxRetries, 1, Ready), rest, g') && forall i :: 0 <= i < |rest| ==> Smooth(rest[i], 0)
    ensures Reaches(Empty(false, maxRetries), steps, g') && forall i :: 0 <= i < |steps| ==> Smooth(steps[i], 0)
    ensures HandlerRuns(Empty(false, maxRetries), steps, 0) == HandlerRuns(Delivered(maxRetries, 1, Ready), rest, 0)
    ensures Faults(Empty(false, maxRetries), steps, 0) == Faults(Delivered(maxRetries, 1, Ready), rest, 0)
  {
    var added := Next(Empty(false, maxRetries), Add(EventMsg));
    assert added == Empty(false, maxRetries).(kinds := [EventMsg]);
    assert Range(0, 1) == [0] && Deliver(map[], [0], 0) == map[0 := Pending(0, 1)];
    assert Next(added, Read(0, 1)) == Delivered(maxRetries, 1, Ready);
    StepCounts(added, Read(0, 1), rest, g', 0);
    StepCounts(Empty(false, maxRetries), Add(EventMsg), [Read(0, 1)] + rest, g', 0);
    steps := [Add(EventMsg)] + ([Read(0, 1)] + rest);
  }
}
