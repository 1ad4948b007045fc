/** Amendment numbers: concurrent transactions read the highest number and insert the next one, without a lock. A step that
 *  cannot happen in a state changes nothing. */
module AmendmentNumbers {
  import opened Prelude

  /** A transaction that has read the next number, and one whose row is not committed yet. */
  datatype Tx = Read(number: int) | Inserted(number: int)

  /** One contract: the numbers everybody sees, and the transactions under way. */
  datatype State = State(committed: set<int>, txs: map<Uuid, Tx>)

  datatype Step = ReadMax(t: Uuid) | Insert(t: Uuid) | Commit(t: Uuid) | Abort(t: Uuid)

  /** The unique index refuses a number that is committed. */
  predicate Refused(s: State, t: Uuid) {
    t in s.txs && s.txs[t].Read? && s.txs[t].number in s.committed
  }

  /** The unique index makes an insert wait for another transaction's uncommitted row of the same number. */
  predicate Blocked(s: State, t: Uuid)
    requires t in s.txs
  {
    exists u :: u in s.txs && u != t && s.txs[u] == Inserted(s.txs[t].number)
  }

  function Next(s: State, step: Step): State {
    match step
    case ReadMax(t) =>
      if t in s.txs then s else s.(txs := s.txs[t := Read(MaxOrZero(s.committed) + 1)])
    case Insert(t) =>
      if t !in s.txs || s.txs[t].Inserted? || Blocked(s, t) then s
      else if Refused(s, t) then s.(txs := s.txs - {t})
      else s.(txs := s.txs[t := Inserted(s.txs[t].number)])
    case Commit(t) =>
      if t in s.txs && s.txs[t].Inserted? then State(s.committed + {s.txs[t].number}, s.txs - {t}) else s
    case Abort(t) =>
      s.(txs := s.txs - {t})
  }

  function Run(s: State, steps: seq<Step>): State
    decreases |steps|
  {
    if steps == [] then s else Run(Next(s, steps[0]), steps[1..])
  }

  /** The live numbers are exactly one to `n`; only one uncommitted row can carry the next one. */
  ghost predicate Inv(s: State) {
    && (forall k :: k in s.committed <==> 1 <= k <= |s.committed|)
    && (forall t :: t in s.txs ==> 1 <= s.txs[t].number <= |s.committed| + 1)
    && (forall t :: t in s.txs && s.txs[t].Inserted? ==> s.txs[t].number == |s.committed| + 1)
    && (forall t, u :: t in s.txs && u in s.txs && s.txs[t].Inserted? && s.txs[u].Inserted? ==> t == u)
  }

  lemma StepKeeps(s: State, step: Step)
    requires Inv(s)
    ensures Inv(Next(s, step))
  {
    match step
    case ReadMax(t) =>
      assert s.committed != {} ==> |s.committed| in s.committed;
    case Insert(t) =>
    case Commit(t) => CommitKeeps(s, t);
    case Abort(t) =>
  }

  lemma CommitKeeps(s: State, t: Uuid)
    requires Inv(s)
    ensures Inv(Next(s, Commit(t)))
  {
    if t in s.txs && s.txs[t].Inserted? {
      assert s.txs[t].number == |s.committed| + 1 && s.txs[t].number !in s.committed;
      assert |s.committed + {s.txs[t].number}| == |s.committed| + 1;
    }
  }

  lemma {:induction false} RunKeeps(s: State, steps: seq<Step>)
    requires Inv(s)
    ensures Inv(Run(s, steps))
    decreases |steps|
  {
    if steps != [] {
      StepKeeps(s, steps[0]);
      RunKeeps(Next(s, steps[0]), steps[1..]);
    }
  }

  /** In every interleaving of any number of transactions, aborted or not, the numbers stay gapless. */
  lemma {:induction false} NumbersAreGapless(steps: seq<Step>)
    ensures var live := Run(State({}, map[]), steps).committed;
            forall k :: k in live <==> 1 <= k <= |live|
  {
    RunKeeps(State({}, map[]), steps);
  }

  lemma {:induction false} OthersLeaveItsNumber(s: State, t: Uuid, steps: seq<Step>)
    requires t in s.txs && forall i :: 0 <= i < |steps| ==> steps[i].t != t
    ensures t in Run(s, steps).txs && Run(s, steps).txs[t] == s.txs[t]
    ensures s.committed <= Run(s, steps).committed
    decreases |steps|
  {
    if steps != [] {
      OthersLeaveItsNumber(Next(s, steps[0]), t, steps[1..]);
    }
  }

  /** An insert is refused exactly when another transaction has committed since its own read. */
  lemma {:induction false} RefusedExactlyWhenOvertaken(s: State, t: Uuid, steps: seq<Step>)
    requires Inv(s) && t !in s.txs && forall i :: 0 <= i < |steps| ==> steps[i].t != t
    ensures var later := Run(Next(s, ReadMax(t)), steps);
            Refused(later, t) <==> later.committed != s.committed
  {
    var read := Next(s, ReadMax(t));
    StepKeeps(s, ReadMax(t));
    RunKeeps(read, steps);
    OthersLeaveItsNumber(read, t, steps);
    var later := Run(read, steps);
    assert s.committed != {} ==> |s.committed| in s.committed;
    assert read.txs[t].number == |s.committed| + 1;
    if later.committed != s.committed {
      var extra := later.committed - s.committed;
      assert later.committed == s.committed + extra && s.committed + {} == s.committed;
      var k := Pick(extra);
      assert |s.committed| + 1 in later.committed;
    }
  }

  /** A transaction that nobody overtakes and nobody blocks adds the next number. */
  lemma {:induction false} UndisturbedTransactionAddsTheNextNumber(s: State, t: Uuid)
    requires Inv(s) && t !in s.txs && forall u :: u in s.txs ==> s.txs[u].Read?
    ensures Run(s, [ReadMax(t), Insert(t), Commit(t)]).committed == s.committed + {|s.committed| + 1}
  {
    var steps := [ReadMax(t), Insert(t), Commit(t)];
    var read := Next(s, steps[0]);
    var inserted := Next(read, steps[1]);
    assert steps[1..] == [steps[1], steps[2]] && steps[1..][1..] == [steps[2]] && steps[1..][1..][1..] == [];
    assert Run(s, steps) == Run(read, steps[1..]) && Run(read, steps[1..]) == Run(inserted, [steps[2]]);
    assert Run(inserted, [steps[2]]) == Run(Next(inserted, steps[2]), []);
    assert s.committed != {} ==> |s.committed| in s.committed;
    assert read.txs[t].number == |s.committed| + 1;
  }
}
