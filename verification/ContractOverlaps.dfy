/** Contract requests that overlap: each checks its guards, and computes what to write, before its transaction opens. */
module ContractOverlaps {
  import opened Prelude
  import opened Text
  import opened Contracts

  /** What a request that passed its guards is going to write. */
  datatype Change =
    | Upsert(p: Uuid, row: Contract)
    | Freeze(p: Uuid, text: string, now: Time)
    | Seal(p: Uuid, signature: Signature, missingText: Option<string>, missingHash: Option<Digest>)
    | AddAmendment(id: Uuid, p: Uuid, contractId: Uuid, terms: AmendmentTerms, preparedBySub: Uuid)
    | FreezeAmendment(a: Uuid, text: string, now: Time)
    | SealAmendment(a: Uuid, signature: Signature)
    | SetProject(p: Uuid, project: Project)

  function Planned(tpl: Templates, s: Contracts.State, op: Op): Option<Change> {
    match op
    case OpSaveDraft(actor, p, payload, newId) =>
      var r := SaveDraft(tpl, s, actor, p, payload, newId);
      if r.Ok? then Some(Upsert(p, r.value.(id := newId))) else None
    case OpRequest(actor, p, now) =>
      var r := RequestSignature(tpl, s, actor, p, now);
      if r.Ok? then Some(Freeze(p, ContractText(tpl, s.contracts[p].terms, s.projects[p].name), now)) else None
    case OpSign(actor, p, name, url, meta, now) =>
      var r := Sign(tpl, s, actor, p, name, url, meta, now);
      if r.Err? then None
      else if !Falsy(s.contracts[p].snapshot) then Some(Seal(p, Signature(actor.sub, name, url, meta, now), None, None))
      else
        var text := s.contracts[p].snapshot.GetOr(ContractText(tpl, s.contracts[p].terms, s.projects[p].name));
        Some(Seal(p, Signature(actor.sub, name, url, meta, now), Some(text), Some(s.contracts[p].hash.GetOr(tpl.digest(text)))))
    case OpSaveAmendment(actor, p, terms, newId) =>
      var r := SaveAmendmentDraft(s, actor, p, terms);
      if r.Ok? then Some(AddAmendment(newId, p, r.value.contractId, r.value.terms, r.value.preparedBySub)) else None
    case OpAskAmendment(actor, p, title, text, newId) =>
      var r := RequestClientAmendment(s, actor, p, title, text);
      if r.Ok? then Some(AddAmendment(newId, p, r.value.contractId, r.value.terms, r.value.preparedBySub)) else None
    case OpRequestAmendment(actor, p, a, now) =>
      var r := RequestAmendmentSignature(tpl, s, actor, p, a, now);
      if r.Ok? then Some(FreezeAmendment(a, AmendmentText(tpl, s.amendments[a], s.contracts[p], s.projects[p].name), now)) else None
    case OpSignAmendment(actor, p, a, name, url, meta, now) =>
      var r := SignAmendment(s, actor, p, a, name, url, meta, now);
      if r.Ok? then Some(SealAmendment(a, Signature(actor.sub, name, url, meta, now))) else None
    case OpChangeProject(p, project) => Some(SetProject(p, project))
  }

  /** The statement of the transaction, on the rows as they are by then; it does not look at the status again. */
  function Write(tpl: Templates, s: Contracts.State, ch: Change): Contracts.State {
    match ch
    case Upsert(p, row) => s.(contracts := s.contracts[p := if p in s.contracts then row.(id := s.contracts[p].id) else row])
    case Freeze(p, text, now) =>
      if p !in s.contracts then s
      else s.(contracts := s.contracts[p := s.contracts[p].(status := PendingSignature, snapshot := Some(text),
                                                            hash := Some(tpl.digest(text)), requestedSignatureAt := Some(now))])
    case Seal(p, signature, text, hash) =>
      if p !in s.contracts then s
      else
        var c := s.contracts[p];
        s.(contracts := s.contracts[p := c.(status := Signed, signature := Some(signature),
                                            snapshot := if Falsy(text) then c.snapshot else text,
                                            hash := if hash.None? then c.hash else hash)])
    case AddAmendment(id, p, contractId, terms, preparedBySub) =>
      if id in s.amendments then s
      else s.(amendments := s.amendments[id := Amendment(contractId, p, MaxOrZero(Numbers(s, contractId)) + 1, Draft, terms,
                                                         None, None, preparedBySub, None, None)])
    case FreezeAmendment(a, text, now) =>
      if a !in s.amendments then s
      else s.(amendments := s.amendments[a := s.amendments[a].(status := PendingSignature, snapshot := Some(text),
                                                               hash := Some(tpl.digest(text)), requestedSignatureAt := Some(now))])
    case SealAmendment(a, signature) =>
      if a !in s.amendments then s
      else s.(amendments := s.amendments[a := s.amendments[a].(status := Signed, signature := Some(signature))])
    case SetProject(p, project) => s.(projects := s.projects[p := project])
  }

  /** An operation nothing comes between is its guards and its statement. */
  lemma OperationIsPlanThenWrite(tpl: Templates, s: Contracts.State, op: Op)
    ensures Contracts.Next(tpl, s, op) == if Planned(tpl, s, op).None? then s else Write(tpl, s, Planned(tpl, s, op).value)
  {
  }

  // ---------------------------------------------------------------------------- machine

  datatype Request = Request(op: Op, change: Change)

  datatype Overlap = Overlap(tables: Contracts.State, open: map<nat, Request>)

  datatype Step =
    | Arrive(k: nat, op: Op)
    | Commit(k: nat)
    | GiveUp(k: nat)

  /** A request that is refused by its guards never gets this far. */
  predicate Enabled(tpl: Templates, s: Overlap, step: Step) {
    match step
    case Arrive(k, op) => k !in s.open && Planned(tpl, s.tables, op).Some?
    case Commit(k) => k in s.open
    case GiveUp(k) => k in s.open
  }

  function Next(tpl: Templates, s: Overlap, step: Step): Overlap
    requires Enabled(tpl, s, step)
  {
    match step
    case Arrive(k, op) => s.(open := s.open[k := Request(op, Planned(tpl, s.tables, op).value)])
    case Commit(k) => Overlap(Write(tpl, s.tables, s.open[k].change), s.open - {k})
    case GiveUp(k) => s.(open := s.open - {k})
  }

  ghost predicate Reaches(tpl: Templates, s: Overlap, steps: seq<Step>, s': Overlap)
    decreases |steps|
  {
    if steps == [] then s == s'
    else Enabled(tpl, s, steps[0]) && Reaches(tpl, Next(tpl, s, steps[0]), steps[1..], s')
  }

  /** Every request commits on tables on which it would plan the same. */
  ghost predicate AllUndisturbed(tpl: Templates, s: Overlap, steps: seq<Step>, s': Overlap)
    requires Reaches(tpl, s, steps, s')
    decreases |steps|
  {
    steps == []
    || ((steps[0].Commit? ==> Planned(tpl, s.tables, s.open[steps[0].k].op) == Some(s.open[steps[0].k].change))
        && AllUndisturbed(tpl, Next(tpl, s, steps[0]), steps[1..], s'))
  }

  /** However requests overlap: if no commit is disturbed, they might as well have run one after the other, in the order of their
   *  commits. So all results over runs of the life cycle hold of the tables. */
  lemma {:induction false} UndisturbedRunsAreSerial(tpl: Templates, s: Overlap, steps: seq<Step>, s': Overlap) returns (ops: seq<Op>)
    requires Reaches(tpl, s, steps, s') && AllUndisturbed(tpl, s, steps, s')
    ensures Contracts.Run(tpl, s.tables, ops) == s'.tables
    decreases |steps|
  {
    if steps == [] {
      ops := [];
    } else {
      ops := UndisturbedRunsAreSerial(tpl, Next(tpl, s, steps[0]), steps[1..], s');
      if steps[0].Commit? {
        var op := s.open[steps[0].k].op;
        OperationIsPlanThenWrite(tpl, s.tables, op);
        assert ([op] + ops)[1..] == ops;
        ops := [op] + ops;
      }
    }
  }

  // ----------------------------------------------------------- what holds regardless

  predicate AllSealed(tpl: Templates, s: Contracts.State) {
    && (forall p :: p in s.contracts ==> Sealed(tpl, s.contracts[p].snapshot, s.contracts[p].hash))
    && (forall a :: a in s.amendments ==> Sealed(tpl, s.amendments[a].snapshot, s.amendments[a].hash))
  }

  /** What a change writes belongs together. */
  predicate ChangeOk(tpl: Templates, ch: Change) {
    match ch
    case Upsert(_, row) => row.status.Draft? && Sealed(tpl, row.snapshot, row.hash)
    case Freeze(_, text, _) => text != ""
    case Seal(_, _, text, hash) => Sealed(tpl, text, hash)
    case FreezeAmendment(_, text, _) => text != ""
    case _ => true
  }

  ghost predicate InOrder(tpl: Templates, s: Overlap) {
    AllSealed(tpl, s.tables) && forall k :: k in s.open ==> ChangeOk(tpl, s.open[k].change)
  }

  lemma PlansAreOk(tpl: Templates, s: Contracts.State, op: Op)
    requires AllSealed(tpl, s) && Planned(tpl, s, op).Some?
    ensures ChangeOk(tpl, Planned(tpl, s, op).value)
  {
  }

  lemma WriteKeepsSealed(tpl: Templates, s: Contracts.State, ch: Change)
    requires AllSealed(tpl, s) && ChangeOk(tpl, ch)
    ensures AllSealed(tpl, Write(tpl, s, ch))
  {
  }

  /** However requests overlap: the digest of every contract and amendment is that of its text. */
  lemma {:induction false} DigestsAlwaysMatch(tpl: Templates, s: Overlap, steps: seq<Step>, s': Overlap)
    requires InOrder(tpl, s) && Reaches(tpl, s, steps, s')
    ensures InOrder(tpl, s')
    decreases |steps|
  {
    if steps != [] {
      if steps[0].Arrive? {
        PlansAreOk(tpl, s.tables, steps[0].op);
      } else if steps[0].Commit? {
        WriteKeepsSealed(tpl, s.tables, s.open[steps[0].k].change);
      }
      DigestsAlwaysMatch(tpl, Next(tpl, s, steps[0]), steps[1..], s');
    }
  }

  // ------------------------------------------------------------ what a late write keeps

  /** A draft is saved late only over a draft; a text is frozen late only on a draft, or again as it is; a signature is late only
   *  when no other one is there and no other text was frozen. */
  predicate LateWriteFits(c: Contract, p: Uuid, ch: Change) {
    match ch
    case Upsert(q, _) => q != p || c.status.Draft?
    case Freeze(q, text, now) =>
      q != p || c.status.Draft?
      || (c.status.PendingSignature? && c.requestedSignatureAt == Some(now) && (c.snapshot.Some? ==> c.snapshot == Some(text)))
    case Seal(q, signature, text, _) =>
      q != p || c.status.Draft?
      || ((c.snapshot.Some? && text.Some? ==> c.snapshot == text)
          && (c.status.Signed? ==> c.signature == Some(signature) && (text.Some? ==> c.snapshot.Some?)))
    case _ => true
  }

  /** The life cycle of a contract survives a late write exactly then. */
  lemma {:induction false} LateWriteKeepsContractExactlyWhen(tpl: Templates, s: Contracts.State, ch: Change, p: Uuid)
    requires AllSealed(tpl, s) && ChangeOk(tpl, ch) && p in s.contracts
    ensures p in Write(tpl, s, ch).contracts
    ensures MayBecome(s.contracts[p], Write(tpl, s, ch).contracts[p]) <==> LateWriteFits(s.contracts[p], p, ch)
  {
    assert Sealed(tpl, s.contracts[p].snapshot, s.contracts[p].hash);
  }

  // ---------------------------------------------------------------- runs that break it

  lemma {:induction false} ReachesOneMore(tpl: Templates, s: Overlap, steps: seq<Step>, m: Overlap, step: Step)
    requires Reaches(tpl, s, steps, m) && Enabled(tpl, m, step)
    ensures Reaches(tpl, s, steps + [step], Next(tpl, m, step))
    decreases |steps|
  {
    if steps == [] {
      assert Reaches(tpl, Next(tpl, m, step), [], Next(tpl, m, step));
      assert (steps + [step])[1..] == [];
    } else {
      ReachesOneMore(tpl, Next(tpl, s, steps[0]), steps[1..], m, step);
      assert (steps + [step])[1..] == steps[1..] + [step];
    }
  }

  /** An operation nothing comes between. */
  lemma SerialIsARun(tpl: Templates, s0: Overlap, steps0: seq<Step>, s: Overlap, k: nat, op: Op) returns (steps: seq<Step>)
    requires Reaches(tpl, s0, steps0, s) && k !in s.open && Planned(tpl, s.tables, op).Some?
    ensures Reaches(tpl, s0, steps, Overlap(Contracts.Next(tpl, s.tables, op), s.open))
  {
    ReachesOneMore(tpl, s0, steps0, s, Arrive(k, op));
    var m := Next(tpl, s, Arrive(k, op));
    ReachesOneMore(tpl, s0, steps0 + [Arrive(k, op)], m, Commit(k));
    OperationIsPlanThenWrite(tpl, s.tables, op);
    assert Next(tpl, m, Commit(k)).open == s.open;
    steps := steps0 + [Arrive(k, op)] + [Commit(k)];
  }

  /** A project without a contract. */
  function Start(p: Uuid, project: Project): Overlap {
    Overlap(Contracts.State(map[p := project], map[], map[]), map[])
  }

  function Drafted(tpl: Templates, terms: Terms, name: string, id: Uuid, preparedBySub: Uuid): Contract {
    var text := ContractText(tpl, StoredTerms(terms), name);
    Contract(id, Draft, StoredTerms(terms), Some(text), Some(tpl.digest(text)), preparedBySub, None, None)
  }

  lemma DraftSaved(tpl: Templates, s: Contracts.State, admin: Actor, p: Uuid, terms: Terms, id: Uuid)
    requires admin.role.Admin? && p in s.projects && !s.projects[p].isArchived
    requires p in s.contracts ==> s.contracts[p].status.Draft?
    ensures var op, row := OpSaveDraft(admin, p, terms, id), Drafted(tpl, terms, s.projects[p].name, id, admin.sub);
      && Planned(tpl, s, op) == Some(Upsert(p, row))
      && Contracts.Next(tpl, s, op) == s.(contracts := s.contracts[p := if p in s.contracts then row.(id := s.contracts[p].id) else row])
  {
    OperationIsPlanThenWrite(tpl, s, OpSaveDraft(admin, p, terms, id));
  }

  /** The signature is requested on one draft, another draft is saved meanwhile, and the client is to sign a text that is not
   *  that of the stored terms. */
  lemma {:induction false} LateRequestFreezesAnOldText(tpl: Templates, p: Uuid, project: Project, admin: Actor, first: Terms, second: Terms,
                                                       id: Uuid, now: Time)
    returns (steps: seq<Step>, s: Overlap)
    requires admin.role.Admin? && !project.isArchived
    requires ContractText(tpl, StoredTerms(first), project.name) != ContractText(tpl, StoredTerms(second), project.name)
    ensures Reaches(tpl, Start(p, project), steps, s) && s.open == map[] && p in s.tables.contracts
    ensures var c := s.tables.contracts[p];
      c.status.PendingSignature? && c.terms == StoredTerms(second) && c.snapshot.Some?
      && c.snapshot.value != ContractText(tpl, c.terms, project.name)
  {
    var start := Start(p, project);
    assert Reaches(tpl, start, [], start);
    DraftSaved(tpl, start.tables, admin, p, first, id);
    steps := SerialIsARun(tpl, start, [], start, 0, OpSaveDraft(admin, p, first, id));
    s := Overlap(Contracts.Next(tpl, start.tables, OpSaveDraft(admin, p, first, id)), map[]);
    var request := OpRequest(admin, p, now);
    ReachesOneMore(tpl, start, steps, s, Arrive(1, request));
    steps, s := steps + [Arrive(1, request)], Next(tpl, s, Arrive(1, request));
    DraftSaved(tpl, s.tables, admin, p, second, id);
    steps := SerialIsARun(tpl, start, steps, s, 2, OpSaveDraft(admin, p, second, id));
    s := s.(tables := Contracts.Next(tpl, s.tables, OpSaveDraft(admin, p, second, id)));
    ReachesOneMore(tpl, start, steps, s, Commit(1));
    steps, s := steps + [Commit(1)], Next(tpl, s, Commit(1));
  }

  lemma DraftSigned(tpl: Templates, s: Contracts.State, admin: Actor, client: Actor, p: Uuid, name: string, url: string, meta: Meta, now: Time)
    requires admin.role.Admin? && p in s.projects && !s.projects[p].isArchived
    requires client.role.Client? && client.sub in s.projects[p].members && s.projects[p].members[client.sub].Client?
    requires p in s.contracts && s.contracts[p].status.Draft?
    ensures Planned(tpl, s, OpRequest(admin, p, now)).Some?
    ensures var asked := Contracts.Next(tpl, s, OpRequest(admin, p, now));
      && Planned(tpl, asked, OpSign(client, p, name, url, meta, now)).Some?
      && var signed := Contracts.Next(tpl, asked, OpSign(client, p, name, url, meta, now));
         p in signed.contracts && signed.contracts[p].status.Signed?
  {
  }

  /** A draft is saved while the contract is a draft, and written when it is signed: the signature is gone. */
  lemma {:induction false} LateDraftUndoesASignature(tpl: Templates, p: Uuid, project: Project, admin: Actor, client: Actor,
                                                     first: Terms, second: Terms, id: Uuid, name: string, url: string, meta: Meta, now: Time)
    returns (steps: seq<Step>, signed: Overlap, s: Overlap)
    requires admin.role.Admin? && !project.isArchived
    requires client.role.Client? && client.sub in project.members && project.members[client.sub].Client?
    ensures Reaches(tpl, Start(p, project), steps, signed)
    ensures p in signed.tables.contracts && signed.tables.contracts[p].status.Signed?
    ensures Reaches(tpl, Start(p, project), steps + [Commit(1)], s)
    ensures p in s.tables.contracts && s.tables.contracts[p].status.Draft? && s.tables.contracts[p].signature.None?
  {
    var start := Start(p, project);
    assert Reaches(tpl, start, [], start);
    DraftSaved(tpl, start.tables, admin, p, first, id);
    steps := SerialIsARun(tpl, start, [], start, 0, OpSaveDraft(admin, p, first, id));
    s := Overlap(Contracts.Next(tpl, start.tables, OpSaveDraft(admin, p, first, id)), map[]);
    var save := OpSaveDraft(admin, p, second, id);
    DraftSaved(tpl, s.tables, admin, p, second, id);
    ReachesOneMore(tpl, start, steps, s, Arrive(1, save));
    steps, s := steps + [Arrive(1, save)], Next(tpl, s, Arrive(1, save));
    DraftSigned(tpl, s.tables, admin, client, p, name, url, meta, now);
    steps := SerialIsARun(tpl, start, steps, s, 2, OpRequest(admin, p, now));
    s := s.(tables := Contracts.Next(tpl, s.tables, OpRequest(admin, p, now)));
    var sign := OpSign(client, p, name, url, meta, now);
    steps := SerialIsARun(tpl, start, steps, s, 3, sign);
    signed := s.(tables := Contracts.Next(tpl, s.tables, sign));
    ReachesOneMore(tpl, start, steps, signed, Commit(1));
    s := Next(tpl, signed, Commit(1));
  }
}
