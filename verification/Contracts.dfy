/** Contracts and their amendments: drafts, the text frozen when a signature is requested, and signing. Each operation is
 *  given as a whole; one that is refused changes nothing. */
module Contracts {
  import opened Prelude
  import opened Text

  datatype Role = Admin | Worker | Client

  datatype Status = Draft | PendingSignature | Signed

  datatype Error = Forbidden | NotFound | BadRequest

  type Digest = nat

  datatype Actor = Actor(sub: Uuid, role: Role)

  datatype Meta = Meta(ipAddress: string, userAgent: string)

  datatype Signature = Signature(signedBySub: Uuid, signerName: string, signatureDataUrl: string, meta: Meta, signedAt: Time)

  datatype Terms = Terms(
    providerKind: string, providerName: string, providerTaxId: Option<string>,
    providerRepresentative: Option<string>, providerRepresentativeDocument: Option<string>,
    clientKind: string, clientName: string, clientDocument: Option<string>,
    clientCompanyName: Option<string>, clientTaxId: Option<string>,
    clientRepresentative: Option<string>, clientRepresentativeDocument: Option<string>,
    clientEmail: string, clientPhone: Option<string>,
    planName: string, monthlyFee: nat, currency: string, taxIncluded: bool, termMonths: nat,
    serviceScope: string, additionalTerms: Option<string>, signatureCity: string)

  datatype Contract = Contract(
    id: Uuid, status: Status, terms: Terms,
    snapshot: Option<string>, hash: Option<Digest>,
    preparedBySub: Uuid, requestedSignatureAt: Option<Time>, signature: Option<Signature>)

  datatype AmendmentTerms = AmendmentTerms(
    title: string, amendmentType: string, serviceScope: string,
    additionalFee: nat, feePaymentType: string, termMonthsExtension: nat,
    additionalTerms: Option<string>, clientRequestNotes: Option<string>, signatureCity: string)

  datatype Amendment = Amendment(
    contractId: Uuid, projectId: Uuid, number: int, status: Status, terms: AmendmentTerms,
    snapshot: Option<string>, hash: Option<Digest>,
    preparedBySub: Uuid, requestedSignatureAt: Option<Time>, signature: Option<Signature>)

  datatype Project = Project(name: string, isArchived: bool, members: map<Uuid, Role>)

  /** Contracts are kept by project, as their unique index demands. */
  datatype State = State(projects: map<Uuid, Project>, contracts: map<Uuid, Contract>, amendments: map<Uuid, Amendment>)

  /** The wording after the fixed title of either document, and the digest. */
  datatype Templates = Templates(
    contractBody: (Terms, string) -> string,
    amendmentBody: (int, AmendmentTerms, Contract, string) -> string,
    digest: string -> Digest)

  const CONTRACT_TITLE := "CONTRATO DE PRESTACIÓN DE SERVICIOS"
  const AMENDMENT_TITLE := "OTROSÍ N° "
  const CLIENT_REQUEST := "Solicitud originada por el cliente: "

  function ContractText(tpl: Templates, terms: Terms, projectName: string): (text: string)
    ensures text != ""
  {
    var text := CONTRACT_TITLE + tpl.contractBody(terms, projectName);
    assert text[0] == 'C';
    text
  }

  function AmendmentText(tpl: Templates, a: Amendment, c: Contract, projectName: string): (text: string)
    ensures text != ""
  {
    var text := AMENDMENT_TITLE + tpl.amendmentBody(a.number, a.terms, c, projectName);
    assert text[0] == 'O';
    text
  }

  /** JavaScript's test of a nullable text. */
  predicate Falsy(text: Option<string>) {
    text == None || text == Some("")
  }

  // ------------------------------------------------------------------ operations

  /** The actor's role in an active project; administrators need no membership. */
  function Access(s: State, actor: Actor, p: Uuid): Result<Role, Error> {
    if p !in s.projects || s.projects[p].isArchived then Err(NotFound)
    else if actor.role.Admin? then Ok(Admin)
    else if actor.sub !in s.projects[p].members then Err(Forbidden)
    else Ok(s.projects[p].members[actor.sub])
  }

  function StoredTerms(t: Terms): Terms {
    t.(providerTaxId := TrimToOption(t.providerTaxId),
       providerRepresentative := TrimToOption(t.providerRepresentative),
       providerRepresentativeDocument := TrimToOption(t.providerRepresentativeDocument),
       clientDocument := TrimToOption(t.clientDocument),
       clientCompanyName := TrimToOption(t.clientCompanyName),
       clientTaxId := TrimToOption(t.clientTaxId),
       clientRepresentative := TrimToOption(t.clientRepresentative),
       clientRepresentativeDocument := TrimToOption(t.clientRepresentativeDocument),
       clientPhone := TrimToOption(t.clientPhone),
       additionalTerms := TrimToOption(t.additionalTerms))
  }

  function SaveDraft(tpl: Templates, s: State, actor: Actor, p: Uuid, payload: Terms, newId: Uuid): Result<Contract, Error> {
    if !actor.role.Admin? then Err(Forbidden)
    else if Access(s, actor, p).Err? then Err(Access(s, actor, p).error)
    else if p in s.contracts && !s.contracts[p].status.Draft? then Err(BadRequest)
    else
      var text := ContractText(tpl, StoredTerms(payload), s.projects[p].name);
      Ok(Contract(if p in s.contracts then s.contracts[p].id else newId, Draft, StoredTerms(payload),
                  Some(text), Some(tpl.digest(text)), actor.sub, None, None))
  }

  function RequestSignature(tpl: Templates, s: State, actor: Actor, p: Uuid, now: Time): Result<Contract, Error> {
    if !actor.role.Admin? then Err(Forbidden)
    else if Access(s, actor, p).Err? then Err(Access(s, actor, p).error)
    else if p !in s.contracts then Err(NotFound)
    else if !s.contracts[p].status.Draft? then Err(BadRequest)
    else
      var text := ContractText(tpl, s.contracts[p].terms, s.projects[p].name);
      Ok(s.contracts[p].(status := PendingSignature, snapshot := Some(text), hash := Some(tpl.digest(text)),
                         requestedSignatureAt := Some(now)))
  }

  function Sign(tpl: Templates, s: State, actor: Actor, p: Uuid, signerName: string, dataUrl: string, meta: Meta, now: Time)
    : Result<Contract, Error>
  {
    if Access(s, actor, p).Err? then Err(Access(s, actor, p).error)
    else if !actor.role.Client? || !Access(s, actor, p).value.Client? then Err(Forbidden)
    else if p !in s.contracts then Err(NotFound)
    else if !s.contracts[p].status.PendingSignature? then Err(BadRequest)
    else
      var c := s.contracts[p];
      var text := if c.snapshot.Some? then c.snapshot.value else ContractText(tpl, c.terms, s.projects[p].name);
      var hash := if c.hash.Some? then c.hash.value else tpl.digest(text);
      var signed := c.(status := Signed, signature := Some(Signature(actor.sub, signerName, dataUrl, meta, now)));
      if !Falsy(c.snapshot) then Ok(signed)
      else Ok(signed.(snapshot := if text == "" then c.snapshot else Some(text), hash := Some(hash)))
  }

  /** The contract as a member is shown it: a missing text is made up on the fly. */
  function GetContract(tpl: Templates, s: State, actor: Actor, p: Uuid): Result<Option<Contract>, Error> {
    if Access(s, actor, p).Err? then Err(Access(s, actor, p).error)
    else if p !in s.contracts then Ok(None)
    else if !Falsy(s.contracts[p].snapshot) then Ok(Some(s.contracts[p]))
    else
      var text := ContractText(tpl, s.contracts[p].terms, s.projects[p].name);
      Ok(Some(s.contracts[p].(snapshot := Some(text),
                              hash := Some(s.contracts[p].hash.GetOr(tpl.digest(text))))))
  }

  function Numbers(s: State, contractId: Uuid): set<int> {
    set a | a in s.amendments && s.amendments[a].contractId == contractId :: s.amendments[a].number
  }

  function NewAmendment(s: State, p: Uuid, terms: AmendmentTerms, preparedBySub: Uuid): Amendment
    requires p in s.contracts
  {
    var id := s.contracts[p].id;
    Amendment(id, p, MaxOrZero(Numbers(s, id)) + 1, Draft, terms, None, None, preparedBySub, None, None)
  }

  function SaveAmendmentDraft(s: State, actor: Actor, p: Uuid, payload: AmendmentTerms): Result<Amendment, Error> {
    if !actor.role.Admin? then Err(Forbidden)
    else if Access(s, actor, p).Err? then Err(Access(s, actor, p).error)
    else if p !in s.contracts || !s.contracts[p].status.Signed? then Err(BadRequest)
    else
      Ok(NewAmendment(s, p, payload.(additionalTerms := TrimToOption(payload.additionalTerms),
                                     clientRequestNotes := TrimToOption(payload.clientRequestNotes)), actor.sub))
  }

  function RequestClientAmendment(s: State, actor: Actor, p: Uuid, title: string, description: string): Result<Amendment, Error> {
    if Access(s, actor, p).Err? then Err(Access(s, actor, p).error)
    else if p !in s.contracts || !s.contracts[p].status.Signed? then Err(BadRequest)
    else
      Ok(NewAmendment(s, p, AmendmentTerms(title, "services", description, 0, "one_time", 0, None,
                                           Some(CLIENT_REQUEST + description), s.contracts[p].terms.signatureCity), actor.sub))
  }

  predicate AmendmentOf(s: State, p: Uuid, a: Uuid) {
    a in s.amendments && s.amendments[a].projectId == p
  }

  function RequestAmendmentSignature(tpl: Templates, s: State, actor: Actor, p: Uuid, a: Uuid, now: Time)
    : Result<Amendment, Error>
  {
    if !actor.role.Admin? then Err(Forbidden)
    else if Access(s, actor, p).Err? then Err(Access(s, actor, p).error)
    else if p !in s.contracts || !s.contracts[p].status.Signed? then Err(BadRequest)
    else if !AmendmentOf(s, p, a) then Err(NotFound)
    else if !s.amendments[a].status.Draft? then Err(BadRequest)
    else
      var text := AmendmentText(tpl, s.amendments[a], s.contracts[p], s.projects[p].name);
      Ok(s.amendments[a].(status := PendingSignature, snapshot := Some(text), hash := Some(tpl.digest(text)),
                          requestedSignatureAt := Some(now)))
  }

  function SignAmendment(s: State, actor: Actor, p: Uuid, a: Uuid, signerName: string, dataUrl: string, meta: Meta, now: Time)
    : Result<Amendment, Error>
  {
    if Access(s, actor, p).Err? then Err(Access(s, actor, p).error)
    else if !actor.role.Client? || !Access(s, actor, p).value.Client? then Err(Forbidden)
    else if !AmendmentOf(s, p, a) then Err(NotFound)
    else if !s.amendments[a].status.PendingSignature? || Falsy(s.amendments[a].snapshot) || s.amendments[a].hash.None? then
      Err(BadRequest)
    else
      Ok(s.amendments[a].(status := Signed, signature := Some(Signature(actor.sub, signerName, dataUrl, meta, now))))
  }

  // ------------------------------------------------------------------------ runs

  datatype Op =
    | OpSaveDraft(actor: Actor, p: Uuid, payload: Terms, newId: Uuid)
    | OpRequest(actor: Actor, p: Uuid, now: Time)
    | OpSign(actor: Actor, p: Uuid, signerName: string, dataUrl: string, meta: Meta, now: Time)
    | OpSaveAmendment(actor: Actor, p: Uuid, terms: AmendmentTerms, newId: Uuid)
    | OpAskAmendment(actor: Actor, p: Uuid, title: string, description: string, newId: Uuid)
    | OpRequestAmendment(actor: Actor, p: Uuid, a: Uuid, now: Time)
    | OpSignAmendment(actor: Actor, p: Uuid, a: Uuid, signerName: string, dataUrl: string, meta: Meta, now: Time)
    | OpChangeProject(p: Uuid, project: Project)

  function PutContract(s: State, p: Uuid, r: Result<Contract, Error>): State {
    if r.Ok? then s.(contracts := s.contracts[p := r.value]) else s
  }

  function PutAmendment(s: State, a: Uuid, r: Result<Amendment, Error>): State {
    if r.Ok? then s.(amendments := s.amendments[a := r.value]) else s
  }

  /** A row cannot be inserted under an id that is taken. */
  function InsertAmendment(s: State, a: Uuid, r: Result<Amendment, Error>): State {
    if a in s.amendments then s else PutAmendment(s, a, r)
  }

  /** Renaming, archiving and changing the members of a project come from other services, at any time. */
  function Next(tpl: Templates, s: State, op: Op): State {
    match op
    case OpSaveDraft(actor, p, payload, newId) => PutContract(s, p, SaveDraft(tpl, s, actor, p, payload, newId))
    case OpRequest(actor, p, now) => PutContract(s, p, RequestSignature(tpl, s, actor, p, now))
    case OpSign(actor, p, name, url, meta, now) => PutContract(s, p, Sign(tpl, s, actor, p, name, url, meta, now))
    case OpSaveAmendment(actor, p, terms, newId) => InsertAmendment(s, newId, SaveAmendmentDraft(s, actor, p, terms))
    case OpAskAmendment(actor, p, title, text, newId) =>
      InsertAmendment(s, newId, RequestClientAmendment(s, actor, p, title, text))
    case OpRequestAmendment(actor, p, a, now) => PutAmendment(s, a, RequestAmendmentSignature(tpl, s, actor, p, a, now))
    case OpSignAmendment(actor, p, a, name, url, meta, now) =>
      PutAmendment(s, a, SignAmendment(s, actor, p, a, name, url, meta, now))
    case OpChangeProject(p, project) => s.(projects := s.projects[p := project])
  }

  function Run(tpl: Templates, s: State, ops: seq<Op>): State
    decreases |ops|
  {
    if ops == [] then s else Run(tpl, Next(tpl, s, ops[0]), ops[1..])
  }

  function Rank(status: Status): nat {
    match status case Draft => 0 case PendingSignature => 1 case Signed => 2
  }

  // ------------------------------------------------------------------ invariants

  /** A text and its digest agree; rows from before the snapshots have neither. */
  predicate Sealed(tpl: Templates, snapshot: Option<string>, hash: Option<Digest>) {
    match snapshot
    case Some(text) => text != "" && hash == Some(tpl.digest(text))
    case None => hash == None
  }

  predicate ContractsInOrder(tpl: Templates, s: State) {
    forall p :: p in s.contracts ==>
      && Sealed(tpl, s.contracts[p].snapshot, s.contracts[p].hash)
      && (s.contracts[p].status.Signed? <==> s.contracts[p].signature.Some?)
  }

  predicate AmendmentsInOrder(tpl: Templates, s: State) {
    forall a :: a in s.amendments ==>
      var m := s.amendments[a];
      && Sealed(tpl, m.snapshot, m.hash)
      && (m.status.Draft? <==> m.snapshot.None?)
      && (m.status.Signed? <==> m.signature.Some?)
  }

  predicate AmendmentsBelong(s: State) {
    forall a :: a in s.amendments ==>
      var p := s.amendments[a].projectId;
      p in s.contracts && s.contracts[p].status.Signed? && s.contracts[p].id == s.amendments[a].contractId
  }

  predicate Inv(tpl: Templates, s: State) {
    ContractsInOrder(tpl, s) && AmendmentsInOrder(tpl, s) && AmendmentsBelong(s)
  }

  lemma StepKeepsContracts(tpl: Templates, s: State, op: Op)
    requires ContractsInOrder(tpl, s)
    ensures ContractsInOrder(tpl, Next(tpl, s, op))
  {
  }

  lemma StepKeepsAmendments(tpl: Templates, s: State, op: Op)
    requires AmendmentsInOrder(tpl, s)
    ensures AmendmentsInOrder(tpl, Next(tpl, s, op))
  {
  }

  lemma StepKeepsBelonging(tpl: Templates, s: State, op: Op)
    requires AmendmentsBelong(s)
    ensures AmendmentsBelong(Next(tpl, s, op))
  {
  }

  lemma StepKeeps(tpl: Templates, s: State, op: Op)
    requires Inv(tpl, s)
    ensures Inv(tpl, Next(tpl, s, op))
  {
    StepKeepsContracts(tpl, s, op);
    StepKeepsAmendments(tpl, s, op);
    StepKeepsBelonging(tpl, s, op);
  }

  lemma {:induction false} RunKeeps(tpl: Templates, s: State, ops: seq<Op>)
    requires Inv(tpl, s)
    ensures Inv(tpl, Run(tpl, s, ops))
    decreases |ops|
  {
    if ops != [] {
      StepKeeps(tpl, s, ops[0]);
      RunKeeps(tpl, Next(tpl, s, ops[0]), ops[1..]);
    }
  }

  // ---------------------------------------------------------------- main results

  /** What may become of a contract: a draft is rewritten or frozen, a frozen text is signed as it is, and that is the end. */
  predicate MayBecome(c: Contract, d: Contract) {
    && c.id == d.id && Rank(c.status) <= Rank(d.status)
    && (!c.status.Draft? ==> d.terms == c.terms && d.requestedSignatureAt == c.requestedSignatureAt)
    && (!c.status.Draft? && c.snapshot.Some? ==> d.snapshot == c.snapshot && d.hash == c.hash)
    && (c.status.Signed? ==> d == c)
  }

  lemma StepAdvances(tpl: Templates, s: State, op: Op, p: Uuid)
    requires ContractsInOrder(tpl, s) && p in s.contracts
    ensures p in Next(tpl, s, op).contracts && MayBecome(s.contracts[p], Next(tpl, s, op).contracts[p])
  {
  }

  lemma {:induction false} ContractOnlyAdvances(tpl: Templates, s: State, ops: seq<Op>, p: Uuid)
    requires ContractsInOrder(tpl, s) && p in s.contracts
    ensures p in Run(tpl, s, ops).contracts && MayBecome(s.contracts[p], Run(tpl, s, ops).contracts[p])
    decreases |ops|
  {
    if ops != [] {
      StepAdvances(tpl, s, ops[0], p);
      StepKeepsContracts(tpl, s, ops[0]);
      ContractOnlyAdvances(tpl, Next(tpl, s, ops[0]), ops[1..], p);
    }
  }

  lemma OnlyARequestFreezes(tpl: Templates, s: State, op: Op, p: Uuid)
    requires p in s.contracts ==> s.contracts[p].status.Draft?
    requires p in Next(tpl, s, op).contracts && !Next(tpl, s, op).contracts[p].status.Draft?
    ensures op.OpRequest? && op.p == p && op.actor.role.Admin? && p in s.contracts && p in s.projects
    ensures var d := Next(tpl, s, op).contracts[p];
            && d.terms == s.contracts[p].terms
            && d.snapshot == Some(ContractText(tpl, d.terms, s.projects[p].name)) && d.hash == Some(tpl.digest(d.snapshot.value))
  {
  }

  /** A signed contract got its text at a signature request: it is the template applied to the terms stored and the project's
   *  name at that moment, and neither text nor terms nor digest has changed since. */
  lemma {:induction false} SignedTextIsTheRequestedText(tpl: Templates, s: State, ops: seq<Op>, p: Uuid) returns (k: nat)
    requires ContractsInOrder(tpl, s) && (p in s.contracts ==> s.contracts[p].status.Draft?)
    requires p in Run(tpl, s, ops).contracts && !Run(tpl, s, ops).contracts[p].status.Draft?
    ensures k < |ops| && ops[k].OpRequest? && ops[k].p == p && ops[k].actor.role.Admin?
    ensures var asked, end := Run(tpl, s, ops[..k]), Run(tpl, s, ops);
            && p in asked.contracts && p in asked.projects && asked.contracts[p].status.Draft?
            && end.contracts[p].terms == asked.contracts[p].terms
            && end.contracts[p].snapshot == Some(ContractText(tpl, asked.contracts[p].terms, asked.projects[p].name))
            && end.contracts[p].hash == Some(tpl.digest(end.contracts[p].snapshot.value))
    decreases |ops|
  {
    var next := Next(tpl, s, ops[0]);
    StepKeepsContracts(tpl, s, ops[0]);
    if p in next.contracts && !next.contracts[p].status.Draft? {
      k := 0;
      assert ops[..0] == [];
      OnlyARequestFreezes(tpl, s, ops[0], p);
      ContractOnlyAdvances(tpl, next, ops[1..], p);
    } else {
      var j := SignedTextIsTheRequestedText(tpl, next, ops[1..], p);
      k := j + 1;
      assert ops[..k][0] == ops[0] && ops[..k][1..] == ops[1..][..j];
    }
  }

  /** Only a client who is a client member of the active project signs, and under his own name. */
  lemma OnlyTheClientSigns(tpl: Templates, s: State, op: Op, p: Uuid)
    requires p in Next(tpl, s, op).contracts && Next(tpl, s, op).contracts[p].status.Signed?
    requires p in s.contracts ==> !s.contracts[p].status.Signed?
    ensures op.OpSign? && op.p == p && op.actor.role.Client? && p in s.projects && !s.projects[p].isArchived
    ensures op.actor.sub in s.projects[p].members && s.projects[p].members[op.actor.sub].Client?
    ensures Next(tpl, s, op).contracts[p].signature ==
            Some(Signature(op.actor.sub, op.signerName, op.dataUrl, op.meta, op.now))
  {
  }

  /** The text a client is shown is the text that signing stores, even for a row without one. */
  lemma ShownTextIsTheSignedText(tpl: Templates, s: State, actor: Actor, p: Uuid, name: string, url: string, meta: Meta, now: Time)
    requires ContractsInOrder(tpl, s) && Sign(tpl, s, actor, p, name, url, meta, now).Ok?
    ensures GetContract(tpl, s, actor, p).Ok? && GetContract(tpl, s, actor, p).value.Some?
    ensures var shown, signed := GetContract(tpl, s, actor, p).value.value, Sign(tpl, s, actor, p, name, url, meta, now).value;
            && signed.snapshot == shown.snapshot && signed.hash == shown.hash && signed.terms == shown.terms
            && shown.snapshot.Some? && Sealed(tpl, shown.snapshot, shown.hash)
  {
  }

  /** Without the signature of the contract there are no amendments, whatever happens. */
  lemma {:induction false} AmendmentsBelongToSignedContracts(tpl: Templates, s: State, ops: seq<Op>, a: Uuid)
    requires Inv(tpl, s) && a in Run(tpl, s, ops).amendments
    ensures var end := Run(tpl, s, ops);
            var m := end.amendments[a];
            && m.projectId in end.contracts && end.contracts[m.projectId].status.Signed?
            && end.contracts[m.projectId].id == m.contractId
            && Sealed(tpl, m.snapshot, m.hash) && (m.status.Draft? <==> m.snapshot.None?)
  {
    RunKeeps(tpl, s, ops);
  }

  /** An amendment's number, contract and terms never change, and its status only advances. */
  predicate AmendmentMayBecome(m: Amendment, n: Amendment) {
    && m.contractId == n.contractId && m.projectId == n.projectId && m.number == n.number && m.terms == n.terms
    && m.preparedBySub == n.preparedBySub && Rank(m.status) <= Rank(n.status)
    && (!m.status.Draft? ==> n.snapshot == m.snapshot && n.hash == m.hash && n.requestedSignatureAt == m.requestedSignatureAt)
    && (m.status.Signed? ==> n == m)
  }

  lemma AmendmentStepAdvances(tpl: Templates, s: State, op: Op, a: Uuid)
    requires a in s.amendments
    ensures a in Next(tpl, s, op).amendments && AmendmentMayBecome(s.amendments[a], Next(tpl, s, op).amendments[a])
  {
  }

  lemma {:induction false} AmendmentOnlyAdvances(tpl: Templates, s: State, ops: seq<Op>, a: Uuid)
    requires a in s.amendments
    ensures a in Run(tpl, s, ops).amendments && AmendmentMayBecome(s.amendments[a], Run(tpl, s, ops).amendments[a])
    decreases |ops|
  {
    if ops != [] {
      AmendmentStepAdvances(tpl, s, ops[0], a);
      AmendmentOnlyAdvances(tpl, Next(tpl, s, ops[0]), ops[1..], a);
    }
  }

  lemma OnlyARequestFreezesAnAmendment(tpl: Templates, s: State, op: Op, a: Uuid)
    requires a in s.amendments ==> s.amendments[a].status.Draft?
    requires a in Next(tpl, s, op).amendments && !Next(tpl, s, op).amendments[a].status.Draft?
    ensures op.OpRequestAmendment? && op.a == a && op.actor.role.Admin?
    ensures var p, next := op.p, Next(tpl, s, op);
            && p in s.projects && p in s.contracts && next.contracts == s.contracts && s.contracts[p].status.Signed?
            && next.amendments[a].projectId == p
            && next.amendments[a].snapshot == Some(AmendmentText(tpl, next.amendments[a], s.contracts[p], s.projects[p].name))
  {
  }

  /** A frozen amendment is the template applied to its terms, to the contract as it was and still is, and to the project's
   *  name when its signature was requested. */
  lemma {:induction false} FrozenAmendmentIsTheRequestedText(tpl: Templates, s: State, ops: seq<Op>, a: Uuid) returns (k: nat)
    requires Inv(tpl, s) && (a in s.amendments ==> s.amendments[a].status.Draft?)
    requires a in Run(tpl, s, ops).amendments && !Run(tpl, s, ops).amendments[a].status.Draft?
    ensures k < |ops| && ops[k].OpRequestAmendment? && ops[k].a == a
    ensures var asked, end := Run(tpl, s, ops[..k]), Run(tpl, s, ops);
            var p := end.amendments[a].projectId;
            && p in asked.projects && p in asked.contracts && p in end.contracts
            && asked.contracts[p] == end.contracts[p]
            && end.amendments[a].snapshot == Some(AmendmentText(tpl, end.amendments[a], end.contracts[p], asked.projects[p].name))
    decreases |ops|
  {
    var next := Next(tpl, s, ops[0]);
    StepKeeps(tpl, s, ops[0]);
    if a in next.amendments && !next.amendments[a].status.Draft? {
      k := 0;
      assert ops[..0] == [];
      OnlyARequestFreezesAnAmendment(tpl, s, ops[0], a);
      AmendmentOnlyAdvances(tpl, next, ops[1..], a);
      ContractOnlyAdvances(tpl, next, ops[1..], next.amendments[a].projectId);
    } else {
      var j := FrozenAmendmentIsTheRequestedText(tpl, next, ops[1..], a);
      k := j + 1;
      assert ops[..k][0] == ops[0] && ops[..k][1..] == ops[1..][..j];
    }
  }
}
