/** Who may do what to a contract and its amendments, and when: each operation succeeds exactly under its conditions, so that the
 *  life cycle can be completed as well as only advance. */
module ContractRules {
  import opened Prelude
  import opened Text
  import opened Contracts

  /** The project is there and not archived, and the actor is an administrator or one of its members. */
  predicate MayEnter(s: State, actor: Actor, p: Uuid) {
    p in s.projects && !s.projects[p].isArchived && (actor.role == Admin || actor.sub in s.projects[p].members)
  }

  predicate HasSignedContract(s: State, p: Uuid) {
    p in s.contracts && s.contracts[p].status == Signed
  }

  /** The actor acts as a client and is a client member of the project. */
  predicate IsItsClient(s: State, actor: Actor, p: Uuid) {
    MayEnter(s, actor, p) && actor.role == Client && s.projects[p].members[actor.sub] == Client
  }

  /** An administrator writes a draft while there is no contract or a draft; the text of the terms is frozen with it each time, and
   *  an earlier draft keeps its identity. */
  lemma DraftIsSavedExactlyWhen(tpl: Templates, s: State, actor: Actor, p: Uuid, payload: Terms, newId: Uuid)
    ensures SaveDraft(tpl, s, actor, p, payload, newId).Ok? <==>
      MayEnter(s, actor, p) && actor.role == Admin && (p in s.contracts ==> s.contracts[p].status == Draft)
    ensures SaveDraft(tpl, s, actor, p, payload, newId).Ok? ==>
      var c := SaveDraft(tpl, s, actor, p, payload, newId).value;
      && c.status == Draft && c.id == (if p in s.contracts then s.contracts[p].id else newId)
      && c.preparedBySub == actor.sub && c.requestedSignatureAt == None && c.signature == None && c.terms == StoredTerms(payload)
      && c.snapshot == Some("CONTRATO DE PRESTACIÓN DE SERVICIOS" + tpl.contractBody(c.terms, s.projects[p].name))
      && c.hash == Some(tpl.digest(c.snapshot.value))
  {
  }

  function OptionalTexts(t: Terms): seq<Option<string>> {
    [t.providerTaxId, t.providerRepresentative, t.providerRepresentativeDocument, t.clientDocument, t.clientCompanyName,
     t.clientTaxId, t.clientRepresentative, t.clientRepresentativeDocument, t.clientPhone, t.additionalTerms]
  }

  function WithoutOptionalTexts(t: Terms): Terms {
    t.(providerTaxId := None, providerRepresentative := None, providerRepresentativeDocument := None, clientDocument := None,
       clientCompanyName := None, clientTaxId := None, clientRepresentative := None, clientRepresentativeDocument := None,
       clientPhone := None, additionalTerms := None)
  }

  /** The terms stored are the terms given, each optional text trimmed, or absent when it says nothing. */
  lemma StoredTermsSayTheSame(t: Terms)
    ensures WithoutOptionalTexts(StoredTerms(t)) == WithoutOptionalTexts(t)
    ensures forall i :: 0 <= i < 10 ==>
      var given, stored := OptionalTexts(t)[i], OptionalTexts(StoredTerms(t))[i];
      stored == if given.Some? && NonBlank(given.value) then Some(Trim(given.value)) else None
  {
    forall i | 0 <= i < 10
      ensures OptionalTexts(StoredTerms(t))[i] == TrimToOption(OptionalTexts(t)[i])
      ensures TrimToOption(OptionalTexts(t)[i]).Some? <==> OptionalTexts(t)[i].Some? && NonBlank(OptionalTexts(t)[i].value)
    {
      StoredTextIsNonBlank(OptionalTexts(t)[i]);
    }
  }

  lemma SignatureIsRequestedExactlyWhen(tpl: Templates, s: State, actor: Actor, p: Uuid, now: Time)
    ensures RequestSignature(tpl, s, actor, p, now).Ok? <==>
      MayEnter(s, actor, p) && actor.role == Admin && p in s.contracts && s.contracts[p].status == Draft
    ensures RequestSignature(tpl, s, actor, p, now).Ok? ==>
      var c := RequestSignature(tpl, s, actor, p, now).value;
      c.status == PendingSignature && c.requestedSignatureAt == Some(now) && c.id == s.contracts[p].id && c.terms == s.contracts[p].terms
  {
  }

  lemma ContractIsSignedExactlyWhen(tpl: Templates, s: State, actor: Actor, p: Uuid, name: string, url: string, meta: Meta, now: Time)
    ensures Sign(tpl, s, actor, p, name, url, meta, now).Ok? <==>
      IsItsClient(s, actor, p) && p in s.contracts && s.contracts[p].status == PendingSignature
    ensures Sign(tpl, s, actor, p, name, url, meta, now).Ok? ==>
      var c := Sign(tpl, s, actor, p, name, url, meta, now).value;
      && c.status == Signed && c.signature == Some(Signature(actor.sub, name, url, meta, now))
      && c.id == s.contracts[p].id && c.terms == s.contracts[p].terms && c.preparedBySub == s.contracts[p].preparedBySub
  {
  }

  /** Everybody who may enter sees the contract, if there is one; a stored text is shown as it is. */
  lemma ContractIsShownExactlyWhen(tpl: Templates, s: State, actor: Actor, p: Uuid)
    ensures GetContract(tpl, s, actor, p).Ok? <==> MayEnter(s, actor, p)
    ensures GetContract(tpl, s, actor, p).Ok? ==>
      && (GetContract(tpl, s, actor, p).value.Some? <==> p in s.contracts)
      && (p in s.contracts && s.contracts[p].snapshot.Some? && s.contracts[p].snapshot.value != "" ==>
            GetContract(tpl, s, actor, p).value == Some(s.contracts[p]))
  {
  }

  /** From any draft in a project with a client, request and signature complete the life cycle. */
  lemma DraftCanBeSigned(tpl: Templates, s: State, p: Uuid, admin: Actor, client: Actor, name: string, url: string, meta: Meta, now: Time)
    requires p in s.contracts && s.contracts[p].status == Draft && admin.role == Admin && MayEnter(s, admin, p) && IsItsClient(s, client, p)
    ensures HasSignedContract(Run(tpl, s, [OpRequest(admin, p, now), OpSign(client, p, name, url, meta, now)]), p)
  {
    var ops := [OpRequest(admin, p, now), OpSign(client, p, name, url, meta, now)];
    var asked := Next(tpl, s, ops[0]);
    assert ops[1..] == [ops[1]] && ops[1..][1..] == [];
    assert Run(tpl, s, ops) == Run(tpl, asked, ops[1..]);
    assert Run(tpl, asked, ops[1..]) == Run(tpl, Next(tpl, asked, ops[1]), []);
  }

  /** Amendments are drafted by an administrator or asked for by whoever may enter, once the contract is signed; they take the
   *  next number. */
  lemma AmendmentIsDraftedExactlyWhen(s: State, actor: Actor, p: Uuid, payload: AmendmentTerms)
    ensures SaveAmendmentDraft(s, actor, p, payload).Ok? <==> MayEnter(s, actor, p) && actor.role == Admin && HasSignedContract(s, p)
    ensures SaveAmendmentDraft(s, actor, p, payload).Ok? ==>
      var m := SaveAmendmentDraft(s, actor, p, payload).value;
      && IsNewDraft(s, p, actor, m)
      && m.terms == payload.(additionalTerms := TrimToOption(payload.additionalTerms), clientRequestNotes := TrimToOption(payload.clientRequestNotes))
  {
  }

  lemma AmendmentIsAskedForExactlyWhen(s: State, actor: Actor, p: Uuid, title: string, description: string)
    ensures RequestClientAmendment(s, actor, p, title, description).Ok? <==> MayEnter(s, actor, p) && HasSignedContract(s, p)
    ensures RequestClientAmendment(s, actor, p, title, description).Ok? ==>
      var m := RequestClientAmendment(s, actor, p, title, description).value;
      && IsNewDraft(s, p, actor, m) && m.terms.title == title && m.terms.serviceScope == description && m.terms.additionalFee == 0
      && m.terms.termMonthsExtension == 0 && m.terms.signatureCity == s.contracts[p].terms.signatureCity
      && m.terms.clientRequestNotes == Some("Solicitud originada por el cliente: " + description)
  {
  }

  /** A draft for the contract of the project, by this person, without text or signature, and numbered above all others. */
  predicate IsNewDraft(s: State, p: Uuid, actor: Actor, m: Amendment)
    requires p in s.contracts
  {
    && m.contractId == s.contracts[p].id && m.projectId == p && m.status == Draft && m.preparedBySub == actor.sub
    && m.snapshot == None && m.hash == None && m.signature == None && m.requestedSignatureAt == None
    && m.number == 1 + MaxOrZero(set a | a in s.amendments && s.amendments[a].contractId == m.contractId :: s.amendments[a].number)
  }

  lemma AmendmentSignatureIsRequestedExactlyWhen(tpl: Templates, s: State, actor: Actor, p: Uuid, a: Uuid, now: Time)
    ensures RequestAmendmentSignature(tpl, s, actor, p, a, now).Ok? <==>
      && MayEnter(s, actor, p) && actor.role == Admin && HasSignedContract(s, p)
      && a in s.amendments && s.amendments[a].projectId == p && s.amendments[a].status == Draft
    ensures RequestAmendmentSignature(tpl, s, actor, p, a, now).Ok? ==>
      var m := RequestAmendmentSignature(tpl, s, actor, p, a, now).value;
      m.status == PendingSignature && m.requestedSignatureAt == Some(now) && m.number == s.amendments[a].number && m.terms == s.amendments[a].terms
      && m.snapshot == Some("OTROSÍ N° " + tpl.amendmentBody(m.number, m.terms, s.contracts[p], s.projects[p].name))
  {
  }

  /** Signing an amendment needs its client, and a text and digest to sign. */
  lemma AmendmentIsSignedExactlyWhen(s: State, actor: Actor, p: Uuid, a: Uuid, name: string, url: string, meta: Meta, now: Time)
    ensures SignAmendment(s, actor, p, a, name, url, meta, now).Ok? <==>
      && IsItsClient(s, actor, p) && a in s.amendments && s.amendments[a].projectId == p && s.amendments[a].status == PendingSignature
      && s.amendments[a].snapshot.Some? && s.amendments[a].snapshot.value != "" && s.amendments[a].hash.Some?
    ensures SignAmendment(s, actor, p, a, name, url, meta, now).Ok? ==>
      var m := SignAmendment(s, actor, p, a, name, url, meta, now).value;
      m == s.amendments[a].(status := Signed, signature := Some(Signature(actor.sub, name, url, meta, now)))
  {
  }
}
