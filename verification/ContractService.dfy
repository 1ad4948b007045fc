/** The contract operations as the services run them: guards read the rows, then the repository updates one of them. */
module ContractService {
  import opened Prelude
  import opened Text
  import opened Contracts

  class ContractTables {
    const tpl: Templates
    var projects: map<Uuid, Project>
    var contracts: map<Uuid, Contract>
    var amendments: map<Uuid, Amendment>

    ghost function Now(): State
      reads this
    {
      State(projects, contracts, amendments)
    }

    constructor (tpl: Templates, projects: map<Uuid, Project>, contracts: map<Uuid, Contract>, amendments: map<Uuid, Amendment>)
      ensures this.tpl == tpl && Now() == State(projects, contracts, amendments)
    {
      this.tpl, this.projects, this.contracts, this.amendments := tpl, projects, contracts, amendments;
    }

    method AssertProjectAccess(actor: Actor, p: Uuid) returns (r: Result<Role, Error>)
      ensures r == Access(Now(), actor, p)
    {
      if p !in projects || projects[p].isArchived {
        return Err(NotFound);
      }
      if actor.role.Admin? {
        return Ok(Admin);
      }
      var members := projects[p].members;
      if actor.sub !in members {
        return Err(Forbidden);
      }
      return Ok(members[actor.sub]);
    }

    /** Inserts the project's contract, or overwrites everything but its id. */
    method UpsertDraft(p: Uuid, payload: Contract) returns (row: Contract)
      modifies this`contracts
      ensures contracts == old(contracts)[p := row]
      ensures row == if p in old(contracts) then payload.(id := old(contracts)[p].id) else payload
    {
      row := if p in contracts then payload.(id := contracts[p].id) else payload;
      contracts := contracts[p := row];
    }

    method SaveDraft(actor: Actor, p: Uuid, payload: Terms, newId: Uuid) returns (r: Result<Contract, Error>)
      modifies this`contracts
      ensures r == Contracts.SaveDraft(tpl, old(Now()), actor, p, payload, newId)
      ensures Now() == PutContract(old(Now()), p, r)
    {
      if !actor.role.Admin? {
        return Err(Forbidden);
      }
      var access := AssertProjectAccess(actor, p);
      if access.Err? {
        return Err(access.error);
      }
      if p in contracts && contracts[p].status.Signed? {
        return Err(BadRequest);
      }
      if p in contracts && contracts[p].status.PendingSignature? {
        return Err(BadRequest);
      }
      var terms := StoredTerms(payload);
      var text := ContractText(tpl, terms, projects[p].name);
      var row := UpsertDraft(p, Contract(newId, Draft, terms, Some(text), Some(tpl.digest(text)), actor.sub, None, None));
      return Ok(row);
    }

    method RequestSignature(actor: Actor, p: Uuid, now: Time) returns (r: Result<Contract, Error>)
      modifies this`contracts
      ensures r == Contracts.RequestSignature(tpl, old(Now()), actor, p, now)
      ensures Now() == PutContract(old(Now()), p, r)
    {
      if !actor.role.Admin? {
        return Err(Forbidden);
      }
      var access := AssertProjectAccess(actor, p);
      if access.Err? {
        return Err(access.error);
      }
      if p !in contracts {
        return Err(NotFound);
      }
      if !contracts[p].status.Draft? {
        return Err(BadRequest);
      }
      var text := ContractText(tpl, contracts[p].terms, projects[p].name);
      var row := contracts[p].(status := PendingSignature, snapshot := Some(text), hash := Some(tpl.digest(text)),
                               requestedSignatureAt := Some(now));
      contracts := contracts[p := row];
      return Ok(row);
    }

    /** Updates the row; text and digest only when they are given, and the text only when it is not empty. */
    method MarkSigned(p: Uuid, signature: Signature, text: Option<string>, hash: Option<Digest>) returns (row: Contract)
      requires p in contracts
      modifies this`contracts
      ensures row == old(contracts)[p].(status := Signed, signature := Some(signature),
        snapshot := if Falsy(text) then old(contracts)[p].snapshot else text,
        hash := if hash.None? then old(contracts)[p].hash else hash)
      ensures contracts == old(contracts)[p := row]
    {
      row := contracts[p].(status := Signed, signature := Some(signature));
      if !Falsy(text) {
        row := row.(snapshot := text);
      }
      if hash.Some? {
        row := row.(hash := hash);
      }
      contracts := contracts[p := row];
    }

    method Sign(actor: Actor, p: Uuid, signerName: string, dataUrl: string, meta: Meta, now: Time)
      returns (r: Result<Contract, Error>)
      modifies this`contracts
      ensures r == Contracts.Sign(tpl, old(Now()), actor, p, signerName, dataUrl, meta, now)
      ensures Now() == PutContract(old(Now()), p, r)
    {
      var access := AssertProjectAccess(actor, p);
      if access.Err? {
        return Err(access.error);
      }
      if !actor.role.Client? || !access.value.Client? {
        return Err(Forbidden);
      }
      if p !in contracts {
        return Err(NotFound);
      }
      var current := contracts[p];
      if !current.status.PendingSignature? {
        return Err(BadRequest);
      }
      var text := current.snapshot.GetOr(ContractText(tpl, current.terms, projects[p].name));
      var hash := current.hash.GetOr(tpl.digest(text));
      var missing := Falsy(current.snapshot);
      var row := MarkSigned(p, Signature(actor.sub, signerName, dataUrl, meta, now),
                            if missing then Some(text) else None, if missing then Some(hash) else None);
      return Ok(row);
    }

    /** One more than the highest number among the contract's amendments. */
    method GetNextAmendmentNumber(contractId: Uuid) returns (next: int)
      ensures next == MaxOrZero(Numbers(Now(), contractId)) + 1
    {
      var rest := amendments.Keys;
      var highest: Option<int> := None;
      while rest != {}
        invariant rest <= amendments.Keys
        invariant highest.Some? ==> highest.value in Numbers(Now(), contractId)
        invariant forall a :: a in amendments && a !in rest && amendments[a].contractId == contractId ==>
          highest.Some? && amendments[a].number <= highest.value
      {
        var a :| a in rest;
        rest := rest - {a};
        if amendments[a].contractId == contractId {
          if highest.None? || amendments[a].number > highest.value {
            highest := Some(amendments[a].number);
          }
        }
      }
      next := highest.GetOr(0) + 1;
    }

    method InsertDraft(id: Uuid, p: Uuid, terms: AmendmentTerms, preparedBySub: Uuid) returns (row: Amendment)
      requires id !in amendments && p in contracts
      modifies this`amendments
      ensures row == NewAmendment(old(Now()), p, terms, preparedBySub)
      ensures amendments == old(amendments)[id := row]
    {
      var number := GetNextAmendmentNumber(contracts[p].id);
      row := Amendment(contracts[p].id, p, number, Draft, terms, None, None, preparedBySub, None, None);
      amendments := amendments[id := row];
    }

    method SaveAmendmentDraft(actor: Actor, p: Uuid, payload: AmendmentTerms, id: Uuid) returns (r: Result<Amendment, Error>)
      requires id !in amendments
      modifies this`amendments
      ensures r == Contracts.SaveAmendmentDraft(old(Now()), actor, p, payload)
      ensures Now() == InsertAmendment(old(Now()), id, r)
    {
      if !actor.role.Admin? {
        return Err(Forbidden);
      }
      var access := AssertProjectAccess(actor, p);
      if access.Err? {
        return Err(access.error);
      }
      if p !in contracts || !contracts[p].status.Signed? {
        return Err(BadRequest);
      }
      var terms := payload.(additionalTerms := TrimToOption(payload.additionalTerms),
                            clientRequestNotes := TrimToOption(payload.clientRequestNotes));
      var row := InsertDraft(id, p, terms, actor.sub);
      return Ok(row);
    }

    method RequestClientAmendment(actor: Actor, p: Uuid, title: string, description: string, id: Uuid)
      returns (r: Result<Amendment, Error>)
      requires id !in amendments
      modifies this`amendments
      ensures r == Contracts.RequestClientAmendment(old(Now()), actor, p, title, description)
      ensures Now() == InsertAmendment(old(Now()), id, r)
    {
      var access := AssertProjectAccess(actor, p);
      if access.Err? {
        return Err(access.error);
      }
      if p !in contracts || !contracts[p].status.Signed? {
        return Err(BadRequest);
      }
      var terms := AmendmentTerms(title, "services", description, 0, "one_time", 0, None,
                                  Some(CLIENT_REQUEST + description), contracts[p].terms.signatureCity);
      var row := InsertDraft(id, p, terms, actor.sub);
      return Ok(row);
    }

    method RequestAmendmentSignature(actor: Actor, p: Uuid, a: Uuid, now: Time) returns (r: Result<Amendment, Error>)
      modifies this`amendments
      ensures r == Contracts.RequestAmendmentSignature(tpl, old(Now()), actor, p, a, now)
      ensures Now() == PutAmendment(old(Now()), a, r)
    {
      if !actor.role.Admin? {
        return Err(Forbidden);
      }
      var access := AssertProjectAccess(actor, p);
      if access.Err? {
        return Err(access.error);
      }
      if p !in contracts || !contracts[p].status.Signed? {
        return Err(BadRequest);
      }
      if a !in amendments || amendments[a].projectId != p {
        return Err(NotFound);
      }
      if !amendments[a].status.Draft? {
        return Err(BadRequest);
      }
      var text := AmendmentText(tpl, amendments[a], contracts[p], projects[p].name);
      var row := amendments[a].(status := PendingSignature, snapshot := Some(text), hash := Some(tpl.digest(text)),
                                requestedSignatureAt := Some(now));
      amendments := amendments[a := row];
      return Ok(row);
    }

    method SignAmendment(actor: Actor, p: Uuid, a: Uuid, signerName: string, dataUrl: string, meta: Meta, now: Time)
      returns (r: Result<Amendment, Error>)
      modifies this`amendments
      ensures r == Contracts.SignAmendment(old(Now()), actor, p, a, signerName, dataUrl, meta, now)
      ensures Now() == PutAmendment(old(Now()), a, r)
    {
      var access := AssertProjectAccess(actor, p);
      if access.Err? {
        return Err(access.error);
      }
      if !actor.role.Client? || !access.value.Client? {
        return Err(Forbidden);
      }
      if a !in amendments || amendments[a].projectId != p {
        return Err(NotFound);
      }
      var current := amendments[a];
      if !current.status.PendingSignature? || Falsy(current.snapshot) || current.hash.None? {
        return Err(BadRequest);
      }
      var row := current.(status := Signed, signature := Some(Signature(actor.sub, signerName, dataUrl, meta, now)));
      amendments := amendments[a := row];
      return Ok(row);
    }

    /** Runs one operation; changes of projects come from outside. */
    method Perform(op: Op)
      modifies this
      ensures Now() == Contracts.Next(tpl, old(Now()), op)
    {
      match op
      case OpSaveDraft(actor, p, payload, newId) => var _ := SaveDraft(actor, p, payload, newId);
      case OpRequest(actor, p, now) => var _ := RequestSignature(actor, p, now);
      case OpSign(actor, p, name, url, meta, now) => var _ := Sign(actor, p, name, url, meta, now);
      case OpSaveAmendment(actor, p, terms, newId) =>
        if newId !in amendments {
          var _ := SaveAmendmentDraft(actor, p, terms, newId);
        }
      case OpAskAmendment(actor, p, title, text, newId) =>
        if newId !in amendments {
          var _ := RequestClientAmendment(actor, p, title, text, newId);
        }
      case OpRequestAmendment(actor, p, a, now) => var _ := RequestAmendmentSignature(actor, p, a, now);
      case OpSignAmendment(actor, p, a, name, url, meta, now) => var _ := SignAmendment(actor, p, a, name, url, meta, now);
      case OpChangeProject(p, project) => projects := projects[p := project];
    }

    /** The operations of the service, run one after the other, are a run of the life cycle. */
    method PerformAll(ops: seq<Op>)
      modifies this
      ensures Now() == Run(tpl, old(Now()), ops)
      ensures Inv(tpl, old(Now())) ==> Inv(tpl, Now())
    {
      var i := 0;
      while i < |ops|
        invariant 0 <= i <= |ops| && Run(tpl, Now(), ops[i..]) == Run(tpl, old(Now()), ops)
      {
        assert ops[i..][0] == ops[i] && ops[i..][1..] == ops[i + 1..];
        Perform(ops[i]);
        i := i + 1;
      }
      if Inv(tpl, old(Now())) {
        RunKeeps(tpl, old(Now()), ops);
      }
    }
  }
}
