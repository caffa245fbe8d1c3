/** From a start's request to the providers, and from their answers back to the tables. */
module Delivery {
  import opened Options
  import opened Keys
  import opened Rows
  import opened Sagas
  import opened Invariant
  import opened Preservation
  import opened Database
  import opened Runs
  import opened Reach
  import opened Histories
  import opened Executor
  import opened Configuration
  import opened Written
  import opened Leases

  // The text of a limit is its decimal digits; no limit has no text.
  predicate LimitReads(text: Option<string>, limit: Option<int>) {
    && text.Some? == limit.Some?
    && (limit.Some? ==> AllDigits(text.value) && DigitsValue(text.value) == limit.value)
  }

  // The provider call for row i of a saga that was started with this input.
  predicate Delivers(request: Request, s: Saga, input: StartInput, i: nat)
    requires i < |s.effects|
  {
    if i == 0 then
      && request.CreateOrganizationRequest? && request.name == input.name && request.slug == input.slug
      && request.ownerSubject == input.ownerSubject
      && request.idempotencyKey == "organization-provisioning:" + UuidText(input.provisioningId) + ":create:v1"
    else if i <= |input.grants| then
      var g := input.grants[i - 1];
      && request.PutGrantRequest? && Some(request.scopeId) == s.row.organizationId
      && request.subject == (if g.subjectKind == "organization" then request.scopeId else input.ownerSubject)
      && request.feature == g.feature && LimitReads(request.limit, g.limit)
    else
      var put := i - |input.grants|;
      && request.RevokeGrantRequest? && put < i && s.effects[put].state == Applied
      && Some(request.grantId) == s.effects[put].externalId
  }

  lemma LimitTextReads(n: int)
    requires n > 0
    ensures AllDigits(IntText(n)) && DigitsValue(IntText(n)) == n
  {
    DecimalReads(n);
  }

  lemma IntendedDelivers(p: Uuid, s: Saga, input: StartInput, i: nat)
    requires StillStored(s, input) && p == input.provisioningId && i < |s.effects|
    requires Intended(p, s, i).Some?
    requires forall j | 0 <= j < |input.grants| :: GrantOk(input.grants[j])
    ensures Delivers(Intended(p, s, i).value, s, input, i)
  {
    if 0 < i <= |input.grants| {
      assert RowStored(s.effects[i], input, i);
      var limit := input.grants[i - 1].limit;
      if limit.Some? { LimitTextReads(limit.value); }
    }
  }

  // What a start asked for is what the providers are asked for: after any run, whatever row of the
  // saga is claimed, the call it leads to carries the start's own name, slug and owner, or the
  // subject, feature and limit of the grant with the row's number, or the grant id its put obtained.
  lemma RequestReachesProvider(db: Db, input: StartInput, ids: seq<Uuid>, now: Time, steps: seq<Step>, fence: Uuid)
    returns (i: nat)
    requires SagasInv(db) && Enabled(db, StartStep(input, ids, now))
    requires Unused(db, input.caller, input.idempotencyKey)
    ensures var d, p := Run(Next(db, StartStep(input, ids, now)), steps), input.provisioningId;
            && p in d.sagas
            && (Waiting(d.sagas[p]) ==>
                  && i < |d.sagas[p].effects| && ClaimPick(d.sagas[p]).Some?
                  && RecordShows(ClaimedRecord(d, p, fence), p, d.sagas[p], i, fence)
                  && Prepare(ClaimedRecord(d, p, fence)).Ready?
                  && Delivers(Prepare(ClaimedRecord(d, p, fence)).request, d.sagas[p], input, i))
  {
    StartedForever(db, input, ids, now, steps);
    i := ClaimDelivers(Run(Next(db, StartStep(input, ids, now)), steps), input, fence);
  }

  lemma ClaimDelivers(d: Db, input: StartInput, fence: Uuid) returns (i: nat)
    requires input.provisioningId in d.sagas && SagaInv(input.provisioningId, d.sagas[input.provisioningId])
    requires StillStored(d.sagas[input.provisioningId], input)
    requires forall j | 0 <= j < |input.grants| :: GrantOk(input.grants[j])
    ensures var p := input.provisioningId;
            Waiting(d.sagas[p]) ==>
              && i < |d.sagas[p].effects| && ClaimPick(d.sagas[p]).Some?
              && RecordShows(ClaimedRecord(d, p, fence), p, d.sagas[p], i, fence)
              && Prepare(ClaimedRecord(d, p, fence)).Ready?
              && Delivers(Prepare(ClaimedRecord(d, p, fence)).request, d.sagas[p], input, i)
  {
    var p, s := input.provisioningId, d.sagas[input.provisioningId];
    i := 0;
    if Waiting(s) {
      DueMeans(p, s);
      i := CursorOf(p, s);
      DueAtCursor(p, s, i);
      IntendedAtCursor(p, s, i, fence);
      IntendedDelivers(p, s, input, i);
    }
  }

  /* ---------- The providers' answers ---------- */

  // What row k and its saga hold after the provider's answer.
  predicate AnswerStored(s: Saga, t: Saga, k: nat, answers: Answers)
    requires k < |s.effects| == |t.effects|
  {
    var f := t.effects[k];
    match s.effects[k].kind
    case CreateOrganization =>
      match answers.create {
        case Success(organization) =>
          && f.state == Applied && f.externalId == Some(organization.organizationId)
          && t.row.organizationId == Some(organization.organizationId)
          && t.row.ownerMembershipId == Some(organization.ownerMembershipId)
        case DomainError(code) => f.state == Failed && f.lastError == Some(code)
        case RuntimeError => f.state == Unknown && f.lastError == Some("organization_outcome_unknown")
      }
    case PutEntitlement =>
      match answers.put {
        case Success(grantId) => f.state == Applied && f.externalId == Some(grantId)
        case DomainError(code) => f.state == Failed && f.lastError == Some(code)
        case RuntimeError => f.state == Unknown && f.lastError == Some("entitlement_put_outcome_unknown")
      }
    case RevokeEntitlement =>
      match answers.revoke {
        case Success(_) => f.state == Compensated && f.lastError.None?
        case DomainError(GrantNotFound) => f.state == Compensated && f.lastError.None?
        case DomainError(RevokeRefused(code)) => f.state == Failed && f.lastError == Some(code)
        case RuntimeError => f.state == Unknown && f.lastError == Some("entitlement_revoke_outcome_unknown")
      }
  }

  lemma OutcomeStored(s: Saga, t: Saga, k: nat, record: EffectRecord, answers: Answers, actor: string, now: Time)
    requires k < |s.effects| && record.kind == s.effects[k].kind && Prepare(record).Ready?
    requires FinalizeWritten(s, t, k, record, ExecuteEffect(record, answers), actor, now)
    ensures AnswerStored(s, t, k, answers)
  {
  }

  // The ids and errors a provider answers with are the ids and errors stored, on the row the record
  // holds; no other row changes.
  lemma AnswerReachesRow(db: Db, record: EffectRecord, answers: Answers, actor: string, now: Time) returns (k: nat)
    requires SagasInv(db) && Issued(db, record) && HoldsLease(db, record) && Prepare(record).Ready?
    ensures var p := record.provisioningId;
            var d := FinalizeTransaction(db, record, ExecuteEffect(record, answers), actor, now).db;
            && OnlySaga(db, d, p) && k < |db.sagas[p].effects| == |d.sagas[p].effects|
            && HeldBy(db.sagas[p].effects[k], record)
            && (forall i | 0 <= i < |db.sagas[p].effects| && i != k :: d.sagas[p].effects[i] == db.sagas[p].effects[i])
            && AnswerStored(db.sagas[p], d.sagas[p], k, answers)
  {
    var p, outcome := record.provisioningId, ExecuteEffect(record, answers);
    OutcomeFits(record, answers);
    k := FinalizeWrites(db, record, outcome, actor, now);
    InvAt(db, p);
    IssuedKind(db.sagas[p], record, k);
    OutcomeStored(db.sagas[p], FinalizeTransaction(db, record, outcome, actor, now).db.sagas[p], k, record, answers,
                  actor, now);
  }
}
