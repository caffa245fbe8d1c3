/** The worker's call to a provider for one claimed effect, and the outcome it reports back. */
module Executor {
  import opened Options
  import opened Keys
  import opened Rows
  import opened Sagas
  import opened Invariant
  import opened Preservation

  // The one request an effect leads to.
  datatype Request =
    | CreateOrganizationRequest(idempotencyKey: string, name: string, ownerSubject: string, slug: string)
    | PutGrantRequest(scopeId: string, subject: string, feature: string, limit: Option<string>)
    | RevokeGrantRequest(grantId: string)

  datatype Prepared = Ready(request: Request) | MissingInput(errorCode: string)

  // How a provider call may end.
  datatype Answer<T, E> = Success(value: T) | DomainError(error: E) | RuntimeError

  datatype RevokeError = GrantNotFound | RevokeRefused(code: string)

  datatype Organization = Organization(organizationId: string, ownerMembershipId: string)

  // The providers' answers, whichever of them is asked.
  datatype Answers = Answers(
    create: Answer<Organization, string>, put: Answer<string, string>, revoke: Answer<(), RevokeError>)

  function LimitText(limit: Option<int>): Option<string> {
    match limit
    case Some(n) => Some(IntText(n))
    case None => None
  }

  function Prepare(record: EffectRecord): Prepared {
    match record.kind
    case CreateOrganization =>
      Ready(CreateOrganizationRequest(record.downstreamKey, record.name, record.ownerSubject, record.slug))
    case PutEntitlement =>
      if record.organizationId.None? then MissingInput("missing_organization_id")
      else if record.subjectKind.None? then MissingInput("missing_entitlement_subject_kind")
      else if record.subjectKind.value !in {"organization", "owner"} then
        MissingInput("invalid_entitlement_subject_kind")
      else if record.feature.None? then MissingInput("missing_entitlement_feature")
      else
        var subject :=
          if record.subjectKind.value == "organization" then record.organizationId.value else record.ownerSubject;
        Ready(PutGrantRequest(record.organizationId.value, subject, record.feature.value, LimitText(record.limit)))
    case RevokeEntitlement =>
      match record.externalId {
        case Some(grantId) => Ready(RevokeGrantRequest(grantId))
        case None => MissingInput("missing_cleanup_grant_id")
      }
  }

  function OutcomeOf(kind: Kind, answers: Answers): EffectOutcome {
    match kind
    case CreateOrganization =>
      match answers.create {
        case Success(organization) => OrganizationApplied(organization.organizationId, organization.ownerMembershipId)
        case DomainError(code) => CallFailed(code)
        case RuntimeError => CallUnknown("organization_outcome_unknown")
      }
    case PutEntitlement =>
      match answers.put {
        case Success(grantId) => EntitlementApplied(grantId)
        case DomainError(code) => CallFailed(code)
        case RuntimeError => CallUnknown("entitlement_put_outcome_unknown")
      }
    case RevokeEntitlement =>
      match answers.revoke {
        case Success(_) => RevocationApplied
        case DomainError(GrantNotFound) => RevocationApplied
        case DomainError(RevokeRefused(code)) => CallFailed(code)
        case RuntimeError => CallUnknown("entitlement_revoke_outcome_unknown")
      }
  }

  function ExecuteEffect(record: EffectRecord, answers: Answers): EffectOutcome {
    match Prepare(record)
    case Ready(_) => OutcomeOf(record.kind, answers)
    case MissingInput(code) => CallFailed(code)
  }

  // No outcome mismatches its effect's kind.
  lemma OutcomeFits(record: EffectRecord, answers: Answers)
    ensures Fits(record.kind, ExecuteEffect(record, answers))
  {
  }

  // The request a claim is for, in terms of the saga: the create under its own key, a put on the
  // saga's organization, a revoke of exactly the grant its put obtained.
  function Intended(p: Uuid, s: Saga, i: nat): Option<Request>
    requires Begun(s) && i < |s.effects|
  {
    var e := s.effects[i];
    if i == 0 then
      Some(CreateOrganizationRequest(DownstreamKey(p, CreateOrganization, 0), s.row.name, s.row.ownerSubject,
                                     s.row.slug))
    else if i < Split(s) then
      if s.row.organizationId.None? || e.feature.None? then None else
      var subject := if e.subjectKind == Some("organization") then s.row.organizationId.value else s.row.ownerSubject;
      var limit := if e.limit.Some? then Some(IntText(e.limit.value)) else None;
      Some(PutGrantRequest(s.row.organizationId.value, subject, e.feature.value, limit))
    else
      var put := 1 + (i - Split(s));
      if put < i && s.effects[put].state == Applied && s.effects[put].externalId.Some?
      then Some(RevokeGrantRequest(s.effects[put].externalId.value))
      else None
  }

  // Everything a worker can claim is complete: a put always carries its organization and a valid
  // subject and feature, a revoke always carries the grant of an applied put. So a claimed effect
  // always reaches its provider, with the intended request, and fails only when the provider
  // refuses it.
  lemma ClaimedIsComplete(p: Uuid, s: Saga, fence: Uuid, answers: Answers)
    requires SagaInv(p, s) && Due(s)
    ensures ClaimPick(s).Some?
    ensures var i := ClaimPick(s).value;
            var record := RecordOf(p, s.row, s.effects[i], fence);
            && Intended(p, s, i).Some? && Prepare(record) == Ready(Intended(p, s, i).value)
            && ExecuteEffect(record, answers) == OutcomeOf(s.effects[i].kind, answers)
  {
    var k := CursorOf(p, s);
    DueAtCursor(p, s, k);
    IntendedAtCursor(p, s, k, fence);
  }

  lemma IntendedAtCursor(p: Uuid, s: Saga, k: nat, fence: Uuid)
    requires Layout(p, s) && EffectsOk(s) && Frozen(s) && Summary(s) && Shaped(s, k) && k < |s.effects|
    ensures Intended(p, s, k).Some?
    ensures Prepare(RecordOf(p, s.row, s.effects[k], fence)) == Ready(Intended(p, s, k).value)
  {
    KindsByPlace(p, s, k);
    assert EffectOk(s.effects[k]) && Placed(p, s.effects, Split(s), k);
    if s.row.cleanupRequested {
      RevokeHasGrant(p, s, k);
    } else if k > 0 {
      assert s.effects[0].state == Applied;
    }
  }

  lemma RevokeHasGrant(p: Uuid, s: Saga, k: nat)
    requires Layout(p, s) && EffectsOk(s) && Frozen(s) && s.row.cleanupRequested
    requires Split(s) <= k < |s.effects|
    ensures var put := 1 + (k - Split(s));
            put < k && s.effects[put].state == Applied && s.effects[put].externalId.Some?
            && s.effects[k].externalId == s.effects[put].externalId
  {
    var put := 1 + (k - Split(s));
    assert Placed(p, s.effects, Split(s), k);
    assert EffectOk(s.effects[put]);
  }

  /* ---------- What the provider's answer does to the saga ---------- */

  // A call took effect, was refused, or its fate is not known. Revoking a grant that is gone counts
  // as done.
  datatype Verdict = Done | Refused | Lost

  function VerdictOf(kind: Kind, answers: Answers): Verdict {
    match kind
    case CreateOrganization =>
      if answers.create.Success? then Done else if answers.create.DomainError? then Refused else Lost
    case PutEntitlement =>
      if answers.put.Success? then Done else if answers.put.DomainError? then Refused else Lost
    case RevokeEntitlement =>
      if answers.revoke.Success? || answers.revoke == DomainError(GrantNotFound) then Done
      else if answers.revoke.DomainError? then Refused
      else Lost
  }

  function SettledState(verdict: Verdict, cleanup: bool): State {
    match verdict
    case Done => DoneState(cleanup)
    case Refused => Failed
    case Lost => Unknown
  }

  function SettledStatus(verdict: Verdict, cleanup: bool, last: bool): Status {
    match verdict
    case Done => if last then CompletedStatus(cleanup) else PendingStatus(cleanup)
    case Refused => FailedStatus(cleanup)
    case Lost => ManualReview
  }

  lemma VerdictState(e: Effect, record: EffectRecord, answers: Answers, cleanup: bool, now: Time)
    requires record.kind == e.kind && Prepare(record).Ready? && Relevant(e, cleanup)
    ensures OutcomeRow(e, ExecuteEffect(record, answers), now).state ==
              SettledState(VerdictOf(record.kind, answers), cleanup)
  {
  }

  lemma StatusAfter(p: Uuid, s: Saga, t: Saga, k: nat, verdict: Verdict)
    requires Layout(p, s) && Frozen(s) && Shaped(s, k) && MovedBy(s, t, k) && Layout(p, t) && Summary(t)
    requires t.effects[k].state == SettledState(verdict, s.row.cleanupRequested)
    ensures t.row.status == SettledStatus(verdict, s.row.cleanupRequested, k + 1 == |s.effects|)
  {
    MovedProgress(p, s, t, k, LastRow(t));
    StatusAtCursor(p, t, CursorAfter(t, k));
  }

  // Finalizing what the provider answered: a call that took effect advances the saga, a refusal
  // fails it, and a call whose answer was lost always goes to manual review - it is never recorded
  // as failed, from where a plain retry would repeat it. No other row changes.
  lemma VerdictDecides(p: Uuid, s: Saga, k: nat, record: EffectRecord, answers: Answers, actor: string, now: Time)
    requires SagaInv(p, s) && Shaped(s, k) && k < |s.effects|
    requires Pick(s.effects, Fenced(record.effectId, record.leaseToken)) == Some(k)
    requires record.kind == s.effects[k].kind && Prepare(record).Ready?
    ensures var t := FinalizeSaga(s, k, record, ExecuteEffect(record, answers), actor, now);
            var verdict := VerdictOf(record.kind, answers);
            && t.effects == s.effects[k := t.effects[k]]
            && t.effects[k].state == SettledState(verdict, s.row.cleanupRequested)
            && t.row.status == SettledStatus(verdict, s.row.cleanupRequested, k + 1 == |s.effects|)
  {
    var outcome := ExecuteEffect(record, answers);
    OutcomeFits(record, answers);
    FinalizeMoves(p, s, k, k, record, outcome, actor, now);
    RelevantIffPhase(p, s, k);
    VerdictState(s.effects[k], record, answers, s.row.cleanupRequested, now);
    StatusAfter(p, s, FinalizeSaga(s, k, record, outcome, actor, now), k, VerdictOf(record.kind, answers));
  }
}
