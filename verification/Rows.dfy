/** The rows of the four tables, and the constraints the schema puts on one row. */
module Rows {
  import opened Options
  import opened Keys

  // Microseconds since an arbitrary epoch.
  type Time = int

  const MAX_GRANTS := 64

  datatype State = Pending | InFlight | Applied | Failed | Unknown | Compensated | Skipped

  datatype Status =
    | SagaPending | SagaRunning | SagaCompleted | SagaFailed | ManualReview
    | CleanupPending | CleanupRunning | CleanupCompleted | CleanupFailed

  datatype Effect = Effect(
    effectId: Uuid, kind: Kind, ordinal: nat, state: State, downstreamKey: string,
    subjectKind: Option<string>, feature: Option<string>, limit: Option<int>,
    sourceEffectId: Option<Uuid>, externalId: Option<string>, attempts: nat,
    leaseToken: Option<Uuid>, leaseUntil: Option<Time>, lastError: Option<string>,
    createdAt: Time, updatedAt: Time, completedAt: Option<Time>)

  datatype SagaRow = SagaRow(
    requestedBy: string, name: string, slug: string, ownerSubject: string,
    status: Status, revision: nat,
    organizationId: Option<string>, ownerMembershipId: Option<string>,
    cleanupRequested: bool, organizationResidue: bool, lastError: Option<string>,
    createdAt: Time, updatedAt: Time, completedAt: Option<Time>, cleanupCompletedAt: Option<Time>)

  datatype Resolution = RetryFailed | ConfirmApplied | ConfirmNotApplied

  datatype UnknownEvidence = Reported(errorCode: string) | LeaseExpired(expiredKind: Kind, invalidatedFence: Uuid)

  // An activity row's kind together with its evidence.
  datatype Event =
    | ProvisioningStarted(bootstrapGrants: nat)
    | EffectClaimed(claimedKind: Kind, attempt: nat, fence: Uuid)
    | EffectApplied(externalId: string, ownerMembershipId: Option<string>)
    | EffectCompensated(grantId: Option<string>)
    | EffectFailed(errorCode: string)
    | EffectOutcomeUnknown(reason: UnknownEvidence)
    | ProvisioningRetried(resolution: Resolution, evidence: string, effectKind: Kind)
    | CleanupRequested(reversibleGrants: nat, organizationResidue: bool, cleanupEvidence: string)

  datatype Activity = Activity(effectId: Option<Uuid>, event: Event, actor: string, revision: nat)

  // One saga: its row, its effect rows in (create, put, revoke; ordinal) order, its activity rows
  // in insertion order.
  datatype Saga = Saga(row: SagaRow, effects: seq<Effect>, log: seq<Activity>)

  datatype Grant = Grant(subjectKind: string, feature: string, limit: Option<int>)

  datatype StepView = StepView(
    effectId: Uuid, kind: Kind, ordinal: nat, status: State, attempt: nat,
    externalId: Option<string>, lastError: Option<string>, updatedAt: Time)

  datatype ProvisioningView = ProvisioningView(provisioningId: Uuid, row: SagaRow, steps: seq<StepView>)

  function StepOf(e: Effect): StepView {
    StepView(e.effectId, e.kind, e.ordinal, e.state, e.attempts, e.externalId, e.lastError, e.updatedAt)
  }

  function ViewOf(p: Uuid, s: Saga): ProvisioningView {
    ProvisioningView(p, s.row, seq(|s.effects|, i requires 0 <= i < |s.effects| => StepOf(s.effects[i])))
  }

  /* CHECK clauses of organization_provisionings. */
  predicate SagaRowCheck(r: SagaRow) {
    && 1 <= |r.name| <= 200
    && 1 <= |r.slug| <= 100
    && 1 <= |r.ownerSubject| <= 256
    && r.revision > 0
    && r.organizationId.None? == r.ownerMembershipId.None?
    && (r.organizationResidue ==> r.organizationId.Some?)
  }

  predicate LeaseCheck(e: Effect) {
    || (e.state == InFlight && e.leaseToken.Some? && e.leaseUntil.Some?)
    || (e.state != InFlight && e.leaseToken.None? && e.leaseUntil.None?)
  }

  predicate SubjectCheck(subjectKind: Option<string>) {
    subjectKind.None? || subjectKind.value in {"organization", "owner"}
  }

  predicate KindCheck(e: Effect) {
    match e.kind
    case CreateOrganization =>
      e.ordinal == 0 && e.subjectKind.None? && e.feature.None? && e.limit.None? && e.sourceEffectId.None?
    case PutEntitlement => e.subjectKind.Some? && e.feature.Some? && e.sourceEffectId.None?
    case RevokeEntitlement => e.subjectKind.Some? && e.feature.Some? && e.sourceEffectId.Some?
  }

  /* CHECK clauses of organization_provisioning_effects. */
  predicate EffectCheck(e: Effect) {
    && e.ordinal <= 64
    && SubjectCheck(e.subjectKind)
    && (e.limit.Some? ==> e.limit.value > 0)
    && LeaseCheck(e)
    && KindCheck(e)
  }

  // What `start` relies on: a grant template that came out of a validated configuration.
  predicate GrantOk(g: Grant) {
    && g.subjectKind in {"organization", "owner"}
    && (g.limit.Some? ==> g.limit.value > 0)
  }
}
