/** What each storage operation does to one saga. */
module Sagas {
  import opened Options
  import opened Keys
  import opened Rows

  const LEASE_EXPIRED := "effect_outcome_unknown_after_lease_expiry"
  const CLEANUP_ERROR := "cleanup_requested"

  /* ---------- Row selection: WHERE, ORDER BY and LIMIT 1 over one saga's effects ---------- */

  datatype Query =
    | Claimable(cleanup: bool)
    | WithState(state: State)
    | Expired(now: Time)
    | Fenced(effectId: Uuid, token: Uuid)

  predicate Relevant(e: Effect, cleanup: bool) {
    e.kind.RevokeEntitlement? == cleanup
  }

  predicate Eligible(e: Effect, q: Query) {
    match q
    case Claimable(cleanup) => Relevant(e, cleanup) && e.state == Pending
    case WithState(state) => e.state == state
    case Expired(now) => e.state == InFlight && e.leaseUntil.Some? && e.leaseUntil.value < now
    case Fenced(id, token) => e.effectId == id && e.state == InFlight && e.leaseToken == Some(token)
  }

  function Rank(kind: Kind): nat {
    match kind
    case CreateOrganization => 0
    case PutEntitlement => 1
    case RevokeEntitlement => 2
  }

  function SortKey(e: Effect, q: Query): (int, int, int) {
    match q
    case Claimable(_) => (Rank(e.kind), e.ordinal, e.effectId)
    case WithState(_) => (e.createdAt, e.effectId, 0)
    case Expired(_) => (e.updatedAt, e.effectId, 0)
    case Fenced(_, _) => (e.effectId, 0, 0)
  }

  predicate Before(a: (int, int, int), b: (int, int, int)) {
    a.0 < b.0 || (a.0 == b.0 && (a.1 < b.1 || (a.1 == b.1 && a.2 < b.2)))
  }

  // The row a query picks: an eligible row that no eligible row precedes.
  function Pick(es: seq<Effect>, q: Query): (r: Option<nat>)
    ensures r.Some? ==> r.value < |es| && Eligible(es[r.value], q)
  {
    if |es| == 0 then None else
      var n := |es| - 1;
      var best := Pick(es[..n], q);
      if Eligible(es[n], q) && (best.None? || Before(SortKey(es[n], q), SortKey(es[best.value], q)))
      then Some(n)
      else best
  }

  lemma {:induction false} PickFinds(es: seq<Effect>, q: Query, j: nat)
    requires j < |es| && Eligible(es[j], q)
    ensures Pick(es, q).Some?
  {
    if j < |es| - 1 { PickFinds(es[..|es| - 1], q, j); }
  }

  lemma {:induction false} PickIsFirst(es: seq<Effect>, q: Query, j: nat)
    requires j < |es| && Eligible(es[j], q)
    ensures Pick(es, q).Some? && !Before(SortKey(es[j], q), SortKey(es[Pick(es, q).value], q))
  {
    PickFinds(es, q, j);
    if j < |es| - 1 { PickIsFirst(es[..|es| - 1], q, j); }
  }

  /* ---------- Effect updates ---------- */

  function Leased(e: Effect, fence: Uuid, until: Time, now: Time): Effect {
    e.(state := InFlight, attempts := e.attempts + 1, leaseToken := Some(fence), leaseUntil := Some(until),
       lastError := None, updatedAt := now)
  }

  function AppliedRow(e: Effect, externalId: string, now: Time): Effect {
    e.(state := Applied, externalId := Some(externalId), lastError := None, leaseToken := None,
       leaseUntil := None, completedAt := Some(now), updatedAt := now)
  }

  function CompensatedRow(e: Effect, now: Time): Effect {
    e.(state := Compensated, lastError := None, leaseToken := None, leaseUntil := None,
       completedAt := Some(now), updatedAt := now)
  }

  function BlockedRow(e: Effect, state: State, errorCode: string, now: Time): Effect {
    e.(state := state, leaseToken := None, leaseUntil := None, lastError := Some(errorCode), updatedAt := now)
  }

  function ResetRow(e: Effect, now: Time): Effect {
    e.(state := Pending, leaseToken := None, leaseUntil := None, lastError := None, updatedAt := now)
  }

  /* ---------- refresh_saga_status ---------- */

  // First recorded error among the relevant rows in the given state: the scan's `Option::or` fold.
  function FirstError(es: seq<Effect>, cleanup: bool, state: State): Option<string> {
    if |es| == 0 then None else
      var n := |es| - 1;
      var earlier := FirstError(es[..n], cleanup, state);
      if earlier.Some? then earlier
      else if Relevant(es[n], cleanup) && es[n].state == state then es[n].lastError
      else None
  }

  predicate HasOpen(es: seq<Effect>, cleanup: bool) {
    exists i :: 0 <= i < |es| && Relevant(es[i], cleanup) && es[i].state in {Pending, InFlight}
  }

  function FailedStatus(cleanup: bool): Status { if cleanup then CleanupFailed else SagaFailed }
  function PendingStatus(cleanup: bool): Status { if cleanup then CleanupPending else SagaPending }
  function RunningStatus(cleanup: bool): Status { if cleanup then CleanupRunning else SagaRunning }
  function CompletedStatus(cleanup: bool): Status { if cleanup then CleanupCompleted else SagaCompleted }

  function ScanStatus(es: seq<Effect>, cleanup: bool): Status {
    if FirstError(es, cleanup, Unknown).Some? then ManualReview
    else if FirstError(es, cleanup, Failed).Some? then FailedStatus(cleanup)
    else if HasOpen(es, cleanup) then PendingStatus(cleanup)
    else CompletedStatus(cleanup)
  }

  function ScanError(es: seq<Effect>, cleanup: bool): Option<string> {
    var unknown := FirstError(es, cleanup, Unknown);
    if unknown.Some? then unknown else FirstError(es, cleanup, Failed)
  }

  function Coalesce(previous: Option<Time>, reached: bool, now: Time): Option<Time> {
    if reached && previous.None? then Some(now) else previous
  }

  function Refresh(r: SagaRow, es: seq<Effect>, now: Time): SagaRow {
    var status := ScanStatus(es, r.cleanupRequested);
    r.(status := status, revision := r.revision + 1, lastError := ScanError(es, r.cleanupRequested),
       organizationResidue := r.organizationId.Some?, updatedAt := now,
       completedAt := Coalesce(r.completedAt, status == SagaCompleted, now),
       cleanupCompletedAt := Coalesce(r.cleanupCompletedAt, status == CleanupCompleted, now))
  }

  // Replace row i, refresh the saga row and append one activity row.
  function Settle(s: Saga, i: nat, e: Effect, row: SagaRow, event: Event, actor: string, now: Time): Saga
    requires i < |s.effects|
  {
    var es := s.effects[i := e];
    var r := Refresh(row, es, now);
    Saga(r, es, s.log + [Activity(Some(e.effectId), event, actor, r.revision)])
  }

  /* ---------- start ---------- */

  function CreateRow(p: Uuid, id: Uuid, now: Time): Effect {
    Effect(id, CreateOrganization, 0, Pending, DownstreamKey(p, CreateOrganization, 0),
           None, None, None, None, None, 0, None, None, None, now, now, None)
  }

  function PutRow(p: Uuid, ordinal: nat, g: Grant, id: Uuid, now: Time): Effect {
    Effect(id, PutEntitlement, ordinal, Pending, DownstreamKey(p, PutEntitlement, ordinal),
           Some(g.subjectKind), Some(g.feature), g.limit, None, None, 0, None, None, None, now, now, None)
  }

  function NewRow(actor: string, name: string, slug: string, owner: string, now: Time): SagaRow {
    SagaRow(actor, name, slug, owner, SagaPending, 1, None, None, false, false, None, now, now, None, None)
  }

  function PutRows(p: Uuid, grants: seq<Grant>, ids: seq<Uuid>, now: Time): (es: seq<Effect>)
    requires |ids| == |grants|
  {
    seq(|grants|, i requires 0 <= i < |grants| => PutRow(p, i, grants[i], ids[i], now))
  }

  function NewEffects(p: Uuid, grants: seq<Grant>, ids: seq<Uuid>, now: Time): (es: seq<Effect>)
    requires |ids| == 1 + |grants|
  {
    [CreateRow(p, ids[0], now)] + PutRows(p, grants, ids[1..], now)
  }

  function NewSaga(p: Uuid, actor: string, name: string, slug: string, owner: string,
                   grants: seq<Grant>, ids: seq<Uuid>, now: Time): Saga
    requires |ids| == 1 + |grants|
  {
    Saga(NewRow(actor, name, slug, owner, now), NewEffects(p, grants, ids, now),
         [Activity(None, ProvisioningStarted(|grants|), actor, 1)])
  }

  /* ---------- claim_next ---------- */

  // The saga-selection clause: status and an eligible effect of the matching kind.
  predicate Due(s: Saga) {
    || (s.row.status == SagaPending && Pick(s.effects, Claimable(false)).Some?)
    || (s.row.status == CleanupPending && Pick(s.effects, Claimable(true)).Some?)
  }

  // The effect claim_next leases once it has picked the saga.
  function ClaimPick(s: Saga): Option<nat> {
    Pick(s.effects, Claimable(s.row.cleanupRequested))
  }

  function ClaimSaga(s: Saga, i: nat, fence: Uuid, until: Time, actor: string, now: Time): Saga
    requires i < |s.effects|
  {
    var e := Leased(s.effects[i], fence, until, now);
    var r := s.row.(status := RunningStatus(s.row.cleanupRequested), revision := s.row.revision + 1,
                    lastError := None, updatedAt := now);
    Saga(r, s.effects[i := e],
         s.log + [Activity(Some(e.effectId), EffectClaimed(e.kind, e.attempts, fence), actor, r.revision)])
  }

  // What a worker carries away from a claim.
  datatype EffectRecord = EffectRecord(
    effectId: Uuid, provisioningId: Uuid, kind: Kind, downstreamKey: string,
    subjectKind: Option<string>, feature: Option<string>, limit: Option<int>, externalId: Option<string>,
    leaseToken: Uuid, name: string, slug: string, ownerSubject: string, organizationId: Option<string>)

  function RecordOf(p: Uuid, r: SagaRow, e: Effect, fence: Uuid): EffectRecord {
    EffectRecord(e.effectId, p, e.kind, e.downstreamKey, e.subjectKind, e.feature, e.limit, e.externalId,
                 fence, r.name, r.slug, r.ownerSubject, r.organizationId)
  }

  /* ---------- finalize_effect ---------- */

  datatype EffectOutcome =
    | OrganizationApplied(organizationId: string, ownerMembershipId: string)
    | EntitlementApplied(grantId: string)
    | RevocationApplied
    | CallFailed(errorCode: string)
    | CallUnknown(errorCode: string)

  datatype FinalizeResult = ResultApplied | ResultFailed | ResultManualReview | Superseded

  predicate Fits(kind: Kind, outcome: EffectOutcome) {
    match outcome
    case OrganizationApplied(_, _) => kind.CreateOrganization?
    case EntitlementApplied(_) => kind.PutEntitlement?
    case RevocationApplied => kind.RevokeEntitlement?
    case CallFailed(_) => true
    case CallUnknown(_) => true
  }

  function OutcomeRow(e: Effect, outcome: EffectOutcome, now: Time): Effect {
    match outcome
    case OrganizationApplied(org, _) => AppliedRow(e, org, now)
    case EntitlementApplied(grant) => AppliedRow(e, grant, now)
    case RevocationApplied => CompensatedRow(e, now)
    case CallFailed(code) => BlockedRow(e, Failed, code, now)
    case CallUnknown(code) => BlockedRow(e, Unknown, code, now)
  }

  function OutcomeEvent(record: EffectRecord, outcome: EffectOutcome): Event {
    match outcome
    case OrganizationApplied(org, member) => EffectApplied(org, Some(member))
    case EntitlementApplied(grant) => EffectApplied(grant, None)
    case RevocationApplied => EffectCompensated(record.externalId)
    case CallFailed(code) => EffectFailed(code)
    case CallUnknown(code) => EffectOutcomeUnknown(Reported(code))
  }

  function ResultOf(outcome: EffectOutcome): FinalizeResult {
    match outcome
    case CallFailed(_) => ResultFailed
    case CallUnknown(_) => ResultManualReview
    case _ => ResultApplied
  }

  function WithOrganization(r: SagaRow, organizationId: string, membershipId: string): SagaRow {
    r.(organizationId := Some(organizationId), ownerMembershipId := Some(membershipId), organizationResidue := true)
  }

  function OutcomeSagaRow(r: SagaRow, outcome: EffectOutcome): SagaRow {
    match outcome
    case OrganizationApplied(org, member) => WithOrganization(r, org, member)
    case _ => r
  }

  function FinalizeSaga(s: Saga, i: nat, record: EffectRecord, outcome: EffectOutcome, actor: string, now: Time): Saga
    requires i < |s.effects|
  {
    Settle(s, i, OutcomeRow(s.effects[i], outcome, now), OutcomeSagaRow(s.row, outcome),
           OutcomeEvent(record, outcome), actor, now)
  }

  /* ---------- quarantine_expired ---------- */

  predicate HasExpired(s: Saga, now: Time) {
    s.row.status in {SagaRunning, CleanupRunning} && Pick(s.effects, Expired(now)).Some?
  }

  function QuarantineSaga(s: Saga, i: nat, actor: string, now: Time): Saga
    requires i < |s.effects| && s.effects[i].leaseToken.Some?
  {
    var e := s.effects[i];
    var r := s.row.(status := ManualReview, revision := s.row.revision + 1,
                    lastError := Some(LEASE_EXPIRED), updatedAt := now);
    Saga(r, s.effects[i := BlockedRow(e, Unknown, LEASE_EXPIRED, now)],
         s.log + [Activity(Some(e.effectId), EffectOutcomeUnknown(LeaseExpired(e.kind, e.leaseToken.value)),
                           actor, r.revision)])
  }

  /* ---------- retry ---------- */

  datatype DomainFailure =
    ProvisioningNotFound | RevisionConflict | IdempotencyConflict | InvalidTransition | ManualResolutionRequired

  type Hash = seq<nat>

  datatype RetryInput = RetryInput(
    caller: string, actor: string, idempotencyKey: string, requestHash: Hash, provisioningId: Uuid,
    expectedRevision: int, resolution: Resolution,
    observedOrganizationId: Option<string>, observedOwnerMembershipId: Option<string>,
    observedGrantId: Option<string>, evidence: string)

  datatype Checked<T> = Ok(value: T) | Err(failure: DomainFailure)

  // The row the retry acts on.
  function RetryTarget(s: Saga, resolution: Resolution): (r: Checked<nat>)
    ensures r.Ok? ==> r.value < |s.effects|
  {
    if s.row.status == ManualReview then
      match Pick(s.effects, WithState(Unknown)) {
        case Some(i) => Ok(i)
        case None => Err(ManualResolutionRequired)
      }
    else if s.row.status in {SagaFailed, CleanupFailed} then
      if resolution != RetryFailed then Err(InvalidTransition) else
      match Pick(s.effects, WithState(Failed)) {
        case Some(i) => Ok(i)
        case None => Err(InvalidTransition)
      }
    else Err(InvalidTransition)
  }

  predicate ObservesNothing(input: RetryInput) {
    input.observedOrganizationId.None? && input.observedOwnerMembershipId.None? && input.observedGrantId.None?
  }

  datatype Change = Change(effect: Effect, row: SagaRow)

  // The row updates a resolution makes, or why it is refused.
  function Resolve(s: Saga, i: nat, input: RetryInput, now: Time): Checked<Change>
    requires i < |s.effects|
  {
    var e := s.effects[i];
    match input.resolution
    case RetryFailed =>
      if s.row.status == ManualReview || !ObservesNothing(input) then Err(ManualResolutionRequired)
      else Ok(Change(ResetRow(e, now), s.row))
    case ConfirmNotApplied =>
      if s.row.status != ManualReview || !ObservesNothing(input) then Err(InvalidTransition)
      else Ok(Change(ResetRow(e, now), s.row))
    case ConfirmApplied =>
      match e.kind {
        case CreateOrganization =>
          if input.observedOrganizationId.Some? && input.observedOwnerMembershipId.Some? && input.observedGrantId.None?
          then Ok(Change(AppliedRow(e, input.observedOrganizationId.value, now),
                         WithOrganization(s.row, input.observedOrganizationId.value,
                                          input.observedOwnerMembershipId.value)))
          else Err(ManualResolutionRequired)
        case PutEntitlement =>
          if input.observedOrganizationId.None? && input.observedOwnerMembershipId.None? && input.observedGrantId.Some?
          then Ok(Change(AppliedRow(e, input.observedGrantId.value, now), s.row))
          else Err(ManualResolutionRequired)
        case RevokeEntitlement =>
          if ObservesNothing(input) then Ok(Change(CompensatedRow(e, now), s.row))
          else Err(ManualResolutionRequired)
      }
  }

  function RetryEvent(input: RetryInput, kind: Kind): Event {
    ProvisioningRetried(input.resolution, input.evidence, kind)
  }

  function RetrySaga(s: Saga, input: RetryInput, now: Time): Checked<Saga> {
    if s.row.revision != input.expectedRevision then Err(RevisionConflict) else
    match RetryTarget(s, input.resolution)
    case Err(failure) => Err(failure)
    case Ok(i) =>
      match Resolve(s, i, input, now)
      case Err(failure) => Err(failure)
      case Ok(change) =>
        Ok(Settle(s, i, change.effect, change.row, RetryEvent(input, s.effects[i].kind), input.actor, now))
  }

  /* ---------- request_cleanup ---------- */

  datatype CleanupInput = CleanupInput(
    caller: string, actor: string, idempotencyKey: string, requestHash: Hash, provisioningId: Uuid,
    expectedRevision: int, evidence: string)

  function AppliedPuts(es: seq<Effect>): (puts: seq<Effect>)
    ensures |puts| <= |es|
  {
    if |es| == 0 then [] else
      var n := |es| - 1;
      if es[n].kind.PutEntitlement? && es[n].state == Applied
      then AppliedPuts(es[..n]) + [es[n]]
      else AppliedPuts(es[..n])
  }

  function SkipRow(e: Effect, now: Time): Effect {
    if e.kind.PutEntitlement? && e.state in {Pending, Failed}
    then e.(state := Skipped, lastError := Some(CLEANUP_ERROR), updatedAt := now)
    else e
  }

  function SkipUnfinished(es: seq<Effect>, now: Time): (r: seq<Effect>)
    ensures |r| == |es|
  {
    seq(|es|, i requires 0 <= i < |es| => SkipRow(es[i], now))
  }

  function RevokeRow(p: Uuid, put: Effect, id: Uuid, now: Time): Effect {
    Effect(id, RevokeEntitlement, put.ordinal, Pending, DownstreamKey(p, RevokeEntitlement, put.ordinal),
           put.subjectKind, put.feature, put.limit, Some(put.effectId), put.externalId,
           0, None, None, None, now, now, None)
  }

  function RevokeRows(p: Uuid, puts: seq<Effect>, ids: seq<Uuid>, now: Time): (r: seq<Effect>)
    requires |puts| <= |ids|
    ensures |r| == |puts|
  {
    seq(|puts|, i requires 0 <= i < |puts| => RevokeRow(p, puts[i], ids[i], now))
  }

  // The refusals of request_cleanup, in the order the code makes them.
  function CleanupRefusal(s: Saga, expectedRevision: int): Option<DomainFailure> {
    if s.row.revision != expectedRevision then Some(RevisionConflict)
    else if s.row.cleanupRequested then Some(InvalidTransition)
    else if s.row.status == ManualReview then Some(ManualResolutionRequired)
    else if s.row.status !in {SagaCompleted, SagaFailed} then Some(InvalidTransition)
    else None
  }

  predicate AllHaveGrantId(puts: seq<Effect>) {
    forall i | 0 <= i < |puts| :: puts[i].externalId.Some?
  }

  function CleanupSaga(p: Uuid, s: Saga, input: CleanupInput, ids: seq<Uuid>, now: Time): Saga
    requires |AppliedPuts(s.effects)| <= |ids|
  {
    var puts := AppliedPuts(s.effects);
    var es := SkipUnfinished(s.effects, now) + RevokeRows(p, puts, ids, now);
    var r := Refresh(s.row.(cleanupRequested := true, lastError := None), es, now);
    Saga(r, es, s.log + [Activity(None, CleanupRequested(|puts|, s.row.organizationId.Some?, input.evidence),
                                  input.actor, r.revision)])
  }
}
