/** What a worker's transactions write, field by field, and what a lease protects. */
module Leases {
  import opened Options
  import opened Keys
  import opened Rows
  import opened Sagas
  import opened Invariant
  import opened Preservation
  import opened Database
  import opened Runs
  import opened Reach
  import opened Histories
  import opened Fencing
  import opened Progress
  import opened Written

  /* ---------- Which sagas have work, in stored fields ---------- */

  // The lease of the row has run out.
  predicate Lapsed(e: Effect, now: Time) {
    e.state == InFlight && e.leaseUntil.Some? && e.leaseUntil.value < now
  }

  predicate HasLapsed(s: Saga, now: Time) {
    exists i :: 0 <= i < |s.effects| && Lapsed(s.effects[i], now)
  }

  predicate Waiting(s: Saga) {
    s.row.status in {SagaPending, CleanupPending}
  }

  lemma DueMeans(p: Uuid, s: Saga)
    requires SagaInv(p, s)
    ensures Due(s) <==> Waiting(s)
  {
    var k := CursorOf(p, s);
    DueAtCursor(p, s, k);
    StatusAtCursor(p, s, k);
  }

  lemma ExpiredMeans(p: Uuid, s: Saga, now: Time)
    requires SagaInv(p, s)
    ensures HasExpired(s, now) <==> HasLapsed(s, now)
  {
    var k := CursorOf(p, s);
    if HasLapsed(s, now) {
      var i :| 0 <= i < |s.effects| && Lapsed(s.effects[i], now);
      InFlightIsCursor(p, s, k, i);
      PickFinds(s.effects, Expired(now), i);
    }
  }

  // What the worker's queries find, in every reachable state: a claim is due exactly for the sagas
  // in a pending status, and a quarantine exactly where a leased row's time has passed.
  lemma UndoneMeans(db: Db, now: Time)
    requires SagasInv(db)
    ensures forall p | p in db.sagas :: DueAt(db, p) <==> Waiting(db.sagas[p])
    ensures forall p | p in db.sagas :: ExpiredAt(db, p, now) <==> HasLapsed(db.sagas[p], now)
    ensures Undone(db, now) <==> exists p :: p in db.sagas && (Waiting(db.sagas[p]) || HasLapsed(db.sagas[p], now))
  {
    forall p | p in db.sagas
      ensures DueAt(db, p) <==> Waiting(db.sagas[p])
      ensures ExpiredAt(db, p, now) <==> HasLapsed(db.sagas[p], now)
    {
      InvAt(db, p);
      DueMeans(p, db.sagas[p]);
      ExpiredMeans(p, db.sagas[p], now);
    }
  }

  predicate InState(s: Saga, state: State) {
    exists i :: 0 <= i < |s.effects| && s.effects[i].state == state
                && (s.effects[i].kind == RevokeEntitlement <==> s.row.cleanupRequested)
  }

  lemma InStateAtCursor(p: Uuid, s: Saga, k: nat, state: State)
    requires Layout(p, s) && Shaped(s, k) && state in {InFlight, Unknown, Failed}
    ensures InState(s, state) <==> k < |s.effects| && s.effects[k].state == state
  {
    ActiveIsCursor(p, s, k, state);
    assert InState(s, state) <==> Has(s.effects, s.row.cleanupRequested, state);
  }

  lemma PendingInState(p: Uuid, s: Saga, k: nat)
    requires Layout(p, s) && Shaped(s, k)
    ensures k == |s.effects| ==> !InState(s, Pending)
    ensures k < |s.effects| && s.effects[k].state == Pending ==> InState(s, Pending)
  {
    PendingAtCursor(p, s, k);
    assert InState(s, Pending) <==> Has(s.effects, s.row.cleanupRequested, Pending);
  }

  // The nine statuses, by the rows of the saga's phase.
  lemma StatusMeans(p: Uuid, s: Saga)
    requires SagaInv(p, s)
    ensures s.row.status == SagaRunning <==> !s.row.cleanupRequested && InState(s, InFlight)
    ensures s.row.status == CleanupRunning <==> s.row.cleanupRequested && InState(s, InFlight)
    ensures s.row.status == ManualReview <==> InState(s, Unknown)
    ensures s.row.status == SagaFailed <==> !s.row.cleanupRequested && InState(s, Failed)
    ensures s.row.status == CleanupFailed <==> s.row.cleanupRequested && InState(s, Failed)
    ensures Waiting(s) ==> InState(s, Pending) && !InState(s, InFlight) && !InState(s, Unknown) && !InState(s, Failed)
    ensures s.row.status in {SagaCompleted, CleanupCompleted} ==> !InState(s, Pending)
    ensures s.row.status in {SagaPending, SagaCompleted} ==> !s.row.cleanupRequested
    ensures s.row.status in {CleanupPending, CleanupCompleted} ==> s.row.cleanupRequested
  {
    var k := CursorOf(p, s);
    StatusAtCursor(p, s, k);
    StatusFromCursor(p, s, k);
  }

  lemma StatusFromCursor(p: Uuid, s: Saga, k: nat)
    requires Layout(p, s) && Shaped(s, k) && s.row.status == DerivedStatus(s.effects, s.row.cleanupRequested)
    ensures s.row.status == SagaRunning <==> !s.row.cleanupRequested && InState(s, InFlight)
    ensures s.row.status == CleanupRunning <==> s.row.cleanupRequested && InState(s, InFlight)
    ensures s.row.status == ManualReview <==> InState(s, Unknown)
    ensures s.row.status == SagaFailed <==> !s.row.cleanupRequested && InState(s, Failed)
    ensures s.row.status == CleanupFailed <==> s.row.cleanupRequested && InState(s, Failed)
    ensures Waiting(s) ==> InState(s, Pending) && !InState(s, InFlight) && !InState(s, Unknown) && !InState(s, Failed)
    ensures s.row.status in {SagaCompleted, CleanupCompleted} ==> !InState(s, Pending)
  {
    StatusAtCursor(p, s, k);
    InStateAtCursor(p, s, k, InFlight);
    InStateAtCursor(p, s, k, Unknown);
    InStateAtCursor(p, s, k, Failed);
    PendingInState(p, s, k);
  }

  /* ---------- claim_next ---------- */

  // Row k was the first pending row; it is now leased until the given time.
  predicate ClaimWritten(s: Saga, t: Saga, k: nat, fence: Uuid, until: Time, actor: string, now: Time) {
    && k < |s.effects| && s.effects[k].state == Pending && (forall i | 0 <= i < k :: s.effects[i].state != Pending)
    && RowChanged(s, t, k, EffectClaimed(s.effects[k].kind, s.effects[k].attempts + 1, fence), actor, now)
    && var e, f := s.effects[k], t.effects[k];
       && f.state == InFlight && f.attempts == e.attempts + 1 && f.leaseToken == Some(fence)
       && f.leaseUntil == Some(until) && f.lastError.None? && f.externalId == e.externalId
       && f.completedAt == e.completedAt
       && t.row.status == (if s.row.cleanupRequested then CleanupRunning else SagaRunning)
       && t.row.lastError.None? && SameOrganization(s.row, t.row)
  }

  // The record is a copy of the claimed row and of its saga's request.
  predicate RecordShows(record: EffectRecord, p: Uuid, s: Saga, k: nat, fence: Uuid)
    requires k < |s.effects|
  {
    var e := s.effects[k];
    && record.effectId == e.effectId && record.provisioningId == p && record.kind == e.kind
    && record.downstreamKey == e.downstreamKey && record.subjectKind == e.subjectKind
    && record.feature == e.feature && record.limit == e.limit && record.externalId == e.externalId
    && record.leaseToken == fence && record.name == s.row.name && record.slug == s.row.slug
    && record.ownerSubject == s.row.ownerSubject && record.organizationId == s.row.organizationId
  }

  lemma FirstPending(p: Uuid, s: Saga, k: nat)
    requires Layout(p, s) && Shaped(s, k) && Frozen(s) && k < |s.effects| && s.effects[k].state == Pending
    ensures forall i | 0 <= i < k :: s.effects[i].state != Pending
  {
  }

  lemma LeaseWrites(s: Saga, k: nat, fence: Uuid, until: Time, actor: string, now: Time)
    requires k < |s.effects| && s.effects[k].state == Pending
    requires forall i | 0 <= i < k :: s.effects[i].state != Pending
    requires s.row.organizationResidue == s.row.organizationId.Some?
    ensures ClaimWritten(s, ClaimSaga(s, k, fence, until, actor, now), k, fence, until, actor, now)
  {
  }

  lemma ClaimSagaWrites(p: Uuid, s: Saga, fence: Uuid, until: Time, actor: string, now: Time) returns (k: nat)
    requires SagaInv(p, s) && Waiting(s)
    ensures ClaimPick(s) == Some(k)
    ensures k < |s.effects| && ClaimWritten(s, ClaimSaga(s, k, fence, until, actor, now), k, fence, until, actor, now)
  {
    k := CursorOf(p, s);
    DueMeans(p, s);
    DueAtCursor(p, s, k);
    FirstPending(p, s, k);
    LeaseWrites(s, k, fence, until, actor, now);
  }

  // A claim leases the first pending row of its saga, under the new token and until exactly the
  // given time, and hands out a copy of that row.
  lemma ClaimWrites(db: Db, p: Uuid, fence: Uuid, until: Time, actor: string, now: Time) returns (k: nat)
    requires SagasInv(db) && p in db.sagas && Waiting(db.sagas[p])
    ensures var d := ClaimAt(db, p, fence, until, actor, now);
            && OnlySaga(db, d, p) && d.mutations == db.mutations
            && ClaimWritten(db.sagas[p], d.sagas[p], k, fence, until, actor, now)
            && ClaimPick(db.sagas[p]).Some? && RecordShows(ClaimedRecord(db, p, fence), p, db.sagas[p], k, fence)
  {
    InvAt(db, p);
    k := ClaimSagaWrites(p, db.sagas[p], fence, until, actor, now);
    ClaimTables(db, p, k, fence, until, actor, now);
  }

  lemma ClaimTables(db: Db, p: Uuid, k: nat, fence: Uuid, until: Time, actor: string, now: Time)
    requires p in db.sagas && ClaimPick(db.sagas[p]) == Some(k)
    ensures k < |db.sagas[p].effects| && RecordShows(ClaimedRecord(db, p, fence), p, db.sagas[p], k, fence)
    ensures var d := ClaimAt(db, p, fence, until, actor, now);
            && OnlySaga(db, d, p) && d.mutations == db.mutations
            && d.sagas[p] == ClaimSaga(db.sagas[p], k, fence, until, actor, now)
  {
  }

  /* ---------- quarantine_expired ---------- */

  // Row k's lease had run out; its outcome is now unknown.
  predicate QuarantineWritten(s: Saga, t: Saga, k: nat, actor: string, now: Time) {
    && k < |s.effects| && Lapsed(s.effects[k], now) && s.effects[k].leaseToken.Some?
    && RowChanged(s, t, k, EffectOutcomeUnknown(LeaseExpired(s.effects[k].kind, s.effects[k].leaseToken.value)),
                  actor, now)
    && Stops(s.effects[k], t.effects[k], Unknown, Some("effect_outcome_unknown_after_lease_expiry"))
    && t.row.status == ManualReview && t.row.lastError == Some("effect_outcome_unknown_after_lease_expiry")
    && SameOrganization(s.row, t.row)
  }

  lemma ExpiryWrites(s: Saga, k: nat, actor: string, now: Time)
    requires k < |s.effects| && Lapsed(s.effects[k], now) && s.effects[k].leaseToken.Some?
    requires s.row.organizationResidue == s.row.organizationId.Some?
    ensures QuarantineWritten(s, QuarantineSaga(s, k, actor, now), k, actor, now)
  {
  }

  lemma QuarantineSagaWrites(p: Uuid, s: Saga, actor: string, now: Time) returns (k: nat)
    requires SagaInv(p, s) && HasLapsed(s, now)
    ensures HasExpired(s, now) && Pick(s.effects, Expired(now)) == Some(k)
    ensures k < |s.effects| && s.effects[k].leaseToken.Some?
    ensures QuarantineWritten(s, QuarantineSaga(s, k, actor, now), k, actor, now)
  {
    ExpiredMeans(p, s, now);
    k := Pick(s.effects, Expired(now)).value;
    QuarantineEndsLease(p, s, actor, now);
    ExpiryWrites(s, k, actor, now);
  }

  // A quarantine changes a saga exactly when the time of its lease has passed.
  lemma QuarantineWrites(db: Db, p: Uuid, actor: string, now: Time) returns (k: nat)
    requires SagasInv(db) && p in db.sagas
    ensures var d := Next(db, QuarantineStep(p, actor, now));
            if HasLapsed(db.sagas[p], now)
            then OnlySaga(db, d, p) && d.mutations == db.mutations
                 && QuarantineWritten(db.sagas[p], d.sagas[p], k, actor, now)
            else d == db
  {
    k := 0;
    InvAt(db, p);
    if HasLapsed(db.sagas[p], now) {
      k := QuarantineSagaWrites(p, db.sagas[p], actor, now);
      QuarantineTables(db, p, k, actor, now);
    } else {
      ExpiredMeans(p, db.sagas[p], now);
      NothingExpired(db, p, actor, now);
    }
  }

  lemma QuarantineTables(db: Db, p: Uuid, k: nat, actor: string, now: Time)
    requires ExpiredAt(db, p, now) && Pick(db.sagas[p].effects, Expired(now)) == Some(k)
    requires db.sagas[p].effects[k].leaseToken.Some?
    ensures var d := Next(db, QuarantineStep(p, actor, now));
            && OnlySaga(db, d, p) && d.mutations == db.mutations
            && d.sagas[p] == QuarantineSaga(db.sagas[p], k, actor, now)
  {
  }

  lemma NothingExpired(db: Db, p: Uuid, actor: string, now: Time)
    requires !ExpiredAt(db, p, now)
    ensures Next(db, QuarantineStep(p, actor, now)) == db
  {
  }

  /* ---------- finalize_effect ---------- */

  // The row is still leased under the record's token.
  predicate HeldBy(e: Effect, record: EffectRecord) {
    e.effectId == record.effectId && e.state == InFlight && e.leaseToken == Some(record.leaseToken)
  }

  predicate HoldsLease(db: Db, record: EffectRecord) {
    && record.provisioningId in db.sagas
    && exists i :: 0 <= i < |db.sagas[record.provisioningId].effects|
                   && HeldBy(db.sagas[record.provisioningId].effects[i], record)
  }

  // Row k took the outcome.
  predicate FinalizeWritten(s: Saga, t: Saga, k: nat, record: EffectRecord, outcome: EffectOutcome, actor: string,
                            now: Time)
  {
    && k < |s.effects| == |t.effects|
    && var e, f := s.effects[k], t.effects[k];
       match outcome
       case OrganizationApplied(organizationId, membershipId) =>
         && RowChanged(s, t, k, EffectApplied(organizationId, Some(membershipId)), actor, now)
         && Finishes(e, f, Applied, Some(organizationId), now)
         && t.row.organizationId == Some(organizationId) && t.row.ownerMembershipId == Some(membershipId)
       case EntitlementApplied(grantId) =>
         && RowChanged(s, t, k, EffectApplied(grantId, None), actor, now)
         && Finishes(e, f, Applied, Some(grantId), now) && SameOrganization(s.row, t.row)
       case RevocationApplied =>
         && RowChanged(s, t, k, EffectCompensated(record.externalId), actor, now)
         && Finishes(e, f, Compensated, e.externalId, now) && SameOrganization(s.row, t.row)
       case CallFailed(code) =>
         && RowChanged(s, t, k, EffectFailed(code), actor, now)
         && Stops(e, f, Failed, Some(code)) && SameOrganization(s.row, t.row)
       case CallUnknown(code) =>
         && RowChanged(s, t, k, EffectOutcomeUnknown(Reported(code)), actor, now)
         && Stops(e, f, Unknown, Some(code)) && SameOrganization(s.row, t.row)
  }

  lemma OutcomeWrites(s: Saga, k: nat, record: EffectRecord, outcome: EffectOutcome, actor: string, now: Time)
    requires k < |s.effects| && Fits(s.effects[k].kind, outcome)
    ensures FinalizeWritten(s, FinalizeSaga(s, k, record, outcome, actor, now), k, record, outcome, actor, now)
  {
    SettleWrites(s, k, OutcomeRow(s.effects[k], outcome, now), OutcomeSagaRow(s.row, outcome),
                 OutcomeEvent(record, outcome), actor, now);
  }

  lemma HeldIsFenced(db: Db, record: EffectRecord)
    requires record.provisioningId in db.sagas
    ensures HoldsLease(db, record) <==> FencedRow(db, record).Some?
  {
    var es := db.sagas[record.provisioningId].effects;
    if HoldsLease(db, record) {
      var i :| 0 <= i < |es| && HeldBy(es[i], record);
      PickFinds(es, Fenced(record.effectId, record.leaseToken), i);
    }
  }

  // The record's row is in one of these states.
  predicate RowIn(d: Db, record: EffectRecord, states: set<State>) {
    && record.provisioningId in d.sagas
    && exists i :: 0 <= i < |d.sagas[record.provisioningId].effects|
                   && d.sagas[record.provisioningId].effects[i].effectId == record.effectId
                   && d.sagas[record.provisioningId].effects[i].state in states
  }

  // What an answer means: superseded when the record no longer held its row, and then nothing
  // changed; otherwise the answer names the state the row is now in.
  predicate EndsAs(db: Db, d: Db, record: EffectRecord, result: FinalizeResult) {
    && (result == Superseded <==> !HoldsLease(db, record))
    && (result == Superseded <==> d == db)
    && (result == ResultApplied <==> HoldsLease(db, record) && RowIn(d, record, {Applied, Compensated}))
    && (result == ResultFailed <==> HoldsLease(db, record) && RowIn(d, record, {Failed}))
    && (result == ResultManualReview <==> HoldsLease(db, record) && RowIn(d, record, {Unknown}))
  }

  // The record's row has one state.
  lemma RowInOne(d: Db, record: EffectRecord, k: nat, states: set<State>)
    requires record.provisioningId in d.sagas && DistinctIds(d.sagas[record.provisioningId].effects)
    requires k < |d.sagas[record.provisioningId].effects|
    requires d.sagas[record.provisioningId].effects[k].effectId == record.effectId
    ensures RowIn(d, record, states) <==> d.sagas[record.provisioningId].effects[k].state in states
  {
    var es := d.sagas[record.provisioningId].effects;
    forall i | 0 <= i < |es| && es[i].effectId == record.effectId ensures i == k {
    }
  }

  // Finalizing an issued record that still holds its row writes the outcome to that row.
  lemma FinalizeWrites(db: Db, record: EffectRecord, outcome: EffectOutcome, actor: string, now: Time) returns (k: nat)
    requires SagasInv(db) && Issued(db, record) && Fits(record.kind, outcome) && HoldsLease(db, record)
    ensures var p, d := record.provisioningId, FinalizeTransaction(db, record, outcome, actor, now).db;
            && OnlySaga(db, d, p) && d.mutations == db.mutations
            && FinalizeWritten(db.sagas[p], d.sagas[p], k, record, outcome, actor, now)
            && HeldBy(db.sagas[p].effects[k], record)
  {
    var p := record.provisioningId;
    InvAt(db, p);
    HeldIsFenced(db, record);
    k := FencedRow(db, record).value;
    IssuedKind(db.sagas[p], record, k);
    OutcomeWrites(db.sagas[p], k, record, outcome, actor, now);
  }

  lemma ChangedIds(s: Saga, t: Saga, k: nat)
    requires k < |s.effects| == |t.effects| && DistinctIds(s.effects)
    requires forall i | 0 <= i < |s.effects| && i != k :: t.effects[i] == s.effects[i]
    requires t.effects[k].effectId == s.effects[k].effectId
    ensures DistinctIds(t.effects)
  {
    forall i | 0 <= i < |t.effects| ensures t.effects[i].effectId == s.effects[i].effectId {
    }
  }

  // The answer of a finalization tells what it did.
  lemma AnswerMeans(db: Db, record: EffectRecord, outcome: EffectOutcome, actor: string, now: Time)
    requires SagasInv(db) && Issued(db, record) && Fits(record.kind, outcome)
    ensures var final := FinalizeTransaction(db, record, outcome, actor, now);
            final.answer.Answered? && EndsAs(db, final.db, record, final.answer.result)
  {
    var p, final := record.provisioningId, FinalizeTransaction(db, record, outcome, actor, now);
    HeldIsFenced(db, record);
    if HoldsLease(db, record) {
      var k := FinalizeWrites(db, record, outcome, actor, now);
      InvAt(db, p);
      ChangedIds(db.sagas[p], final.db.sagas[p], k);
      RowInOne(final.db, record, k, {Applied, Compensated});
      RowInOne(final.db, record, k, {Failed});
      RowInOne(final.db, record, k, {Unknown});
    }
  }

  /* ---------- What a lease protects ---------- */

  datatype Lease = Lease(saga: Uuid, effectId: Uuid, token: Uuid, until: Time)

  // Whatever row is leased under the token is the lease's row, until the lease's time.
  predicate Keeps(es: seq<Effect>, lease: Lease) {
    forall i | 0 <= i < |es| && es[i].leaseToken == Some(lease.token) ::
      es[i].leaseUntil == Some(lease.until) && es[i].effectId == lease.effectId
  }

  ghost predicate LeaseKept(db: Db, lease: Lease) {
    && SagasInv(db) && lease.saga in db.sagas && lease.token in Fences(db.sagas[lease.saga].log)
    && Keeps(db.sagas[lease.saga].effects, lease)
  }

  lemma MovedKeepsLease(s: Saga, t: Saga, k: nat, lease: Lease)
    requires MovedBy(s, t, k) && Keeps(s.effects, lease)
    requires LastRow(t).event.EffectClaimed? ==> LastRow(t).event.fence != lease.token
    ensures Keeps(t.effects, lease)
  {
    assert !LastRow(t).event.EffectClaimed? ==> t.effects[k].leaseToken.None?;
    assert forall i | 0 <= i < |t.effects| && i != k :: t.effects[i] == s.effects[i];
  }

  lemma CleanedKeepsLease(p: Uuid, s: Saga, t: Saga, lease: Lease)
    requires Cleans(p, s, t) && Keeps(s.effects, lease)
    ensures Keeps(t.effects, lease)
  {
    var r, ids, now :| CleanedUp(p, s.effects, t.effects, r, ids, now);
    forall i | 0 <= i < |t.effects| && t.effects[i].leaseToken == Some(lease.token)
      ensures t.effects[i].leaseUntil == Some(lease.until) && t.effects[i].effectId == lease.effectId
    {
      if i < |s.effects| { assert t.effects[i] == SkipRow(s.effects[i], now); }
    }
  }

  lemma LeaseKeptBySaga(step: Step, p: Uuid, s: Saga, t: Saga, lease: Lease)
    requires Keeps(s.effects, lease) && lease.token !in NewFences(step)
    requires t == s || ByStep(step, p, s, t)
    ensures Keeps(t.effects, lease)
  {
    if t != s {
      if Moves(s, t) {
        var k :| Shaped(s, k) && MovedBy(s, t, k);
        MovedKeepsLease(s, t, k, lease);
      } else {
        CleanedKeepsLease(p, s, t, lease);
      }
    }
  }

  lemma LeaseKeptByStep(db: Db, step: Step, lease: Lease)
    requires LeaseKept(db, lease)
    ensures LeaseKept(Next(db, step), lease)
  {
    if Enabled(db, step) {
      var p := lease.saga;
      TargetFromAll(db, step);
      FenceIsNew(db, step, p, lease.token);
      NextStepped(db, step, p);
      InvAt(db, p);
      LeaseKeptBySaga(step, p, db.sagas[p], Next(db, step).sagas[p], lease);
      KeepsFences(p, db.sagas[p], Next(db, step).sagas[p]);
      NextSagasInv(db, step);
    }
  }

  lemma LeaseKeptForever(db: Db, steps: seq<Step>, lease: Lease)
    requires LeaseKept(db, lease)
    ensures LeaseKept(Run(db, steps), lease)
  {
    forall d, step | LeaseKept(d, lease) ensures LeaseKept(Next(d, step), lease) {
      LeaseKeptByStep(d, step, lease);
    }
    RunInduction(db, steps, d => LeaseKept(d, lease));
  }

  // The saga's row is still leased under the token.
  predicate StillHeld(db: Db, lease: Lease) {
    && lease.saga in db.sagas
    && exists i :: 0 <= i < |db.sagas[lease.saga].effects|
                   && LeasedAs(db.sagas[lease.saga].effects[i], lease)
  }

  predicate LeasedAs(e: Effect, lease: Lease) {
    && e.effectId == lease.effectId && e.state == InFlight
    && e.leaseToken == Some(lease.token) && e.leaseUntil == Some(lease.until)
  }

  ghost predicate Secure(db: Db, lease: Lease) {
    LeaseKept(db, lease) && StillHeld(db, lease)
  }

  lemma HeldIsLeased(db: Db, lease: Lease)
    requires LeaseKept(db, lease)
    ensures StillHeld(db, lease) <==> Held(db, lease.saga, lease.token)
  {
    var p := lease.saga;
    InvAt(db, p);
    var k := CursorOf(p, db.sagas[p]);
    if Held(db, p, lease.token) {
      var i :| 0 <= i < |db.sagas[p].effects| && db.sagas[p].effects[i].leaseToken == Some(lease.token);
      HeldAtCursor(p, db.sagas[p], k, i);
      assert LeasedAs(db.sagas[p].effects[i], lease);
    }
  }

  // A saga whose lease still runs has no lapsed row.
  lemma NotLapsed(db: Db, lease: Lease, now: Time)
    requires LeaseKept(db, lease) && StillHeld(db, lease) && now <= lease.until
    ensures !HasLapsed(db.sagas[lease.saga], now) && !ExpiredAt(db, lease.saga, now)
  {
    var p, s := lease.saga, db.sagas[lease.saga];
    InvAt(db, p);
    var k := CursorOf(p, s);
    var i :| 0 <= i < |s.effects| && LeasedAs(s.effects[i], lease);
    InFlightIsCursor(p, s, k, i);
    forall j | 0 <= j < |s.effects| ensures !Lapsed(s.effects[j], now) {
      if s.effects[j].state == InFlight { InFlightIsCursor(p, s, k, j); }
    }
    ExpiredMeans(p, s, now);
  }

  // The lease a claim gives.
  function LeaseOf(record: EffectRecord, until: Time): Lease {
    Lease(record.provisioningId, record.effectId, record.leaseToken, until)
  }

  lemma ClaimedLeaseIsKept(db: Db, p: Uuid, fence: Uuid, until: Time, actor: string, now: Time)
    requires SagasInv(db) && p in db.sagas && Waiting(db.sagas[p]) && FreshFence(db, fence)
    ensures ClaimPick(db.sagas[p]).Some?
    ensures Secure(Next(db, ClaimStep(p, fence, until, actor, now)), LeaseOf(ClaimedRecord(db, p, fence), until))
  {
    DueAtWaiting(db, p);
    ClaimIsNext(db, p, fence, until, actor, now);
    NextSagasInv(db, ClaimStep(p, fence, until, actor, now));
    ClaimedIsSecure(db, ClaimAt(db, p, fence, until, actor, now), p, fence, until, actor, now);
  }

  lemma ClaimIsNext(db: Db, p: Uuid, fence: Uuid, until: Time, actor: string, now: Time)
    requires DueAt(db, p) && FreshFence(db, fence)
    ensures Next(db, ClaimStep(p, fence, until, actor, now)) == ClaimAt(db, p, fence, until, actor, now)
  {
  }

  lemma ClaimedIsSecure(db: Db, d: Db, p: Uuid, fence: Uuid, until: Time, actor: string, now: Time)
    requires SagasInv(db) && p in db.sagas && Waiting(db.sagas[p]) && FreshFence(db, fence)
    requires d == ClaimAt(db, p, fence, until, actor, now) && SagasInv(d)
    ensures ClaimPick(db.sagas[p]).Some? && Secure(d, LeaseOf(ClaimedRecord(db, p, fence), until))
  {
    var k := ClaimWrites(db, p, fence, until, actor, now);
    OldTokens(db, p, fence);
    ClaimedIsLeased(p, db.sagas[p], d, k, ClaimedRecord(db, p, fence), until, actor, now);
  }

  lemma DueAtWaiting(db: Db, p: Uuid)
    requires SagasInv(db) && p in db.sagas
    ensures DueAt(db, p) <==> Waiting(db.sagas[p])
  {
    InvAt(db, p);
    DueMeans(p, db.sagas[p]);
  }

  lemma ClaimedRowLeased(s: Saga, t: Saga, k: nat, lease: Lease, actor: string, now: Time)
    requires ClaimWritten(s, t, k, lease.token, lease.until, actor, now) && s.effects[k].effectId == lease.effectId
    requires forall i | 0 <= i < |s.effects| :: s.effects[i].leaseToken != Some(lease.token)
    ensures lease.token in Fences(t.log) && Keeps(t.effects, lease) && LeasedAs(t.effects[k], lease)
  {
    assert t.log[|s.log|].event.fence == lease.token;
    forall i | 0 <= i < |t.effects| && i != k ensures t.effects[i] == s.effects[i] {
    }
  }

  lemma ClaimedIsLeased(p: Uuid, s: Saga, d: Db, k: nat, record: EffectRecord, until: Time, actor: string, now: Time)
    requires SagasInv(d) && p in d.sagas && k < |s.effects|
    requires ClaimWritten(s, d.sagas[p], k, record.leaseToken, until, actor, now)
    requires record.provisioningId == p && record.effectId == s.effects[k].effectId
    requires forall i | 0 <= i < |s.effects| :: s.effects[i].leaseToken != Some(record.leaseToken)
    ensures Secure(d, LeaseOf(record, until))
  {
    ClaimedRowLeased(s, d.sagas[p], k, LeaseOf(record, until), actor, now);
  }

  lemma OldTokens(db: Db, p: Uuid, fence: Uuid)
    requires SagasInv(db) && p in db.sagas && FreshFence(db, fence)
    ensures forall i | 0 <= i < |db.sagas[p].effects| :: db.sagas[p].effects[i].leaseToken != Some(fence)
  {
    InvAt(db, p);
    if HeldIn(db.sagas[p].effects, fence) { HeldWasIssued(p, db.sagas[p], fence); }
  }

  lemma KeptProtects(d: Db, lease: Lease, quarantiner: string, time: Time)
    requires LeaseKept(d, lease) && time <= lease.until
    ensures lease.saga in d.sagas && Keeps(d.sagas[lease.saga].effects, lease)
    ensures HeldIn(d.sagas[lease.saga].effects, lease.token) ==>
              Next(d, QuarantineStep(lease.saga, quarantiner, time)) == d
  {
    if HeldIn(d.sagas[lease.saga].effects, lease.token) {
      HeldIsLeased(d, lease);
      NotLapsed(d, lease, time);
      NothingExpired(d, lease.saga, quarantiner, time);
    }
  }

  lemma KeptProtectsLater(db: Db, steps: seq<Step>, lease: Lease, quarantiner: string, time: Time)
    requires LeaseKept(db, lease) && time <= lease.until
    ensures Protected(Run(db, steps), lease.saga, lease.token, lease.until, quarantiner, time)
  {
    LeaseKeptForever(db, steps, lease);
    KeptProtects(Run(db, steps), lease, quarantiner, time);
  }

  // A row leased under the token is leased until exactly this time, and while there is one, the
  // quarantine changes nothing.
  predicate Protected(d: Db, p: Uuid, token: Uuid, until: Time, quarantiner: string, time: Time) {
    && p in d.sagas
    && (forall i | 0 <= i < |d.sagas[p].effects| && d.sagas[p].effects[i].leaseToken == Some(token) ::
          d.sagas[p].effects[i].leaseUntil == Some(until))
    && (HeldIn(d.sagas[p].effects, token) ==> Next(d, QuarantineStep(p, quarantiner, time)) == d)
  }

  // From its claim on, over every run: a row leased under the claim's token is leased until exactly
  // the time the claim set, and while it is, no quarantine at or before that time changes anything.
  lemma LeaseProtects(db: Db, p: Uuid, fence: Uuid, until: Time, actor: string, now: Time, steps: seq<Step>,
                      quarantiner: string, time: Time)
    requires SagasInv(db) && p in db.sagas && Waiting(db.sagas[p]) && FreshFence(db, fence)
    requires time <= until
    ensures Protected(Run(Next(db, ClaimStep(p, fence, until, actor, now)), steps), p, fence, until, quarantiner, time)
  {
    ClaimedLeaseIsKept(db, p, fence, until, actor, now);
    KeptProtectsLater(Next(db, ClaimStep(p, fence, until, actor, now)), steps,
                      LeaseOf(ClaimedRecord(db, p, fence), until), quarantiner, time);
  }

  // Nobody else finalizes under the lease's token, and no quarantine of its saga comes after its time.
  predicate LeavesInTime(step: Step, lease: Lease) {
    match step
    case FinalizeStep(record, _, _, _) => record.provisioningId != lease.saga || record.leaseToken != lease.token
    case QuarantineStep(p, _, now) => p != lease.saga || now <= lease.until
    case _ => true
  }

  lemma StaysSecure(db: Db, step: Step, lease: Lease)
    requires Secure(db, lease) && LeavesInTime(step, lease)
    ensures Secure(Next(db, step), lease)
  {
    LeaseKeptByStep(db, step, lease);
    HeldIsLeased(db, lease);
    HeldIsLeased(Next(db, step), lease);
    if step.QuarantineStep? && step.expired == lease.saga { NotLapsed(db, lease, step.now); }
    ResolvedIffEnded(db, step, lease.saga, lease.token);
  }

  lemma StaysSecureOverRun(db: Db, steps: seq<Step>, lease: Lease)
    requires Secure(db, lease) && forall i | 0 <= i < |steps| :: LeavesInTime(steps[i], lease)
    ensures Secure(Run(db, steps), lease)
  {
    forall d, step | Secure(d, lease) && LeavesInTime(step, lease) ensures Secure(Next(d, step), lease) {
      StaysSecure(d, step, lease);
    }
    RunInductionOver(db, steps, step => LeavesInTime(step, lease), d => Secure(d, lease));
  }

  lemma SecureHolds(d: Db, record: EffectRecord, until: Time)
    requires StillHeld(d, LeaseOf(record, until))
    ensures HoldsLease(d, record)
  {
    var es := d.sagas[record.provisioningId].effects;
    var i :| 0 <= i < |es| && LeasedAs(es[i], LeaseOf(record, until));
    assert HeldBy(es[i], record);
  }

  lemma HeldIsAnswered(d: Db, record: EffectRecord, outcome: EffectOutcome, actor: string, now: Time)
    requires HoldsLease(d, record)
    ensures FinalizeTransaction(d, record, outcome, actor, now).answer != Answered(Superseded)
  {
    HeldIsFenced(d, record);
  }

  // A worker that finalizes before its lease runs out is never superseded, whatever else is committed
  // between its claim and its finalization.
  lemma TimelyIsNotSuperseded(db: Db, p: Uuid, fence: Uuid, until: Time, actor: string, now: Time, steps: seq<Step>,
                              outcome: EffectOutcome, finalizer: string, later: Time)
    requires SagasInv(db) && p in db.sagas && Waiting(db.sagas[p]) && FreshFence(db, fence)
    requires ClaimPick(db.sagas[p]).Some?
    requires forall i | 0 <= i < |steps| :: LeavesInTime(steps[i], LeaseOf(ClaimedRecord(db, p, fence), until))
    ensures var d, record := Run(Next(db, ClaimStep(p, fence, until, actor, now)), steps), ClaimedRecord(db, p, fence);
            && HoldsLease(d, record)
            && FinalizeTransaction(d, record, outcome, finalizer, later).answer != Answered(Superseded)
  {
    ClaimedLeaseIsKept(db, p, fence, until, actor, now);
    var claimed, record := Next(db, ClaimStep(p, fence, until, actor, now)), ClaimedRecord(db, p, fence);
    StaysSecureOverRun(claimed, steps, LeaseOf(record, until));
    SecureHolds(Run(claimed, steps), record, until);
    HeldIsAnswered(Run(claimed, steps), record, outcome, finalizer, later);
  }
}
