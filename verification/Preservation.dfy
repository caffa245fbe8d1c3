/** Every operation keeps the saga invariant. */
module Preservation {
  import opened Options
  import opened Keys
  import opened Rows
  import opened Sagas
  import opened Journal
  import opened Invariant

  // The cursor of a saga that satisfies the invariant.
  lemma CursorOf(p: Uuid, s: Saga) returns (k: nat)
    requires SagaInv(p, s)
    ensures Shaped(s, k)
  {
    k :| Shaped(s, k);
  }

  function LastRow(t: Saga): Activity
    requires |t.log| > 0
  {
    t.log[|t.log| - 1]
  }

  predicate SameOrganization(r: SagaRow, t: SagaRow) {
    t.organizationId == r.organizationId && t.ownerMembershipId == r.ownerMembershipId
  }

  // What the new activity row says about external ids is what the move wrote: a receipt's ids, the
  // ids an operator observed, or nothing.
  predicate Named(s: Saga, t: Saga, k: nat, event: Event)
    requires k < |s.effects| && k < |t.effects|
  {
    var e := t.effects[k];
    match event
    case EffectApplied(externalId, membershipId) =>
      && e.externalId == Some(externalId)
      && if e.kind.CreateOrganization?
         then t.row.organizationId == Some(externalId) && t.row.ownerMembershipId == membershipId
         else SameOrganization(s.row, t.row)
    case ProvisioningRetried(ConfirmApplied, _, _) =>
      && e.externalId.Some? == (!e.kind.RevokeEntitlement? || s.effects[k].externalId.Some?)
      && if e.kind.CreateOrganization? then t.row.organizationId.Some? else SameOrganization(s.row, t.row)
    case _ => e.externalId == s.effects[k].externalId && SameOrganization(s.row, t.row)
  }

  predicate MovedBy(s: Saga, t: Saga, k: nat) {
    |t.log| > 0 && Moved(s, t, k, LastRow(t)) && Named(s, t, k, LastRow(t).event)
  }

  // Everything but the saga row follows from the move itself.
  lemma MovedParts(p: Uuid, s: Saga, t: Saga, k: nat)
    requires SagaInv(p, s) && Shaped(s, k) && MovedBy(s, t, k) && EffectOk(t.effects[k])
    ensures Layout(p, t) && EffectsOk(t) && JournalOk(t)
    ensures Shaped(t, CursorAfter(t, k)) && Frozen(t)
    ensures Summary(t) ==> SagaInv(p, t)
  {
    MovedLayout(p, s, t, k, LastRow(t));
    MovedProgress(p, s, t, k, LastRow(t));
    MovedJournal(p, s, t, k, LastRow(t));
    MovedEffectsOk(s, t, k);
  }

  lemma MovedEffectsOk(s: Saga, t: Saga, k: nat)
    requires EffectsOk(s) && MovedBy(s, t, k) && EffectOk(t.effects[k])
    ensures EffectsOk(t)
  {
    forall i | 0 <= i < |t.effects| ensures EffectOk(t.effects[i]) {
      if i != k { assert EffectOk(s.effects[i]); }
    }
  }

  /* ---------- start ---------- */

  predicate Distinct(ids: seq<Uuid>) {
    forall i, j | 0 <= i < j < |ids| :: ids[i] != ids[j]
  }

  predicate StartOk(name: string, slug: string, owner: string, grants: seq<Grant>, ids: seq<Uuid>) {
    && 1 <= |name| <= 200 && 1 <= |slug| <= 100 && 1 <= |owner| <= 256
    && |grants| <= MAX_GRANTS
    && (forall i | 0 <= i < |grants| :: GrantOk(grants[i]))
    && |ids| == 1 + |grants| && Distinct(ids)
  }

  lemma StartRows(p: Uuid, grants: seq<Grant>, ids: seq<Uuid>, now: Time, i: nat)
    requires |grants| <= MAX_GRANTS && |ids| == 1 + |grants| && i <= |grants|
    requires forall j | 0 <= j < |grants| :: GrantOk(grants[j])
    ensures var es := NewEffects(p, grants, ids, now);
            |es| == 1 + |grants| && Placed(p, es, |es|, i) && EffectOk(es[i])
            && es[i].effectId == ids[i] && Recorded(es[i]) == FRESH && es[i].externalId.None?
  {
    var es := NewEffects(p, grants, ids, now);
    if i == 0 {
      assert es[0] == CreateRow(p, ids[0], now);
    } else {
      assert es[i] == PutRow(p, i - 1, grants[i - 1], ids[i], now);
    }
  }

  lemma StartJournal(s: Saga)
    requires |s.log| == 1 && s.log[0].effectId.None? && s.log[0].event.ProvisioningStarted? && s.log[0].revision == 1
    requires !s.row.cleanupRequested
    requires forall i | 0 <= i < |s.effects| :: Recorded(s.effects[i]) == FRESH
    ensures JournalOk(s)
  {
    forall i | 0 <= i < |s.effects| ensures Told(s.log, s.effects[i]) {
      assert s.log[..0] == [];
      assert Replay([], s.effects[i].effectId, s.effects[i].kind) == FRESH;
    }
  }

  lemma StartSummary(p: Uuid, s: Saga)
    requires Layout(p, s) && |s.log| == 1 && !s.row.cleanupRequested
    requires forall i | 0 <= i < |s.effects| :: s.effects[i].state == Pending
    requires s.row.status == SagaPending && s.row.revision == 1 && s.row.lastError.None?
    requires !s.row.organizationResidue && s.row.organizationId.None? && SagaRowCheck(s.row)
    ensures Progress(s) && Summary(s)
  {
    assert Shaped(s, 0);
    StatusAtCursor(p, s, 0);
    ErrorAtCursor(p, s, 0, None);
  }

  lemma StartInv(p: Uuid, actor: string, name: string, slug: string, owner: string,
                 grants: seq<Grant>, ids: seq<Uuid>, now: Time)
    requires StartOk(name, slug, owner, grants, ids)
    ensures SagaInv(p, NewSaga(p, actor, name, slug, owner, grants, ids, now))
  {
    var s := NewSaga(p, actor, name, slug, owner, grants, ids, now);
    forall i | 0 <= i <= |grants|
      ensures Placed(p, s.effects, |s.effects|, i) && EffectOk(s.effects[i])
      ensures s.effects[i].effectId == ids[i] && Recorded(s.effects[i]) == FRESH
    {
      StartRows(p, grants, ids, now, i);
    }
    assert Layout(p, s);
    StartJournal(s);
    StartSummary(p, s);
  }

  /* ---------- claim_next ---------- */

  // A due saga's claim takes the cursor row.
  lemma DueAtCursor(p: Uuid, s: Saga, k: nat)
    requires SagaInv(p, s) && Shaped(s, k)
    ensures Due(s) <==> k < |s.effects| && s.effects[k].state == Pending
    ensures Due(s) ==> ClaimPick(s) == Some(k)
  {
    StatusAtCursor(p, s, k);
    if k < |s.effects| && s.effects[k].state == Pending { ClaimIsCursor(p, s, k); }
  }

  lemma ClaimMoved(s: Saga, k: nat, fence: Uuid, until: Time, actor: string, now: Time)
    requires k < |s.effects| && s.effects[k].state == Pending && EffectOk(s.effects[k])
    ensures var t := ClaimSaga(s, k, fence, until, actor, now); MovedBy(s, t, k) && EffectOk(t.effects[k])
  {
  }

  lemma ClaimSummary(p: Uuid, s: Saga, k: nat, fence: Uuid, until: Time, actor: string, now: Time)
    requires k < |s.effects| && s.effects[k].state == Pending && Summary(s)
    requires var t := ClaimSaga(s, k, fence, until, actor, now); Layout(p, t) && Shaped(t, k)
    ensures Summary(ClaimSaga(s, k, fence, until, actor, now))
  {
    var t := ClaimSaga(s, k, fence, until, actor, now);
    StatusAtCursor(p, t, k);
    ErrorAtCursor(p, t, k, None);
  }

  lemma ClaimMoves(p: Uuid, s: Saga, k: nat, fence: Uuid, until: Time, actor: string, now: Time)
    requires SagaInv(p, s) && Shaped(s, k) && Due(s)
    ensures ClaimPick(s) == Some(k)
    ensures MovedBy(s, ClaimSaga(s, k, fence, until, actor, now), k)
    ensures SagaInv(p, ClaimSaga(s, k, fence, until, actor, now))
  {
    DueAtCursor(p, s, k);
    var t := ClaimSaga(s, k, fence, until, actor, now);
    ClaimMoved(s, k, fence, until, actor, now);
    MovedParts(p, s, t, k);
    ClaimSummary(p, s, k, fence, until, actor, now);
  }

  /* ---------- finalize_effect and retry ---------- */

  // What a settle may have written to the saga row before the refresh.
  predicate RowBefore(s: Saga, k: nat, e: Effect, row: SagaRow) {
    || (row == s.row && (e.state == Applied ==> k > 0))
    || (e.state == Applied && k == 0 && e.externalId.Some? && row.ownerMembershipId.Some?
        && row == WithOrganization(s.row, e.externalId.value, row.ownerMembershipId.value))
  }

  lemma SettledSummary(p: Uuid, s: Saga, k: nat, e: Effect, row: SagaRow, event: Event, actor: string, now: Time,
                       j: nat)
    requires k < |s.effects| && Summary(s) && RowBefore(s, k, e, row)
    requires s.effects[k].state != Applied
    requires var t := Settle(s, k, e, row, event, actor, now);
             Layout(p, t) && EffectsOk(t) && Shaped(t, j) && (j < |t.effects| ==> t.effects[j].state != InFlight)
    ensures Summary(Settle(s, k, e, row, event, actor, now))
  {
    var t := Settle(s, k, e, row, event, actor, now);
    ScanAgrees(p, t, j);
    assert t.effects[0] == if k == 0 then e else s.effects[0];
  }

  lemma SettledInv(p: Uuid, s: Saga, k: nat, e: Effect, row: SagaRow, event: Event, actor: string, now: Time)
    requires SagaInv(p, s) && Shaped(s, k) && k < |s.effects|
    requires MovedBy(s, Settle(s, k, e, row, event, actor, now), k)
    requires EffectOk(e) && e.state != InFlight && RowBefore(s, k, e, row)
    ensures SagaInv(p, Settle(s, k, e, row, event, actor, now))
  {
    var t := Settle(s, k, e, row, event, actor, now);
    assert t.effects[k] == e;
    MovedParts(p, s, t, k);
    SettledSummary(p, s, k, e, row, event, actor, now, CursorAfter(t, k));
  }

  // Only the cursor row can be leased.
  lemma InFlightIsCursor(p: Uuid, s: Saga, k: nat, i: nat)
    requires SagaInv(p, s) && Shaped(s, k)
    requires i < |s.effects| && s.effects[i].state == InFlight
    ensures i == k
    ensures s.row.status == RunningStatus(s.row.cleanupRequested)
  {
    StatusAtCursor(p, s, k);
  }

  lemma OutcomeRowOk(e: Effect, outcome: EffectOutcome, now: Time)
    requires EffectOk(e) && e.state == InFlight && Fits(e.kind, outcome)
    ensures EffectOk(OutcomeRow(e, outcome, now)) && OutcomeRow(e, outcome, now).state != InFlight
  {
  }

  lemma FinalizeMoved(s: Saga, k: nat, record: EffectRecord, outcome: EffectOutcome, actor: string, now: Time)
    requires k < |s.effects| && s.effects[k].state == InFlight && Fits(s.effects[k].kind, outcome)
    ensures MovedBy(s, FinalizeSaga(s, k, record, outcome, actor, now), k)
  {
    var t := FinalizeSaga(s, k, record, outcome, actor, now);
    assert t.effects[k] == OutcomeRow(s.effects[k], outcome, now);
  }

  lemma FinalizeMoves(p: Uuid, s: Saga, k: nat, i: nat, record: EffectRecord, outcome: EffectOutcome, actor: string,
                      now: Time)
    requires SagaInv(p, s) && Shaped(s, k)
    requires Pick(s.effects, Fenced(record.effectId, record.leaseToken)) == Some(i)
    requires Fits(s.effects[i].kind, outcome)
    ensures i == k
    ensures MovedBy(s, FinalizeSaga(s, i, record, outcome, actor, now), k)
    ensures SagaInv(p, FinalizeSaga(s, i, record, outcome, actor, now))
  {
    InFlightIsCursor(p, s, k, i);
    KindsByPlace(p, s, k);
    FinalizeMoved(s, k, record, outcome, actor, now);
    OutcomeRowOk(s.effects[k], outcome, now);
    SettledInv(p, s, k, OutcomeRow(s.effects[k], outcome, now), OutcomeSagaRow(s.row, outcome),
               OutcomeEvent(record, outcome), actor, now);
  }

  // A retry acts on the cursor row, which is the only row in the state it looks for; so its pick
  // does not depend on how the random effect ids happen to sort.
  lemma RetryTargetIsCursor(p: Uuid, s: Saga, k: nat, resolution: Resolution)
    requires Layout(p, s) && Shaped(s, k) && Frozen(s) && Summary(s)
    requires RetryTarget(s, resolution).Ok?
    ensures RetryTarget(s, resolution).value == k < |s.effects|
    ensures Relevant(s.effects[k], s.row.cleanupRequested)
    ensures s.effects[k].state == if s.row.status == ManualReview then Unknown else Failed
    ensures forall i | 0 <= i < |s.effects| && s.effects[i].state == s.effects[k].state :: i == k
  {
    StatusAtCursor(p, s, k);
    RelevantIffPhase(p, s, k);
  }

  function Retried(s: Saga, k: nat, change: Change, input: RetryInput, now: Time): Saga
    requires k < |s.effects|
  {
    Settle(s, k, change.effect, change.row, RetryEvent(input, s.effects[k].kind), input.actor, now)
  }

  lemma ResetMoved(s: Saga, k: nat, input: RetryInput, now: Time)
    requires k < |s.effects| && EffectOk(s.effects[k]) && !input.resolution.ConfirmApplied?
    requires s.effects[k].state == if input.resolution.RetryFailed? then Failed else Unknown
    ensures EffectOk(ResetRow(s.effects[k], now))
    ensures MovedBy(s, Retried(s, k, Change(ResetRow(s.effects[k], now), s.row), input, now), k)
  {
    assert Retried(s, k, Change(ResetRow(s.effects[k], now), s.row), input, now).effects[k] ==
        ResetRow(s.effects[k], now);
  }

  lemma ConfirmedByKind(s: Saga, k: nat, change: Change, input: RetryInput, now: Time)
    requires k < |s.effects| && EffectOk(s.effects[k]) && input.resolution.ConfirmApplied?
    requires s.effects[k].state == Unknown && Resolve(s, k, input, now) == Ok(change)
    ensures SameIdentity(s.effects[k], change.effect) && EffectOk(change.effect)
    ensures change.effect.state == if s.effects[k].kind.RevokeEntitlement? then Compensated else Applied
    ensures change.effect.externalId.Some? == (!s.effects[k].kind.RevokeEntitlement? || s.effects[k].externalId.Some?)
    ensures Recorded(change.effect) == Replayed(change.effect.state, s.effects[k].attempts, None, None)
    ensures if s.effects[k].kind.CreateOrganization? then change.row.organizationId.Some? else change.row == s.row
    ensures change.row.cleanupRequested == s.row.cleanupRequested && change.row.revision == s.row.revision
  {
  }

  lemma ConfirmedMoved(s: Saga, k: nat, input: RetryInput, now: Time)
    requires k < |s.effects| && EffectOk(s.effects[k]) && input.resolution.ConfirmApplied?
    requires s.effects[k].state == Unknown && Resolve(s, k, input, now).Ok?
    ensures var change := Resolve(s, k, input, now).value;
            && EffectOk(change.effect) && change.effect.state != InFlight
            && MovedBy(s, Retried(s, k, change, input, now), k)
  {
    var change := Resolve(s, k, input, now).value;
    ConfirmedByKind(s, k, change, input, now);
    ConfirmationMoved(s, k, change, input, now);
  }

  lemma ConfirmationMoved(s: Saga, k: nat, change: Change, input: RetryInput, now: Time)
    requires k < |s.effects| && input.resolution.ConfirmApplied? && s.effects[k].state == Unknown
    requires SameIdentity(s.effects[k], change.effect)
    requires change.effect.state == if s.effects[k].kind.RevokeEntitlement? then Compensated else Applied
    requires change.effect.externalId.Some? == (!s.effects[k].kind.RevokeEntitlement? || s.effects[k].externalId.Some?)
    requires Recorded(change.effect) == Replayed(change.effect.state, s.effects[k].attempts, None, None)
    requires if s.effects[k].kind.CreateOrganization? then change.row.organizationId.Some? else change.row == s.row
    requires change.row.cleanupRequested == s.row.cleanupRequested && change.row.revision == s.row.revision
    ensures MovedBy(s, Retried(s, k, change, input, now), k)
  {
    assert Retried(s, k, change, input, now).effects[k] == change.effect;
  }

  lemma RetryMoved(s: Saga, k: nat, input: RetryInput, now: Time)
    requires k < |s.effects| && EffectOk(s.effects[k])
    requires s.effects[k].state == if s.row.status == ManualReview then Unknown else Failed
    requires s.row.status != ManualReview ==> input.resolution == RetryFailed
    requires Resolve(s, k, input, now).Ok?
    ensures var change := Resolve(s, k, input, now).value;
            && EffectOk(change.effect) && change.effect.state != InFlight
            && MovedBy(s, Retried(s, k, change, input, now), k)
  {
    if input.resolution.ConfirmApplied? {
      ConfirmedMoved(s, k, input, now);
    } else {
      ResetMoved(s, k, input, now);
    }
  }

  // An accepted retry settles the cursor row with the change its resolution makes.
  lemma RetrySettles(p: Uuid, s: Saga, k: nat, input: RetryInput, now: Time)
    requires Layout(p, s) && Shaped(s, k) && Frozen(s) && Summary(s) && RetrySaga(s, input, now).Ok?
    ensures k < |s.effects| && Resolve(s, k, input, now).Ok?
    ensures s.effects[k].state == if s.row.status == ManualReview then Unknown else Failed
    ensures s.row.status != ManualReview ==> input.resolution == RetryFailed
    ensures var change := Resolve(s, k, input, now).value;
            RetrySaga(s, input, now).value ==
              Settle(s, k, change.effect, change.row, RetryEvent(input, s.effects[k].kind), input.actor, now)
  {
    RetryTargetIsCursor(p, s, k, input.resolution);
  }

  lemma RetryMoves(p: Uuid, s: Saga, k: nat, input: RetryInput, now: Time)
    requires SagaInv(p, s) && Shaped(s, k) && RetrySaga(s, input, now).Ok?
    ensures MovedBy(s, RetrySaga(s, input, now).value, k)
    ensures SagaInv(p, RetrySaga(s, input, now).value)
  {
    RetrySettles(p, s, k, input, now);
    ResolvedInv(p, s, k, input, now);
  }

  lemma ResolvedInv(p: Uuid, s: Saga, k: nat, input: RetryInput, now: Time)
    requires SagaInv(p, s) && Shaped(s, k) && k < |s.effects| && Resolve(s, k, input, now).Ok?
    requires s.effects[k].state == if s.row.status == ManualReview then Unknown else Failed
    requires s.row.status != ManualReview ==> input.resolution == RetryFailed
    ensures var change := Resolve(s, k, input, now).value;
            var t := Settle(s, k, change.effect, change.row, RetryEvent(input, s.effects[k].kind), input.actor, now);
            MovedBy(s, t, k) && SagaInv(p, t)
  {
    var change := Resolve(s, k, input, now).value;
    assert EffectOk(s.effects[k]);
    RetryMoved(s, k, input, now);
    ResolvedBefore(p, s, k, input, now);
    SettledInv(p, s, k, change.effect, change.row, RetryEvent(input, s.effects[k].kind), input.actor, now);
  }

  lemma ResolvedBefore(p: Uuid, s: Saga, k: nat, input: RetryInput, now: Time)
    requires Layout(p, s) && k < |s.effects| && Resolve(s, k, input, now).Ok?
    ensures var change := Resolve(s, k, input, now).value; RowBefore(s, k, change.effect, change.row)
  {
    KindsByPlace(p, s, k);
  }

  /* ---------- quarantine_expired ---------- */

  lemma QuarantineMoved(s: Saga, k: nat, actor: string, now: Time)
    requires k < |s.effects| && EffectOk(s.effects[k]) && s.effects[k].state == InFlight
    ensures s.effects[k].leaseToken.Some?
    ensures MovedBy(s, QuarantineSaga(s, k, actor, now), k)
    ensures EffectOk(QuarantineSaga(s, k, actor, now).effects[k])
  {
  }

  lemma QuarantineSummary(p: Uuid, s: Saga, k: nat, actor: string, now: Time)
    requires k < |s.effects| && s.effects[k].state == InFlight && s.effects[k].leaseToken.Some? && Summary(s)
    requires var t := QuarantineSaga(s, k, actor, now); Layout(p, t) && EffectsOk(t) && Shaped(t, k)
    ensures Summary(QuarantineSaga(s, k, actor, now))
    ensures var t := QuarantineSaga(s, k, actor, now); t.row == Refresh(s.row, t.effects, now)
  {
    var t := QuarantineSaga(s, k, actor, now);
    StatusAtCursor(p, t, k);
    ScanAgrees(p, t, k);
  }

  // The direct status write of a quarantine is what a refresh would have written.
  lemma QuarantineMoves(p: Uuid, s: Saga, k: nat, i: nat, actor: string, now: Time)
    requires SagaInv(p, s) && Shaped(s, k)
    requires Pick(s.effects, Expired(now)) == Some(i)
    ensures i == k && s.effects[k].leaseToken.Some?
    ensures MovedBy(s, QuarantineSaga(s, i, actor, now), k)
    ensures SagaInv(p, QuarantineSaga(s, i, actor, now))
    ensures var t := QuarantineSaga(s, i, actor, now); t.row == Refresh(s.row, t.effects, now)
  {
    InFlightIsCursor(p, s, k, i);
    QuarantineMoved(s, k, actor, now);
    MovedParts(p, s, QuarantineSaga(s, i, actor, now), k);
    QuarantineSummary(p, s, k, actor, now);
  }

  /* ---------- request_cleanup ---------- */

  // The puts selected for revocation are the applied prefix, in order.
  lemma {:induction false} AppliedPutsPrefix(es: seq<Effect>, m: nat, r: nat)
    requires 0 < m && r < m && m <= |es|
    requires forall i | 0 <= i < |es| :: es[i].kind.PutEntitlement? <==> 0 < i
    requires forall i | 0 < i < |es| :: es[i].state == Applied <==> i <= r
    requires |es| == m
    ensures AppliedPuts(es) == es[1..r + 1]
  {
    var n := m - 1;
    if n == 0 {
      assert AppliedPuts(es[..0]) == [];
    } else if n == r {
      assert es[..n][1..r] == es[1..r];
      AppliedPutsPrefix(es[..n], n, r - 1);
      assert es[1..r + 1] == es[1..r] + [es[r]];
    } else {
      AppliedPutsPrefix(es[..n], n, r);
      assert es[..n][1..r + 1] == es[1..r + 1];
    }
  }

  // How many puts are applied when cleanup is accepted.
  function Reversible(k: nat): nat { if k == 0 then 0 else k - 1 }

  // What the status tells about the rows when cleanup is accepted.
  lemma CleanupCursor(p: Uuid, s: Saga, k: nat)
    requires Layout(p, s) && Summary(s) && Shaped(s, k) && !s.row.cleanupRequested
    requires s.row.status in {SagaCompleted, SagaFailed}
    ensures |s.effects| == Split(s) && Reversible(k) < |s.effects|
    ensures s.effects[0].state == if k == 0 then Failed else Applied
    ensures forall i | 0 < i < |s.effects| ::
              if i <= Reversible(k) then s.effects[i].state == Applied else s.effects[i].state in {Pending, Failed}
  {
    StatusAtCursor(p, s, k);
  }

  lemma CleanupPuts(p: Uuid, s: Saga, r: nat)
    requires Layout(p, s) && EffectsOk(s) && !s.row.cleanupRequested && r < |s.effects|
    requires forall i | 0 < i < |s.effects| :: s.effects[i].state == Applied <==> i <= r
    ensures AppliedPuts(s.effects) == s.effects[1..r + 1]
    ensures AllHaveGrantId(AppliedPuts(s.effects))
  {
    forall i | 0 <= i < |s.effects|
      ensures s.effects[i].kind.PutEntitlement? <==> 0 < i
    {
      assert Placed(p, s.effects, Split(s), i);
    }
    AppliedPutsPrefix(s.effects, |s.effects|, r);
    forall i | 0 <= i < r ensures AppliedPuts(s.effects)[i].externalId.Some? {
      assert EffectOk(s.effects[1 + i]);
    }
  }

  // The rows cleanup leaves behind: every old row, skipped if it is an unfinished put, then one
  // revoke for each of the first r puts.
  predicate CleanedUp(p: Uuid, es: seq<Effect>, fs: seq<Effect>, r: nat, ids: seq<Uuid>, now: Time) {
    && r < |es| && r <= |ids|
    && |fs| == |es| + r
    && (forall i | 0 <= i < |es| :: fs[i] == SkipRow(es[i], now))
    && (forall i | |es| <= i < |fs| :: fs[i] == RevokeRow(p, es[1 + (i - |es|)], ids[i - |es|], now))
  }

  lemma CleanupRows(p: Uuid, es: seq<Effect>, r: nat, puts: seq<Effect>, ids: seq<Uuid>, now: Time)
    requires r < |es| && r <= |ids| && puts == es[1..r + 1]
    ensures CleanedUp(p, es, SkipUnfinished(es, now) + RevokeRows(p, puts, ids, now), r, ids, now)
  {
    var kept, added := SkipUnfinished(es, now), RevokeRows(p, puts, ids, now);
    forall i | |es| <= i < |es| + r
      ensures (kept + added)[i] == RevokeRow(p, es[1 + (i - |es|)], ids[i - |es|], now)
    {
      assert puts[i - |es|] == es[1 + (i - |es|)];
    }
  }

  predicate NoRowWithId(es: seq<Effect>, ids: seq<Uuid>) {
    forall i, j | 0 <= i < |es| && 0 <= j < |ids| :: es[i].effectId != ids[j]
  }

  lemma CleanupPlaced(p: Uuid, es: seq<Effect>, fs: seq<Effect>, r: nat, ids: seq<Uuid>, now: Time, i: nat)
    requires CleanedUp(p, es, fs, r, ids, now) && i < |fs|
    requires forall o | 0 <= o < |es| :: Placed(p, es, |es|, o) && EffectOk(es[o])
    requires forall o | 1 <= o <= r :: es[o].state == Applied
    requires |es| <= 1 + MAX_GRANTS
    ensures Placed(p, fs, |es|, i) && EffectOk(fs[i])
  {
    var m := |es|;
    var o := if i < m then i else 1 + (i - m);
    assert Placed(p, es, m, o) && EffectOk(es[o]);
    assert fs[o] == SkipRow(es[o], now);
    if i >= m {
      assert fs[i] == RevokeRow(p, es[o], ids[i - m], now);
    }
  }

  lemma CleanupDistinct(p: Uuid, es: seq<Effect>, fs: seq<Effect>, r: nat, ids: seq<Uuid>, now: Time)
    requires CleanedUp(p, es, fs, r, ids, now)
    requires DistinctIds(es) && Distinct(ids) && NoRowWithId(es, ids)
    ensures DistinctIds(fs)
  {
    forall i | 0 <= i < |fs| ensures fs[i].effectId == if i < |es| then es[i].effectId else ids[i - |es|] {
    }
  }

  lemma CleanupTold(p: Uuid, s: Saga, f: Effect, a: Activity)
    requires JournalOk(s) && a.effectId.None? && a.event.CleanupRequested?
    requires f.kind.RevokeEntitlement? && Recorded(f) == FRESH && !HasRow(s.effects, f.effectId)
    ensures Told(s.log + [a], f)
  {
    ReplayAppend(s.log, a, f.effectId, f.kind);
    ReplayUnmentioned(s.log, f.effectId);
  }

  lemma CleanupJournal(p: Uuid, s: Saga, t: Saga, r: nat, a: Activity, ids: seq<Uuid>, now: Time)
    requires JournalOk(s) && s.row.revision == |s.log|
    requires CleanedUp(p, s.effects, t.effects, r, ids, now) && NoRowWithId(s.effects, ids)
    requires t.log == s.log + [a] && a.effectId.None? && a.event.CleanupRequested?
    requires a.revision == s.row.revision + 1 && t.row.cleanupRequested
    ensures JournalOk(t)
  {
    var m := |s.effects|;
    assert forall j | 0 <= j < |s.log| :: t.log[j] == s.log[j];
    assert t.log[|s.log|] == a;
    forall j | 0 <= j < |t.log| && t.log[j].effectId.Some?
      ensures HasRow(t.effects, t.log[j].effectId.value)
    {
      var i :| 0 <= i < |s.effects| && s.effects[i].effectId == s.log[j].effectId.value;
      assert t.effects[i] == SkipRow(s.effects[i], now);
    }
    forall i | 0 <= i < |t.effects| ensures Told(t.log, t.effects[i]) {
      if i < m {
        assert Told(s.log, s.effects[i]) && t.effects[i] == SkipRow(s.effects[i], now);
        ReplayAppend(s.log, a, s.effects[i].effectId, s.effects[i].kind);
      } else {
        assert t.effects[i] == RevokeRow(p, s.effects[1 + (i - m)], ids[i - m], now);
        CleanupTold(p, s, t.effects[i], a);
      }
    }
  }

  lemma CleanupShape(p: Uuid, s: Saga, t: Saga, r: nat, ids: seq<Uuid>, now: Time)
    requires Begun(s) && Begun(t) && Split(t) == Split(s) == |s.effects| && t.row.cleanupRequested
    requires CleanedUp(p, s.effects, t.effects, r, ids, now)
    requires s.effects[0].state == Applied || (s.effects[0].state == Failed && r == 0)
    requires s.effects[0].kind.CreateOrganization?
    requires forall i | 0 < i < |s.effects| :: s.effects[i].kind.PutEntitlement?
               && if i <= r then s.effects[i].state == Applied else s.effects[i].state in {Pending, Failed}
    ensures Shaped(t, Split(t)) && Frozen(t)
  {
    forall i | 0 < i < |s.effects| ensures t.effects[i].state == if i <= r then Applied else Skipped {
      assert t.effects[i] == SkipRow(s.effects[i], now);
    }
  }

  lemma CleanupSummary(p: Uuid, s: Saga, t: Saga, now: Time)
    requires |s.effects| > 0 && Summary(s) && Layout(p, t) && EffectsOk(t) && Shaped(t, Split(t))
    requires t.row.cleanupRequested && (forall i | Split(t) <= i < |t.effects| :: t.effects[i].state == Pending)
    requires t.row == Refresh(s.row.(cleanupRequested := true, lastError := None), t.effects, now)
    requires t.effects[0].state == s.effects[0].state && t.effects[0].externalId == s.effects[0].externalId
    requires |t.log| == |s.log| + 1
    ensures Summary(t)
  {
    ScanAgrees(p, t, Split(t));
  }

  // What an accepted cleanup does: one revoke per applied put and nothing else, with the applied
  // puts being the first r puts.
  lemma CleanupExact(p: Uuid, s: Saga, k: nat, input: CleanupInput, ids: seq<Uuid>, now: Time)
    requires SagaInv(p, s) && Shaped(s, k) && CleanupRefusal(s, input.expectedRevision).None?
    requires |s.effects| <= |ids|
    ensures AppliedPuts(s.effects) == s.effects[1..Reversible(k) + 1] && AllHaveGrantId(AppliedPuts(s.effects))
    ensures CleanedUp(p, s.effects, CleanupSaga(p, s, input, ids, now).effects, Reversible(k), ids, now)
  {
    CleanupCursor(p, s, k);
    CleanupPuts(p, s, Reversible(k));
    CleanupRows(p, s.effects, Reversible(k), AppliedPuts(s.effects), ids, now);
  }

  lemma CleanupLayout(p: Uuid, s: Saga, t: Saga, r: nat, ids: seq<Uuid>, now: Time)
    requires Layout(p, s) && EffectsOk(s) && |s.effects| == Split(s)
    requires Begun(t) && Split(t) == Split(s) && t.row.cleanupRequested
    requires CleanedUp(p, s.effects, t.effects, r, ids, now)
    requires Distinct(ids) && NoRowWithId(s.effects, ids)
    requires forall o | 1 <= o <= r :: s.effects[o].state == Applied
    ensures Layout(p, t) && EffectsOk(t)
  {
    forall i | 0 <= i < |t.effects| ensures Placed(p, t.effects, Split(t), i) && EffectOk(t.effects[i]) {
      CleanupPlaced(p, s.effects, t.effects, r, ids, now, i);
    }
    CleanupDistinct(p, s.effects, t.effects, r, ids, now);
  }

  // The rows and the log of a cleaned-up saga.
  lemma CleanupBuilds(p: Uuid, s: Saga, t: Saga, r: nat, a: Activity, ids: seq<Uuid>, now: Time)
    requires Layout(p, s) && EffectsOk(s) && JournalOk(s) && |s.effects| == Split(s) && s.row.revision == |s.log|
    requires CleanedUp(p, s.effects, t.effects, r, ids, now) && Distinct(ids) && NoRowWithId(s.effects, ids)
    requires t.log == s.log + [a] && a.effectId.None? && a.event.CleanupRequested?
    requires a.revision == s.row.revision + 1 && t.row.cleanupRequested
    requires forall o | 1 <= o <= r :: s.effects[o].state == Applied
    ensures Layout(p, t) && EffectsOk(t) && JournalOk(t) && Split(t) == Split(s)
  {
    assert t.log[0] == s.log[0];
    CleanupLayout(p, s, t, r, ids, now);
    CleanupJournal(p, s, t, r, a, ids, now);
  }

  lemma CleanupKinds(p: Uuid, s: Saga)
    requires Layout(p, s) && |s.effects| == Split(s)
    ensures forall i | 0 <= i < |s.effects| ::
              s.effects[i].kind == if i == 0 then CreateOrganization else PutEntitlement
  {
    forall i | 0 <= i < |s.effects|
      ensures s.effects[i].kind == if i == 0 then CreateOrganization else PutEntitlement
    {
      KindsByPlace(p, s, i);
    }
  }

  // The saga row and the activity row that a cleanup writes.
  predicate CleanupRecorded(s: Saga, t: Saga, now: Time) {
    && |t.log| > 0 && t.log == s.log + [LastRow(t)]
    && LastRow(t).effectId.None? && LastRow(t).event.CleanupRequested? && LastRow(t).revision == s.row.revision + 1
    && t.row == Refresh(s.row.(cleanupRequested := true, lastError := None), t.effects, now)
  }

  lemma CleanupRecords(p: Uuid, s: Saga, input: CleanupInput, ids: seq<Uuid>, now: Time)
    requires |AppliedPuts(s.effects)| <= |ids|
    ensures CleanupRecorded(s, CleanupSaga(p, s, input, ids, now), now)
  {
  }

  lemma CleanedInv(p: Uuid, s: Saga, t: Saga, k: nat, ids: seq<Uuid>, now: Time)
    requires Layout(p, s) && EffectsOk(s) && Summary(s) && JournalOk(s) && Shaped(s, k)
    requires !s.row.cleanupRequested && s.row.status in {SagaCompleted, SagaFailed}
    requires CleanedUp(p, s.effects, t.effects, Reversible(k), ids, now) && CleanupRecorded(s, t, now)
    requires Distinct(ids) && NoRowWithId(s.effects, ids)
    ensures SagaInv(p, t)
  {
    var r := Reversible(k);
    CleanupCursor(p, s, k);
    CleanupBuilds(p, s, t, r, LastRow(t), ids, now);
    CleanupKinds(p, s);
    CleanupShape(p, s, t, r, ids, now);
    assert t.effects[0] == SkipRow(s.effects[0], now);
    CleanupSummary(p, s, t, now);
  }

  lemma CleanupInv(p: Uuid, s: Saga, k: nat, input: CleanupInput, ids: seq<Uuid>, now: Time)
    requires SagaInv(p, s) && Shaped(s, k) && CleanupRefusal(s, input.expectedRevision).None?
    requires |s.effects| <= |ids| && Distinct(ids) && NoRowWithId(s.effects, ids)
    ensures AppliedPuts(s.effects) == s.effects[1..Reversible(k) + 1]
    ensures SagaInv(p, CleanupSaga(p, s, input, ids, now))
  {
    CleanupExact(p, s, k, input, ids, now);
    CleanupRecords(p, s, input, ids, now);
    CleanedInv(p, s, CleanupSaga(p, s, input, ids, now), k, ids, now);
  }
}
