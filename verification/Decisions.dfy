/** What operators' decisions do: retries, cleanup, and the revision they must name. */
module Decisions {
  import opened Options
  import opened Keys
  import opened Rows
  import opened Sagas
  import opened Invariant
  import opened Preservation
  import opened Database
  import opened Runs
  import opened Reach
  import opened Histories

  /* ---------- retry ---------- */

  // The observed ids a confirm_applied must bring for each kind of effect.
  predicate ObservesKind(input: RetryInput, kind: Kind) {
    match kind
    case CreateOrganization =>
      input.observedOrganizationId.Some? && input.observedOwnerMembershipId.Some? && input.observedGrantId.None?
    case PutEntitlement =>
      input.observedOrganizationId.None? && input.observedOwnerMembershipId.None? && input.observedGrantId.Some?
    case RevokeEntitlement => ObservesNothing(input)
  }

  // When a retry is accepted, in terms of what its caller can see in the saga's view.
  predicate RetryAcceptable(s: Saga, k: nat, input: RetryInput) {
    && input.expectedRevision == s.row.revision
    && k < |s.effects|
    && (if s.row.status == ManualReview then
          match input.resolution {
            case RetryFailed => false
            case ConfirmNotApplied => ObservesNothing(input)
            case ConfirmApplied => ObservesKind(input, s.effects[k].kind)
          }
        else s.row.status in {SagaFailed, CleanupFailed} && input.resolution == RetryFailed && ObservesNothing(input))
  }

  predicate CanBeRetried(status: Status, resolution: Resolution) {
    status == ManualReview || (status in {SagaFailed, CleanupFailed} && resolution == RetryFailed)
  }

  // In the three blocked statuses there is always a row to act on, and it is the cursor row.
  lemma BlockedHasTarget(p: Uuid, s: Saga, k: nat, resolution: Resolution)
    requires SagaInv(p, s) && Shaped(s, k)
    requires CanBeRetried(s.row.status, resolution)
    ensures RetryTarget(s, resolution) == Ok(k)
  {
    StatusAtCursor(p, s, k);
    PickFinds(s.effects, WithState(s.effects[k].state), k);
    if RetryTarget(s, resolution).Ok? { RetryTargetIsCursor(p, s, k, resolution); }
  }

  // Whether a resolution is accepted on row k, in terms of the row's kind.
  lemma ResolutionAccepted(s: Saga, k: nat, input: RetryInput, now: Time)
    requires k < |s.effects|
    requires s.row.status == ManualReview || input.resolution == RetryFailed
    ensures Resolve(s, k, input, now).Ok? <==>
            match input.resolution {
              case RetryFailed => s.row.status != ManualReview && ObservesNothing(input)
              case ConfirmNotApplied => ObservesNothing(input)
              case ConfirmApplied => ObservesKind(input, s.effects[k].kind)
            }
  {
  }

  lemma RetryAccepted(p: Uuid, s: Saga, k: nat, input: RetryInput, now: Time)
    requires SagaInv(p, s) && Shaped(s, k)
    ensures RetrySaga(s, input, now).Ok? <==> RetryAcceptable(s, k, input)
  {
    if CanBeRetried(s.row.status, input.resolution) {
      BlockedHasTarget(p, s, k, input.resolution);
      ResolutionAccepted(s, k, input, now);
    } else {
      assert RetryTarget(s, input.resolution).Err?;
    }
  }

  lemma SettledStatus(p: Uuid, t: Saga, k: nat, j: nat)
    requires Layout(p, t) && Summary(t) && Shaped(t, j) && k < |t.effects|
    requires j == CursorAfter(t, k) && t.effects[k].state in {Pending, Applied, Compensated}
    requires j < |t.effects| ==> t.effects[j].state == Pending
    ensures t.row.status ==
            if j == |t.effects| then CompletedStatus(t.row.cleanupRequested) else PendingStatus(t.row.cleanupRequested)
  {
    StatusAtCursor(p, t, j);
  }

  lemma UnblockedStatus(p: Uuid, s: Saga, t: Saga, k: nat, confirmed: bool)
    requires Layout(p, s) && Frozen(s) && Shaped(s, k) && MovedBy(s, t, k) && Layout(p, t) && Summary(t)
    requires t.effects[k].state == if confirmed then DoneState(s.row.cleanupRequested) else Pending
    ensures t.row.status ==
            if confirmed && k + 1 == |s.effects| then CompletedStatus(s.row.cleanupRequested)
            else PendingStatus(s.row.cleanupRequested)
  {
    MovedProgress(p, s, t, k, LastRow(t));
    SettledStatus(p, t, k, CursorAfter(t, k));
  }

  lemma ResolvedState(p: Uuid, s: Saga, k: nat, input: RetryInput, now: Time)
    requires Layout(p, s) && Shaped(s, k) && k < |s.effects| && Resolve(s, k, input, now).Ok?
    ensures Resolve(s, k, input, now).value.effect.state ==
            if input.resolution == ConfirmApplied then DoneState(s.row.cleanupRequested) else Pending
  {
    RelevantIffPhase(p, s, k);
  }

  // An accepted retry always leaves the blocked status: the saga is due again, or finished when
  // its last open row was confirmed.
  lemma RetryUnblocks(p: Uuid, s: Saga, k: nat, input: RetryInput, now: Time)
    requires SagaInv(p, s) && Shaped(s, k) && RetrySaga(s, input, now).Ok?
    ensures k < |s.effects|
    ensures RetrySaga(s, input, now).value.row.status ==
            if input.resolution == ConfirmApplied && k + 1 == |s.effects|
            then CompletedStatus(s.row.cleanupRequested) else PendingStatus(s.row.cleanupRequested)
  {
    RetryMoves(p, s, k, input, now);
    RetrySettles(p, s, k, input, now);
    ResolvedState(p, s, k, input, now);
    UnblockedStatus(p, s, RetrySaga(s, input, now).value, k, input.resolution == ConfirmApplied);
  }

  /* ---------- request_cleanup ---------- */

  // The revoke of an applied put: it carries the put's id, ordinal and grant id.
  predicate RevokeOf(revoke: Effect, put: Effect) {
    && put.kind == PutEntitlement && put.state == Applied && put.externalId.Some?
    && revoke.kind == RevokeEntitlement
    && revoke.sourceEffectId == Some(put.effectId) && revoke.ordinal == put.ordinal
    && revoke.externalId == put.externalId
  }

  // After cleanup the revokes and the applied puts correspond one to one, in order, and a put is
  // applied exactly when some revoke names it.
  predicate RevokesMatch(s: Saga)
    requires Begun(s)
  {
    var m := Split(s);
    && m <= |s.effects| < 2 * m
    && (forall j | m <= j < |s.effects| :: RevokeOf(s.effects[j], s.effects[1 + (j - m)]))
    && (forall i | 0 < i < m :: s.effects[i].state == Applied <==> NamedByRevoke(s.effects, m, s.effects[i].effectId))
  }

  predicate NamedByRevoke(es: seq<Effect>, m: nat, id: Uuid) {
    exists j :: m <= j < |es| && es[j].sourceEffectId == Some(id)
  }

  lemma RevokeFacts(p: Uuid, s: Saga, j: nat)
    requires Layout(p, s) && EffectsOk(s) && Frozen(s) && s.row.cleanupRequested
    requires Split(s) <= j < |s.effects|
    ensures RevokeOf(s.effects[j], s.effects[1 + (j - Split(s))])
  {
    var i := 1 + (j - Split(s));
    KindsByPlace(p, s, i);
    assert Placed(p, s.effects, Split(s), j) && s.effects[i].ordinal == i - 1 by {
      assert Placed(p, s.effects, Split(s), i);
    }
    assert EffectOk(s.effects[i]);
  }

  lemma CleanupIsExact(p: Uuid, s: Saga)
    requires SagaInv(p, s) && s.row.cleanupRequested
    ensures RevokesMatch(s)
  {
    var m := Split(s);
    forall j | m <= j < |s.effects| ensures RevokeOf(s.effects[j], s.effects[1 + (j - m)]) {
      RevokeFacts(p, s, j);
    }
    forall i | 0 < i < m ensures s.effects[i].state == Applied <==> NamedByRevoke(s.effects, m, s.effects[i].effectId) {
      NamedIffApplied(s, m, i);
    }
  }

  lemma NamedIffApplied(s: Saga, m: nat, i: nat)
    requires Begun(s) && m == Split(s) <= |s.effects| < 2 * m && s.row.cleanupRequested && Frozen(s)
    requires DistinctIds(s.effects) && 0 < i < m
    requires forall j | m <= j < |s.effects| :: RevokeOf(s.effects[j], s.effects[1 + (j - m)])
    ensures s.effects[i].state == Applied <==> NamedByRevoke(s.effects, m, s.effects[i].effectId)
  {
    if i <= |s.effects| - m {
      var j := m + (i - 1);
      assert RevokeOf(s.effects[j], s.effects[1 + (j - m)]);
      assert NamedByRevoke(s.effects, m, s.effects[i].effectId);
    }
    if NamedByRevoke(s.effects, m, s.effects[i].effectId) {
      var j :| m <= j < |s.effects| && s.effects[j].sourceEffectId == Some(s.effects[i].effectId);
      assert RevokeOf(s.effects[j], s.effects[1 + (j - m)]);
      assert i == 1 + (j - m);
    }
  }

  // A saga reported completed has applied everything it set out to do.
  lemma CompletedMeans(p: Uuid, s: Saga)
    requires SagaInv(p, s) && s.row.status == SagaCompleted
    ensures !s.row.cleanupRequested && s.row.organizationId.Some? && s.row.completedAt.Some?
    ensures forall i | 0 <= i < |s.effects| :: s.effects[i].state == Applied && s.effects[i].externalId.Some?
  {
    var k := CursorOf(p, s);
    StatusAtCursor(p, s, k);
    forall i | 0 <= i < |s.effects| ensures s.effects[i].state == Applied && s.effects[i].externalId.Some? {
      assert EffectOk(s.effects[i]);
    }
  }

  // A saga reported cleanup_completed has compensated every revoke, so every grant it applied.
  lemma CleanupCompletedMeans(p: Uuid, s: Saga)
    requires SagaInv(p, s) && s.row.status == CleanupCompleted
    ensures s.row.cleanupRequested && RevokesMatch(s)
    ensures forall j | Split(s) <= j < |s.effects| :: s.effects[j].state == Compensated
    ensures s.row.organizationResidue == s.row.organizationId.Some?
  {
    var k := CursorOf(p, s);
    StatusAtCursor(p, s, k);
    CleanupIsExact(p, s);
  }

  // Over any run after cleanup was requested: no create or put row changes any more (so none is
  // claimed), no revoke is added, each revoke keeps its identity, and the organization ids stay.
  lemma CleanupIsFinal(db: Db, steps: seq<Step>, p: Uuid)
    requires SagasInv(db) && p in db.sagas && db.sagas[p].row.cleanupRequested
    ensures Begun(db.sagas[p]) && p in Run(db, steps).sagas
    ensures CleanupStays(db.sagas[p], Run(db, steps).sagas[p])
  {
    RunLater(db, steps, p);
  }

  /* ---------- Revisions as compare-and-swap ---------- */

  // The revision a decision names; -1 for worker steps, which name none.
  function Expects(step: Step): int {
    match step
    case RetryStep(input, _) => input.expectedRevision
    case CleanupStep(input, _, _) => input.expectedRevision
    case _ => -1
  }

  predicate Decision(step: Step) {
    step.RetryStep? || step.CleanupStep?
  }

  // The step is a decision on saga p that was newly carried out.
  predicate Decides(db: Db, step: Step, p: Uuid) {
    Decision(step) && p in db.sagas && p in Next(db, step).sagas && Next(db, step).sagas[p] != db.sagas[p]
  }

  lemma DecisionNamesRevision(db: Db, step: Step, p: Uuid)
    requires Decides(db, step, p)
    ensures Expects(step) == db.sagas[p].row.revision
  {
  }

  // A step raises the revision of the saga it changes by exactly one and touches no other saga.
  lemma StepRaisesRevision(db: Db, step: Step, p: Uuid)
    requires TargetInv(db, step) && p in db.sagas
    ensures p in Next(db, step).sagas
    ensures Next(db, step).sagas[p] == db.sagas[p]
            || (p == Target(step) && Next(db, step).sagas[p].row.revision == db.sagas[p].row.revision + 1)
  {
    NextStepped(db, step, p);
  }

  lemma RevisionGrows(db: Db, steps: seq<Step>, p: Uuid)
    requires SagasInv(db) && p in db.sagas
    ensures p in Run(db, steps).sagas && db.sagas[p].row.revision <= Run(db, steps).sagas[p].row.revision
  {
    RunLater(db, steps, p);
  }

  // Along any run, two decisions carried out on one saga named different revisions, the later one a
  // greater one: at most one new retry or cleanup succeeds at each revision.
  lemma OneDecisionPerRevision(db: Db, steps: seq<Step>, p: Uuid, i: nat, j: nat)
    requires SagasInv(db) && i < j < |steps|
    requires Decides(Run(db, steps[..i]), steps[i], p) && Decides(Run(db, steps[..j]), steps[j], p)
    ensures Expects(steps[i]) < Expects(steps[j])
  {
    DecisionNamesRevision(Run(db, steps[..i]), steps[i], p);
    DecisionNamesRevision(Run(db, steps[..j]), steps[j], p);
    RunStaysInv(db, steps[..i]);
    RaisedAt(Run(db, steps[..i]), steps[i], p);
    SplitRun(db, steps, i, j);
    RevisionGrows(Next(Run(db, steps[..i]), steps[i]), steps[i + 1..j], p);
  }

  lemma RaisedAt(db: Db, step: Step, p: Uuid)
    requires SagasInv(db) && Decides(db, step, p)
    ensures SagasInv(Next(db, step)) && Next(db, step).sagas[p].row.revision == db.sagas[p].row.revision + 1
  {
    TargetFromAll(db, step);
    StepRaisesRevision(db, step, p);
    NextSagasInv(db, step);
  }
}
