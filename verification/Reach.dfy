/** The invariant of the tables holds in every reachable state. */
module Reach {
  import opened Options
  import opened Keys
  import opened Rows
  import opened Sagas
  import opened Journal
  import opened Invariant
  import opened Preservation
  import opened Database
  import opened Runs

  /* ---------- What one step touches ---------- */

  // The saga a step may change.
  function Target(step: Step): Uuid {
    match step
    case StartStep(input, _, _) => input.provisioningId
    case ClaimStep(p, _, _, _, _) => p
    case FinalizeStep(record, _, _, _) => record.provisioningId
    case QuarantineStep(p, _, _) => p
    case RetryStep(input, _) => input.provisioningId
    case CleanupStep(input, _, _) => input.provisioningId
  }

  function NewIds(step: Step): set<Uuid> {
    match step
    case StartStep(_, ids, _) => set i | 0 <= i < |ids| :: ids[i]
    case CleanupStep(_, ids, _) => set i | 0 <= i < |ids| :: ids[i]
    case _ => {}
  }

  function NewFences(step: Step): set<Uuid> {
    match step
    case ClaimStep(_, fence, _, _, _) => {fence}
    case _ => {}
  }

  function Find(db: Db, p: Uuid): Option<Saga> {
    if p in db.sagas then Some(db.sagas[p]) else None
  }

  // t is a good next version of a saga (or a good new saga), bringing only these ids and fences.
  ghost predicate NextVersion(p: Uuid, before: Option<Saga>, t: Saga, ids: set<Uuid>, fences: set<Uuid>) {
    && SagaInv(p, t)
    && (before.Some? ==> Stepped(p, before.value, t))
    && |t.log| > 0
    && (before.Some? && LastRow(t).event.EffectClaimed? ==> LastRow(t).event.fence in fences)
    && RowIds(t.effects) <= (if before.Some? then RowIds(before.value.effects) else {}) + ids
    && Fences(t.log) <= (if before.Some? then Fences(before.value.log) else {}) + fences
  }

  // A step leaves the sagas alone, or replaces one by its next version.
  ghost predicate Touched(db: Db, d: Db, step: Step) {
    var p := Target(step);
    || d.sagas == db.sagas
    || (p in d.sagas && d.sagas == db.sagas[p := d.sagas[p]]
        && NextVersion(p, Find(db, p), d.sagas[p], NewIds(step), NewFences(step)))
  }

  lemma TouchedBy(db: Db, d: Db, step: Step, t: Saga)
    requires d.sagas == db.sagas[Target(step) := t]
    requires NextVersion(Target(step), Find(db, Target(step)), t, NewIds(step), NewFences(step))
    ensures Touched(db, d, step)
  {
  }

  ghost predicate TargetInv(db: Db, step: Step) {
    Target(step) in db.sagas ==> SagaInv(Target(step), db.sagas[Target(step)])
  }

  lemma SteppedIds(s: Saga, t: Saga)
    requires Moves(s, t)
    ensures RowIds(t.effects) == RowIds(s.effects)
    ensures |t.log| > 0
    ensures Fences(t.log) == Fences(s.log) + if LastRow(t).event.EffectClaimed? then {LastRow(t).event.fence} else {}
  {
    var k :| Shaped(s, k) && MovedBy(s, t, k);
    MovedIds(s, t, k);
  }

  // A step that kept its saga's cleanup flag moved one row of it.
  lemma MoveVersion(p: Uuid, s: Saga, t: Saga, fences: set<Uuid>)
    requires Stepped(p, s, t) && SagaInv(p, t) && t.row.cleanupRequested == s.row.cleanupRequested
    requires |t.log| > 0 && (LastRow(t).event.EffectClaimed? ==> LastRow(t).event.fence in fences)
    ensures NextVersion(p, Some(s), t, {}, fences)
  {
    assert Moves(s, t);
    SteppedIds(s, t);
  }

  function StartedSaga(input: StartInput, ids: seq<Uuid>, now: Time): Saga
    requires |ids| == 1 + |input.grants|
  {
    NewSaga(input.provisioningId, input.actor, input.name, input.slug, input.ownerSubject, input.grants, ids, now)
  }

  lemma StartTables(db: Db, input: StartInput, ids: seq<Uuid>, now: Time)
    requires |ids| == 1 + |input.grants|
    ensures var d := StartTransaction(db, input, ids, now).db;
            d.sagas == db.sagas || d.sagas == db.sagas[input.provisioningId := StartedSaga(input, ids, now)]
  {
  }

  lemma StartTouches(db: Db, step: Step)
    requires step.StartStep? && Enabled(db, step)
    ensures Touched(db, Next(db, step), step)
  {
    StartTables(db, step.start, step.startIds, step.now);
    StartVersion(step.start, step.startIds, step.now);
    if Next(db, step).sagas != db.sagas {
      TouchedBy(db, Next(db, step), step, StartedSaga(step.start, step.startIds, step.now));
    }
  }

  lemma StartVersion(input: StartInput, ids: seq<Uuid>, now: Time)
    requires StartOk(input.name, input.slug, input.ownerSubject, input.grants, ids)
    ensures NextVersion(input.provisioningId, None, StartedSaga(input, ids, now), set i | 0 <= i < |ids| :: ids[i], {})
  {
    var p := input.provisioningId;
    StartInv(p, input.actor, input.name, input.slug, input.ownerSubject, input.grants, ids, now);
    NewIdsOnly(p, input.grants, ids, now);
  }

  lemma NewIdsOnly(p: Uuid, grants: seq<Grant>, ids: seq<Uuid>, now: Time)
    requires |ids| == 1 + |grants|
    ensures RowIds(NewEffects(p, grants, ids, now)) <= set i | 0 <= i < |ids| :: ids[i]
  {
    var es := NewEffects(p, grants, ids, now);
    forall i | 0 <= i < |es| ensures es[i].effectId == ids[i] {
      if i == 0 {
        assert es[0] == CreateRow(p, ids[0], now);
      } else {
        assert es[i] == PutRow(p, i - 1, grants[i - 1], ids[i], now);
      }
    }
  }

  lemma ClaimTouches(db: Db, step: Step)
    requires step.ClaimStep? && TargetInv(db, step) && Enabled(db, step)
    ensures Touched(db, Next(db, step), step)
  {
    var p, s := step.claimed, db.sagas[step.claimed];
    ClaimStepped(p, s, step.fence, step.until, step.actor, step.now);
    var t := ClaimSaga(s, ClaimPick(s).value, step.fence, step.until, step.actor, step.now);
    MoveVersion(p, s, t, {step.fence});
    TouchedBy(db, Next(db, step), step, t);
  }

  lemma QuarantineTouches(db: Db, step: Step)
    requires step.QuarantineStep? && TargetInv(db, step) && Enabled(db, step)
    ensures Touched(db, Next(db, step), step)
  {
    var p, s := step.expired, db.sagas[step.expired];
    var i := Pick(s.effects, Expired(step.now)).value;
    QuarantineStepped(p, s, i, step.actor, step.now);
    var t := QuarantineSaga(s, i, step.actor, step.now);
    MoveVersion(p, s, t, {});
    TouchedBy(db, Next(db, step), step, t);
  }

  // A row still leased under a fence got it from a recorded claim.
  lemma {:induction false} LeaseWasClaimed(log: seq<Activity>, id: Uuid, kind: Kind)
    ensures Replay(log, id, kind).leaseToken.Some? ==> Replay(log, id, kind).leaseToken.value in Fences(log)
  {
    if |log| > 0 {
      var n := |log| - 1;
      LeaseWasClaimed(log[..n], id, kind);
      AppendedFences(log[..n], log[n]);
      assert log[..n] + [log[n]] == log;
    }
  }

  // Every claim of a row records the row's kind.
  lemma {:induction false} ClaimsHaveKind(log: seq<Activity>, id: Uuid, kind: Kind)
    requires LegalLog(log, id, kind)
    ensures forall j | 0 <= j < |log| && ClaimOf(log[j], id) :: log[j].event.claimedKind == kind
  {
    if |log| > 0 {
      var n := |log| - 1;
      ClaimsHaveKind(log[..n], id, kind);
      assert forall j | 0 <= j < n :: log[j] == log[..n][j];
    }
  }

  // So an issued record's kind is the row's kind.
  lemma IssuedKind(s: Saga, record: EffectRecord, i: nat)
    requires JournalOk(s) && IssuedIn(s.log, record)
    requires i < |s.effects| && s.effects[i].effectId == record.effectId
    ensures s.effects[i].kind == record.kind
  {
    assert Told(s.log, s.effects[i]);
    ClaimsHaveKind(s.log, record.effectId, s.effects[i].kind);
  }

  lemma FinalizeKeepsPhase(s: Saga, i: nat, record: EffectRecord, outcome: EffectOutcome, actor: string, now: Time)
    requires i < |s.effects|
    ensures var t := FinalizeSaga(s, i, record, outcome, actor, now);
            t.row.cleanupRequested == s.row.cleanupRequested && |t.log| > 0 && !LastRow(t).event.EffectClaimed?
  {
  }

  lemma FinalizeVersion(p: Uuid, s: Saga, i: nat, record: EffectRecord, outcome: EffectOutcome, actor: string,
                        now: Time)
    requires SagaInv(p, s) && IssuedIn(s.log, record) && Fits(record.kind, outcome)
    requires Pick(s.effects, Fenced(record.effectId, record.leaseToken)) == Some(i)
    ensures NextVersion(p, Some(s), FinalizeSaga(s, i, record, outcome, actor, now), {}, {})
  {
    IssuedKind(s, record, i);
    FinalizeStepped(p, s, i, record, outcome, actor, now);
    FinalizeKeepsPhase(s, i, record, outcome, actor, now);
    MoveVersion(p, s, FinalizeSaga(s, i, record, outcome, actor, now), {});
  }

  lemma FinalizeTouches(db: Db, step: Step)
    requires step.FinalizeStep? && TargetInv(db, step) && Enabled(db, step)
    ensures Touched(db, Next(db, step), step)
  {
    var p := step.record.provisioningId;
    var s, pick := db.sagas[p], FencedRow(db, step.record);
    if pick.Some? && Fits(step.record.kind, step.outcome) {
      FinalizeVersion(p, s, pick.value, step.record, step.outcome, step.actor, step.now);
      TouchedBy(db, Next(db, step), step, FinalizeSaga(s, pick.value, step.record, step.outcome, step.actor, step.now));
    }
  }

  lemma RetryVersion(p: Uuid, s: Saga, input: RetryInput, now: Time)
    requires SagaInv(p, s) && RetrySaga(s, input, now).Ok?
    ensures NextVersion(p, Some(s), RetrySaga(s, input, now).value, {}, {})
  {
    RetryStepped(p, s, input, now);
    var k := CursorOf(p, s);
    RetryTargetIsCursor(p, s, k, input.resolution);
    MoveVersion(p, s, RetrySaga(s, input, now).value, {});
  }

  lemma RetryTables(db: Db, input: RetryInput, now: Time)
    ensures var d, p := RetryTransaction(db, input, now).db, input.provisioningId;
            d.sagas == db.sagas ||
            (p in db.sagas && RetrySaga(db.sagas[p], input, now).Ok?
             && d.sagas == db.sagas[p := RetrySaga(db.sagas[p], input, now).value])
  {
  }

  lemma RetryTouches(db: Db, step: Step)
    requires step.RetryStep? && TargetInv(db, step)
    ensures Touched(db, Next(db, step), step)
  {
    var p := step.retry.provisioningId;
    RetryTables(db, step.retry, step.now);
    if Next(db, step).sagas != db.sagas {
      RetryVersion(p, db.sagas[p], step.retry, step.now);
      TouchedBy(db, Next(db, step), step, RetrySaga(db.sagas[p], step.retry, step.now).value);
    }
  }

  lemma CleanupSagaIds(p: Uuid, s: Saga, input: CleanupInput, ids: seq<Uuid>, now: Time)
    requires SagaInv(p, s) && CleanupRefusal(s, input.expectedRevision).None? && |s.effects| <= |ids|
    ensures var t := CleanupSaga(p, s, input, ids, now);
            && RowIds(t.effects) <= RowIds(s.effects) + (set i | 0 <= i < |ids| :: ids[i])
            && Fences(t.log) == Fences(s.log)
  {
    var k := CursorOf(p, s);
    CleanupExact(p, s, k, input, ids, now);
    var t := CleanupSaga(p, s, input, ids, now);
    CleanedIds(p, s, t, Reversible(k), ids, now);
    AppendedFences(s.log, LastRow(t));
  }

  lemma CleanupVersion(p: Uuid, s: Saga, input: CleanupInput, ids: seq<Uuid>, now: Time)
    requires SagaInv(p, s) && CleanupRefusal(s, input.expectedRevision).None?
    requires |s.effects| <= |ids| && Distinct(ids) && NoRowWithId(s.effects, ids)
    ensures NextVersion(p, Some(s), CleanupSaga(p, s, input, ids, now), set i | 0 <= i < |ids| :: ids[i], {})
  {
    CleanupStepped(p, s, input, ids, now);
    CleanupSagaIds(p, s, input, ids, now);
  }

  lemma FreshHere(db: Db, p: Uuid, ids: seq<Uuid>)
    requires p in db.sagas && FreshIds(db, ids)
    ensures NoRowWithId(db.sagas[p].effects, ids)
  {
    forall i, j | 0 <= i < |db.sagas[p].effects| && 0 <= j < |ids| ensures db.sagas[p].effects[i].effectId != ids[j] {
      assert db.sagas[p].effects[i].effectId in RowIds(db.sagas[p].effects) && FreshId(db, ids[j]);
    }
  }

  lemma CleanupTables(db: Db, input: CleanupInput, ids: seq<Uuid>, now: Time)
    requires EnoughIds(db, input.provisioningId, ids)
    ensures var d, p := CleanupTransaction(db, input, ids, now).db, input.provisioningId;
            d.sagas == db.sagas ||
            (p in db.sagas && CleanupRefusal(db.sagas[p], input.expectedRevision).None?
             && d.sagas == db.sagas[p := CleanupSaga(p, db.sagas[p], input, ids, now)])
  {
  }

  lemma CleanupTouches(db: Db, step: Step)
    requires step.CleanupStep? && TargetInv(db, step) && Enabled(db, step)
    ensures Touched(db, Next(db, step), step)
  {
    var p := step.cleanup.provisioningId;
    CleanupTables(db, step.cleanup, step.cleanupIds, step.now);
    if Next(db, step).sagas != db.sagas {
      FreshHere(db, p, step.cleanupIds);
      CleanupVersion(p, db.sagas[p], step.cleanup, step.cleanupIds, step.now);
      TouchedBy(db, Next(db, step), step, CleanupSaga(p, db.sagas[p], step.cleanup, step.cleanupIds, step.now));
    }
  }

  lemma WorkerTouches(db: Db, step: Step)
    requires step.ClaimStep? || step.FinalizeStep? || step.QuarantineStep?
    requires TargetInv(db, step) && Enabled(db, step)
    ensures Touched(db, Next(db, step), step)
  {
    if step.ClaimStep? {
      ClaimTouches(db, step);
    } else if step.FinalizeStep? {
      FinalizeTouches(db, step);
    } else {
      QuarantineTouches(db, step);
    }
  }

  lemma PublicTouches(db: Db, step: Step)
    requires step.StartStep? || step.RetryStep? || step.CleanupStep?
    requires TargetInv(db, step) && Enabled(db, step)
    ensures Touched(db, Next(db, step), step)
  {
    if step.StartStep? {
      StartTouches(db, step);
    } else if step.RetryStep? {
      RetryTouches(db, step);
    } else {
      CleanupTouches(db, step);
    }
  }

  lemma StepTouches(db: Db, step: Step)
    requires TargetInv(db, step)
    ensures Touched(db, Next(db, step), step)
  {
    if Enabled(db, step) {
      if step.ClaimStep? || step.FinalizeStep? || step.QuarantineStep? {
        WorkerTouches(db, step);
      } else {
        PublicTouches(db, step);
      }
    }
  }

  /* ---------- The invariant of the tables is kept ---------- */

  // The ids and fences a step brings are fresh.
  lemma NewAreFresh(db: Db, step: Step)
    requires Enabled(db, step)
    ensures forall id | id in NewIds(step) :: FreshId(db, id)
    ensures forall fence | fence in NewFences(step) :: FreshFence(db, fence)
  {
  }

  // Some saga change moved only ids and fences that were its own or fresh.
  predicate OwnOrFresh(db: Db, p: Uuid, t: Saga) {
    && (forall id | id in RowIds(t.effects) :: FreshId(db, id) || (p in db.sagas && id in RowIds(db.sagas[p].effects)))
    && (forall f | f in Fences(t.log) :: FreshFence(db, f) || (p in db.sagas && f in Fences(db.sagas[p].log)))
  }

  lemma TouchedSagasInv(db: Db, d: Db, step: Step)
    requires SagasInv(db) && Touched(db, d, step)
    ensures SagasInv(d)
  {
    if d.sagas != db.sagas {
      PutSagasInv(db, Target(step), d.sagas[Target(step)]);
      assert d.sagas == Put(db, Target(step), d.sagas[Target(step)]).sagas;
    }
  }

  lemma NextSagasInv(db: Db, step: Step)
    requires SagasInv(db)
    ensures SagasInv(Next(db, step))
  {
    StepTouches(db, step);
    TouchedSagasInv(db, Next(db, step), step);
  }

  lemma VersionOwnOrFresh(db: Db, p: Uuid, t: Saga, ids: set<Uuid>, fences: set<Uuid>)
    requires RowIds(t.effects) <= (if p in db.sagas then RowIds(db.sagas[p].effects) else {}) + ids
    requires Fences(t.log) <= (if p in db.sagas then Fences(db.sagas[p].log) else {}) + fences
    requires forall id | id in ids :: FreshId(db, id)
    requires forall fence | fence in fences :: FreshFence(db, fence)
    ensures OwnOrFresh(db, p, t)
  {
  }

  lemma NextDisjoint(db: Db, step: Step)
    requires TargetInv(db, step) && DisjointRows(db) && Enabled(db, step)
    ensures DisjointRows(Next(db, step))
  {
    var d, p := Next(db, step), Target(step);
    StepTouches(db, step);
    if d.sagas != db.sagas {
      NewAreFresh(db, step);
      VersionOwnOrFresh(db, p, d.sagas[p], NewIds(step), NewFences(step));
      PutDisjoint(db, p, d.sagas[p]);
      assert d.sagas == Put(db, p, d.sagas[p]).sagas;
    }
  }
}
