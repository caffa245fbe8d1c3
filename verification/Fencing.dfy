/** Lease tokens: each is resolved at most once. */
module Fencing {
  import opened Options
  import opened Keys
  import opened Rows
  import opened Sagas
  import opened Invariant
  import opened Preservation
  import opened Database
  import opened Runs
  import opened Reach
  import opened Histories

  predicate HeldIn(es: seq<Effect>, token: Uuid) {
    exists i :: 0 <= i < |es| && es[i].leaseToken == Some(token)
  }

  // Some row of saga p is leased under the token.
  predicate Held(db: Db, p: Uuid, token: Uuid) {
    p in db.sagas && HeldIn(db.sagas[p].effects, token)
  }

  // The token was handed out for saga p and its lease is over.
  predicate SpentIn(s: Saga, token: Uuid) {
    token in Fences(s.log) && !HeldIn(s.effects, token)
  }

  predicate Spent(db: Db, p: Uuid, token: Uuid) {
    p in db.sagas && SpentIn(db.sagas[p], token)
  }

  // The lease under the token is ended between two states: by a finalization with the token, or a
  // quarantine of it.
  predicate Ended(db: Db, d: Db, p: Uuid, token: Uuid) {
    Held(db, p, token) && !Held(d, p, token)
  }

  lemma HeldWasIssued(p: Uuid, s: Saga, token: Uuid)
    requires SagaInv(p, s) && HeldIn(s.effects, token)
    ensures token in Fences(s.log)
  {
    var i :| 0 <= i < |s.effects| && s.effects[i].leaseToken == Some(token);
    assert Told(s.log, s.effects[i]);
    LeaseWasClaimed(s.log, s.effects[i].effectId, s.effects[i].kind);
  }

  lemma MovedStaysSpent(s: Saga, t: Saga, k: nat, token: Uuid)
    requires MovedBy(s, t, k) && SpentIn(s, token)
    requires LastRow(t).event.EffectClaimed? ==> LastRow(t).event.fence != token
    ensures SpentIn(t, token)
  {
    MovedIds(s, t, k);
    assert !LastRow(t).event.EffectClaimed? ==> t.effects[k].leaseToken.None?;
    assert forall i | 0 <= i < |t.effects| && i != k :: t.effects[i] == s.effects[i];
  }

  lemma CleanedStaysSpent(p: Uuid, s: Saga, t: Saga, token: Uuid)
    requires Cleans(p, s, t) && SpentIn(s, token)
    ensures SpentIn(t, token)
  {
    var r, ids, now :| CleanedUp(p, s.effects, t.effects, r, ids, now);
    AppendedFences(s.log, LastRow(t));
    assert t.log == s.log + [LastRow(t)];
    forall i | 0 <= i < |t.effects| ensures t.effects[i].leaseToken != Some(token) {
      if i < |s.effects| { assert t.effects[i] == SkipRow(s.effects[i], now); }
    }
  }

  lemma SteppedStaysSpent(p: Uuid, s: Saga, t: Saga, token: Uuid)
    requires Stepped(p, s, t) && SpentIn(s, token)
    requires |t.log| > 0 && (LastRow(t).event.EffectClaimed? ==> LastRow(t).event.fence != token)
    ensures SpentIn(t, token)
  {
    if Moves(s, t) {
      var k :| Shaped(s, k) && MovedBy(s, t, k);
      MovedStaysSpent(s, t, k, token);
    } else {
      CleanedStaysSpent(p, s, t, token);
    }
  }

  lemma FenceIsNew(db: Db, step: Step, p: Uuid, token: Uuid)
    requires Enabled(db, step) && p in db.sagas && token in Fences(db.sagas[p].log)
    ensures token !in NewFences(step)
  {
    NewAreFresh(db, step);
  }

  // Once spent, always spent: no later step can lease under the token again.
  lemma SpentStays(db: Db, step: Step, p: Uuid, token: Uuid)
    requires TargetInv(db, step) && Spent(db, p, token)
    ensures Spent(Next(db, step), p, token)
  {
    if Enabled(db, step) {
      FenceIsNew(db, step, p, token);
      NextStepped(db, step, p);
      SpentByStep(step, p, db.sagas[p], Next(db, step).sagas[p], token);
    }
  }

  lemma SpentByStep(step: Step, p: Uuid, s: Saga, t: Saga, token: Uuid)
    requires SpentIn(s, token) && token !in NewFences(step)
    requires t == s || ByStep(step, p, s, t)
    ensures SpentIn(t, token)
  {
    if t != s { SteppedStaysSpent(p, s, t, token); }
  }

  ghost predicate SpentSafely(db: Db, p: Uuid, token: Uuid) {
    SagasInv(db) && Spent(db, p, token)
  }

  lemma SpentSafelyStays(db: Db, step: Step, p: Uuid, token: Uuid)
    requires SpentSafely(db, p, token)
    ensures SpentSafely(Next(db, step), p, token)
  {
    TargetFromAll(db, step);
    SpentStays(db, step, p, token);
    NextSagasInv(db, step);
  }

  lemma SpentForever(db: Db, steps: seq<Step>, p: Uuid, token: Uuid)
    requires SpentSafely(db, p, token)
    ensures SpentSafely(Run(db, steps), p, token)
  {
    forall d, step | SpentSafely(d, p, token) ensures SpentSafely(Next(d, step), p, token) {
      SpentSafelyStays(d, step, p, token);
    }
    RunInduction(db, steps, d => SpentSafely(d, p, token));
  }

  lemma KeepsFences(p: Uuid, s: Saga, t: Saga)
    requires SagaInv(p, s) && (t == s || Stepped(p, s, t))
    ensures Fences(s.log) <= Fences(t.log)
  {
    VersionLater(p, s, t);
    assert forall j | 0 <= j < |s.log| :: s.log[j] == t.log[j];
  }

  lemma EndedIsSpent(db: Db, step: Step, p: Uuid, token: Uuid)
    requires SagasInv(db) && Ended(db, Next(db, step), p, token)
    ensures SpentSafely(Next(db, step), p, token)
  {
    InvAt(db, p);
    HeldWasIssued(p, db.sagas[p], token);
    TargetFromAll(db, step);
    NextStepped(db, step, p);
    KeepsFences(p, db.sagas[p], Next(db, step).sagas[p]);
    NextSagasInv(db, step);
  }

  // Along any run, a token's lease is ended at most once, and is spent from then on.
  lemma TokenEndedOnce(db: Db, steps: seq<Step>, p: Uuid, token: Uuid, i: nat, j: nat)
    requires SagasInv(db) && i < j <= |steps|
    requires Ended(Run(db, steps[..i]), Next(Run(db, steps[..i]), steps[i]), p, token)
    ensures j < |steps| ==> !Ended(Run(db, steps[..j]), Next(Run(db, steps[..j]), steps[j]), p, token)
    ensures SpentSafely(Run(db, steps[..j]), p, token)
  {
    RunStaysInv(db, steps[..i]);
    EndedIsSpent(Run(db, steps[..i]), steps[i], p, token);
    SplitRun(db, steps, i, j);
    SpentForever(Next(Run(db, steps[..i]), steps[i]), steps[i + 1..j], p, token);
  }

  // A finalization under a spent token answers Superseded and leaves every table alone, whatever
  // the outcome it brings.
  lemma SpentIsSuperseded(db: Db, record: EffectRecord, outcome: EffectOutcome, actor: string, now: Time)
    requires Spent(db, record.provisioningId, record.leaseToken)
    ensures FinalizeTransaction(db, record, outcome, actor, now) == Finalized(db, Answered(Superseded))
  {
    assert FencedRow(db, record).None?;
  }

  // A held token is the cursor row's, and its saga is running.
  lemma HeldAtCursor(p: Uuid, s: Saga, k: nat, i: nat)
    requires SagaInv(p, s) && Shaped(s, k) && i < |s.effects| && s.effects[i].leaseToken.Some?
    ensures i == k && s.effects[k].state == InFlight
    ensures s.row.status == RunningStatus(s.row.cleanupRequested)
  {
    assert EffectOk(s.effects[i]);
    InFlightIsCursor(p, s, k, i);
  }

  // Writing the one leased row ends the saga's only lease.
  lemma LeaseGone(p: Uuid, s: Saga, t: Saga, k: nat)
    requires SagaInv(p, s) && Shaped(s, k) && k < |s.effects| == |t.effects|
    requires t.effects == s.effects[k := t.effects[k]] && t.effects[k].leaseToken.None?
    ensures forall j | 0 <= j < |t.effects| :: t.effects[j].leaseToken.None?
  {
    forall j | 0 <= j < |t.effects|
      ensures t.effects[j].leaseToken.None?
    {
      if j != k && s.effects[j].leaseToken.Some? { HeldAtCursor(p, s, k, j); }
    }
  }

  lemma FinalizeEndsLease(p: Uuid, s: Saga, k: nat, i: nat, record: EffectRecord, outcome: EffectOutcome,
                          actor: string, now: Time)
    requires SagaInv(p, s) && Shaped(s, k)
    requires Pick(s.effects, Fenced(record.effectId, record.leaseToken)) == Some(i)
    ensures HeldIn(s.effects, record.leaseToken)
    ensures !HeldIn(FinalizeSaga(s, i, record, outcome, actor, now).effects, record.leaseToken)
  {
    HeldAtCursor(p, s, k, i);
    LeaseGone(p, s, FinalizeSaga(s, i, record, outcome, actor, now), k);
  }

  // Every finalization that changes anything ends the lease of its own token.
  lemma FinalizeEnds(db: Db, record: EffectRecord, outcome: EffectOutcome, actor: string, now: Time)
    requires TargetInv(db, FinalizeStep(record, outcome, actor, now))
    requires FinalizeTransaction(db, record, outcome, actor, now).db != db
    ensures Ended(db, FinalizeTransaction(db, record, outcome, actor, now).db, record.provisioningId, record.leaseToken)
  {
    var p := record.provisioningId;
    var k := CursorOf(p, db.sagas[p]);
    FinalizeEndsLease(p, db.sagas[p], k, FencedRow(db, record).value, record, outcome, actor, now);
  }

  /* ---------- Which steps resolve a token ---------- */

  // The token of the expired lease that a quarantine of p would meet.
  function ExpiredToken(s: Saga, now: Time): Option<Uuid>
    requires HasExpired(s, now)
  {
    s.effects[Pick(s.effects, Expired(now)).value].leaseToken
  }

  // The step is a finalization under the token that changes the tables, or a quarantine that meets
  // the token's lease expired.
  predicate Resolves(db: Db, step: Step, p: Uuid, token: Uuid) {
    match step
    case FinalizeStep(record, _, _, _) =>
      record.provisioningId == p && record.leaseToken == token && Next(db, step) != db
    case QuarantineStep(q, _, now) =>
      q == p && ExpiredAt(db, p, now) && ExpiredToken(db.sagas[p], now) == Some(token)
    case _ => false
  }

  lemma QuarantineEndsLease(p: Uuid, s: Saga, actor: string, now: Time)
    requires SagaInv(p, s) && HasExpired(s, now)
    ensures ExpiredToken(s, now).Some? && HeldIn(s.effects, ExpiredToken(s, now).value)
    ensures !HeldIn(QuarantineSaga(s, Pick(s.effects, Expired(now)).value, actor, now).effects,
                    ExpiredToken(s, now).value)
  {
    var k := CursorOf(p, s);
    var i := Pick(s.effects, Expired(now)).value;
    InFlightIsCursor(p, s, k, i);
    assert EffectOk(s.effects[i]);
    LeaseGone(p, s, QuarantineSaga(s, i, actor, now), k);
  }

  lemma NextQuarantined(db: Db, p: Uuid, actor: string, now: Time)
    requires ExpiredAt(db, p, now) && ExpiredToken(db.sagas[p], now).Some?
    ensures Next(db, QuarantineStep(p, actor, now)).sagas ==
            db.sagas[p := QuarantineSaga(db.sagas[p], Pick(db.sagas[p].effects, Expired(now)).value, actor, now)]
  {
  }

  // A quarantine ends the lease it meets.
  lemma QuarantineEnds(db: Db, p: Uuid, actor: string, now: Time)
    requires TargetInv(db, QuarantineStep(p, actor, now)) && ExpiredAt(db, p, now)
    ensures ExpiredToken(db.sagas[p], now).Some?
    ensures Ended(db, Next(db, QuarantineStep(p, actor, now)), p, ExpiredToken(db.sagas[p], now).value)
  {
    QuarantineEndsLease(p, db.sagas[p], actor, now);
    NextQuarantined(db, p, actor, now);
  }

  lemma RetrySpares(db: Db, input: RetryInput, now: Time)
    requires input.provisioningId in db.sagas
              && db.sagas[input.provisioningId].row.status in {SagaRunning, CleanupRunning}
    ensures RetryTransaction(db, input, now).db == db
  {
    assert RetrySaga(db.sagas[input.provisioningId], input, now).Err?;
  }

  lemma CleanupSpares(db: Db, input: CleanupInput, ids: seq<Uuid>, now: Time)
    requires EnoughIds(db, input.provisioningId, ids)
    requires input.provisioningId in db.sagas
              && db.sagas[input.provisioningId].row.status in {SagaRunning, CleanupRunning}
    ensures CleanupTransaction(db, input, ids, now).db == db
  {
    assert CleanupRefusal(db.sagas[input.provisioningId], input.expectedRevision).Some?;
  }

  // While a saga is running only finalizations and quarantines change it.
  lemma RunningChangedBy(db: Db, step: Step)
    requires Target(step) in db.sagas && db.sagas[Target(step)].row.status in {SagaRunning, CleanupRunning}
    requires Next(db, step) != db
    ensures step.FinalizeStep? || step.QuarantineStep?
  {
    match step {
      case RetryStep(input, now) => RetrySpares(db, input, now);
      case CleanupStep(input, ids, now) => CleanupSpares(db, input, ids, now);
      case _ =>
    }
  }

  lemma FinalizedToken(db: Db, step: Step)
    requires step.FinalizeStep? && Next(db, step) != db
    ensures step.record.provisioningId in db.sagas && FencedRow(db, step.record).Some?
    ensures db.sagas[step.record.provisioningId].effects[FencedRow(db, step.record).value].leaseToken ==
              Some(step.record.leaseToken)
  {
  }

  // What ends a lease is a step that resolves its token.
  lemma EndedIsResolved(db: Db, step: Step, p: Uuid, token: Uuid)
    requires SagasInv(db) && Ended(db, Next(db, step), p, token)
    ensures Resolves(db, step, p, token)
  {
    InvAt(db, p);
    var s := db.sagas[p];
    var k := CursorOf(p, s);
    var i :| 0 <= i < |s.effects| && s.effects[i].leaseToken == Some(token);
    HeldAtCursor(p, s, k, i);
    TargetFromAll(db, step);
    NextStepped(db, step, p);
    RunningChangedBy(db, step);
    if step.FinalizeStep? {
      FinalizedToken(db, step);
      HeldAtCursor(p, s, k, FencedRow(db, step.record).value);
    } else {
      QuarantineEnds(db, p, step.actor, step.now);
      HeldAtCursor(p, s, k, Pick(s.effects, Expired(step.now)).value);
    }
  }

  // A token's lease is ended by exactly the steps that resolve it: finalizations under it that
  // change the tables, and quarantines that meet it expired.
  lemma ResolvedIffEnded(db: Db, step: Step, p: Uuid, token: Uuid)
    requires SagasInv(db)
    ensures Resolves(db, step, p, token) <==> Ended(db, Next(db, step), p, token)
  {
    if Ended(db, Next(db, step), p, token) {
      EndedIsResolved(db, step, p, token);
    } else if Resolves(db, step, p, token) {
      TargetFromAll(db, step);
      if step.FinalizeStep? {
        FinalizeEnds(db, step.record, step.outcome, step.actor, step.now);
      } else {
        QuarantineEnds(db, p, step.actor, step.now);
      }
    }
  }

  // Of all finalizations and quarantines along a run that meet a token, at most one changes the
  // tables; after it, every finalization under the token - of whatever outcome, in whatever state
  // the run has reached - answers Superseded and leaves every table alone.
  lemma TokenResolvedOnce(db: Db, steps: seq<Step>, i: nat, j: nat, record: EffectRecord, outcome: EffectOutcome,
                          actor: string, now: Time)
    requires SagasInv(db) && i < j <= |steps|
    requires Resolves(Run(db, steps[..i]), steps[i], record.provisioningId, record.leaseToken)
    ensures j < |steps| ==> !Resolves(Run(db, steps[..j]), steps[j], record.provisioningId, record.leaseToken)
    ensures FinalizeTransaction(Run(db, steps[..j]), record, outcome, actor, now) ==
            Finalized(Run(db, steps[..j]), Answered(Superseded))
  {
    var p, token := record.provisioningId, record.leaseToken;
    RunStaysInv(db, steps[..i]);
    ResolvedIffEnded(Run(db, steps[..i]), steps[i], p, token);
    TokenEndedOnce(db, steps, p, token, i, j);
    SpentIsSuperseded(Run(db, steps[..j]), record, outcome, actor, now);
    if j < |steps| { ResolvedIffEnded(Run(db, steps[..j]), steps[j], p, token); }
  }

  // The dead worker: once its expired lease was quarantined, its late finalization is superseded,
  // after any steps whatever.
  lemma LateWorkerIsSuperseded(db: Db, p: Uuid, quarantiner: string, expiry: Time, steps: seq<Step>,
                               record: EffectRecord, outcome: EffectOutcome, actor: string, now: Time)
    requires SagasInv(db) && ExpiredAt(db, p, expiry)
    requires record.provisioningId == p && ExpiredToken(db.sagas[p], expiry) == Some(record.leaseToken)
    ensures var d := Run(Next(db, QuarantineStep(p, quarantiner, expiry)), steps);
            FinalizeTransaction(d, record, outcome, actor, now) == Finalized(d, Answered(Superseded))
  {
    var step := QuarantineStep(p, quarantiner, expiry);
    TargetFromAll(db, step);
    QuarantineEnds(db, p, quarantiner, expiry);
    EndedIsSpent(db, step, p, record.leaseToken);
    SpentForever(Next(db, step), steps, p, record.leaseToken);
    SpentIsSuperseded(Run(Next(db, step), steps), record, outcome, actor, now);
  }
}
