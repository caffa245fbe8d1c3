/** The times and revisions that steps write. */
module Stamps {
  import opened Keys
  import opened Rows
  import opened Sagas
  import opened Invariant
  import opened Preservation
  import opened Database
  import opened Runs
  import opened Reach
  import opened Histories
  import opened Written
  import opened Leases

  // A change of a saga at a time: the saga row, every row that changed and every row that was added
  // carry that time.
  predicate StampedAt(s: Saga, t: Saga, now: Time) {
    && Stamped(s.row, t.row, now) && |s.effects| <= |t.effects|
    && (forall i | 0 <= i < |s.effects| ::
          t.effects[i] == s.effects[i]
          || (t.effects[i].updatedAt == now && t.effects[i].createdAt == s.effects[i].createdAt))
    && (forall i | |s.effects| <= i < |t.effects| :: t.effects[i].createdAt == t.effects[i].updatedAt == now)
  }

  lemma ChangedIsStamped(s: Saga, t: Saga, k: nat, event: Event, actor: string, now: Time)
    requires RowChanged(s, t, k, event, actor, now)
    ensures StampedAt(s, t, now)
  {
  }

  lemma CleanupIsStamped(p: Uuid, s: Saga, t: Saga, r: nat, input: CleanupInput, ids: seq<Uuid>, now: Time)
    requires CleanupWritten(p, s, t, r, input, ids, now)
    ensures StampedAt(s, t, now)
  {
    forall i | |s.effects| <= i < |t.effects| ensures t.effects[i].createdAt == t.effects[i].updatedAt == now {
      assert NewlyStored(t.effects[|s.effects| + (i - |s.effects|)], ids[i - |s.effects|], now);
    }
  }

  lemma ClaimedIsStamped(s: Saga, t: Saga, k: nat, fence: Uuid, until: Time, actor: string, now: Time)
    requires ClaimWritten(s, t, k, fence, until, actor, now)
    ensures StampedAt(s, t, now)
  {
    ChangedIsStamped(s, t, k, EffectClaimed(s.effects[k].kind, s.effects[k].attempts + 1, fence), actor, now);
  }

  lemma ClaimStamps(db: Db, p: Uuid, fence: Uuid, until: Time, actor: string, now: Time)
    requires SagasInv(db) && DueAt(db, p)
    ensures p in ClaimAt(db, p, fence, until, actor, now).sagas
    ensures StampedAt(db.sagas[p], ClaimAt(db, p, fence, until, actor, now).sagas[p], now)
  {
    DueAtWaiting(db, p);
    var k := ClaimWrites(db, p, fence, until, actor, now);
    ClaimedIsStamped(db.sagas[p], ClaimAt(db, p, fence, until, actor, now).sagas[p], k, fence, until, actor, now);
  }

  lemma QuarantineStamps(db: Db, p: Uuid, actor: string, now: Time)
    requires SagasInv(db) && p in db.sagas && Next(db, QuarantineStep(p, actor, now)) != db
    ensures p in Next(db, QuarantineStep(p, actor, now)).sagas
    ensures StampedAt(db.sagas[p], Next(db, QuarantineStep(p, actor, now)).sagas[p], now)
  {
    var k := QuarantineWrites(db, p, actor, now);
    var e := db.sagas[p].effects[k];
    ChangedIsStamped(db.sagas[p], Next(db, QuarantineStep(p, actor, now)).sagas[p], k,
                     EffectOutcomeUnknown(LeaseExpired(e.kind, e.leaseToken.value)), actor, now);
  }

  lemma OutcomeStamps(s: Saga, t: Saga, k: nat, record: EffectRecord, outcome: EffectOutcome, actor: string, now: Time)
    requires FinalizeWritten(s, t, k, record, outcome, actor, now)
    ensures StampedAt(s, t, now)
  {
    ChangedIsStamped(s, t, k, OutcomeEvent(record, outcome), actor, now);
  }

  lemma FinalizeStamps(db: Db, record: EffectRecord, outcome: EffectOutcome, actor: string, now: Time)
    requires SagasInv(db) && Issued(db, record)
    requires FinalizeTransaction(db, record, outcome, actor, now).db != db
    ensures var p, d := record.provisioningId, FinalizeTransaction(db, record, outcome, actor, now).db;
            p in d.sagas && StampedAt(db.sagas[p], d.sagas[p], now)
  {
    var p := record.provisioningId;
    HeldIsFenced(db, record);
    var k := FinalizeWrites(db, record, outcome, actor, now);
    OutcomeStamps(db.sagas[p], FinalizeTransaction(db, record, outcome, actor, now).db.sagas[p], k, record, outcome,
                  actor, now);
  }

  lemma RetryStamps(p: Uuid, s: Saga, input: RetryInput, now: Time)
    requires SagaInv(p, s) && RetrySaga(s, input, now).Ok?
    ensures StampedAt(s, RetrySaga(s, input, now).value, now)
  {
    var k := CursorOf(p, s);
    RetrySucceeds(p, s, k, input, now);
    ChangedIsStamped(s, RetrySaga(s, input, now).value, k,
                     ProvisioningRetried(input.resolution, input.evidence, s.effects[k].kind), input.actor, now);
  }

  lemma CleanupSagaStamps(db: Db, p: Uuid, input: CleanupInput, ids: seq<Uuid>, now: Time)
    requires SagasInv(db) && p in db.sagas && CleanupRefusal(db.sagas[p], input.expectedRevision).None?
    requires |db.sagas[p].effects| <= |ids| && FreshIds(db, ids)
    ensures |AppliedPuts(db.sagas[p].effects)| <= |ids|
    ensures StampedAt(db.sagas[p], CleanupSaga(p, db.sagas[p], input, ids, now), now)
  {
    InvAt(db, p);
    FreshHere(db, p, ids);
    var k := CursorOf(p, db.sagas[p]);
    CleanupSagaWritten(p, db.sagas[p], k, input, ids, now);
    CleanupIsStamped(p, db.sagas[p], CleanupSaga(p, db.sagas[p], input, ids, now), Reversible(k), input, ids, now);
  }

  lemma WorkerStamps(db: Db, step: Step, p: Uuid)
    requires SagasInv(db) && p in db.sagas && p == Target(step) && Enabled(db, step)
    requires step.ClaimStep? || step.FinalizeStep? || step.QuarantineStep?
    requires p in Next(db, step).sagas && Next(db, step).sagas[p] != db.sagas[p]
    ensures StampedAt(db.sagas[p], Next(db, step).sagas[p], step.now)
  {
    match step {
      case ClaimStep(_, fence, until, actor, now) => ClaimStamps(db, p, fence, until, actor, now);
      case FinalizeStep(record, outcome, actor, now) => FinalizeStamps(db, record, outcome, actor, now);
      case QuarantineStep(_, actor, now) => QuarantineStamps(db, p, actor, now);
      case _ =>
    }
  }

  lemma DecisionStamps(db: Db, step: Step, p: Uuid)
    requires SagasInv(db) && p in db.sagas && p == Target(step) && Enabled(db, step)
    requires step.RetryStep? || step.CleanupStep?
    requires p in Next(db, step).sagas && Next(db, step).sagas[p] != db.sagas[p]
    ensures StampedAt(db.sagas[p], Next(db, step).sagas[p], step.now)
  {
    InvAt(db, p);
    if step.RetryStep? {
      RetryTables(db, step.retry, step.now);
      RetryStamps(p, db.sagas[p], step.retry, step.now);
    } else {
      CleanupTables(db, step.cleanup, step.cleanupIds, step.now);
      CleanupSagaStamps(db, p, step.cleanup, step.cleanupIds, step.now);
    }
  }

  // Every step that changes a saga stamps it, and every row it writes, with the step's time, and
  // raises its revision by one; a completion time is written once, when its status is first reached.
  lemma StepStamps(db: Db, step: Step, p: Uuid)
    requires SagasInv(db) && p in db.sagas
    ensures p in Next(db, step).sagas
    ensures Next(db, step).sagas[p] != db.sagas[p] ==> StampedAt(db.sagas[p], Next(db, step).sagas[p], step.now)
  {
    TargetFromAll(db, step);
    NextStepped(db, step, p);
    if Next(db, step).sagas[p] != db.sagas[p] {
      if step.RetryStep? || step.CleanupStep? {
        DecisionStamps(db, step, p);
      } else {
        WorkerStamps(db, step, p);
      }
    }
  }
}
