/** The external ids a saga holds, read back from its activity rows. */
module Receipts {
  import opened Options
  import opened Keys
  import opened Rows
  import opened Sagas
  import opened Invariant
  import opened Preservation
  import opened Database
  import opened Runs
  import opened Reach
  import opened Histories

  // What the activity rows say about an effect's external id: nothing yet, the id a provider's
  // receipt carried, or only that an operator confirmed it.
  datatype Receipt = NoReceipt | Received(externalId: string, ownerMembershipId: Option<string>) | Confirmed

  function AdvanceReceipt(r: Receipt, id: Uuid, a: Activity): Receipt {
    if a.effectId != Some(id) then r else
    match a.event
    case EffectApplied(externalId, membershipId) => Received(externalId, membershipId)
    case ProvisioningRetried(ConfirmApplied, _, _) => Confirmed
    case _ => r
  }

  function ReceiptOf(log: seq<Activity>, id: Uuid): Receipt {
    if |log| == 0 then NoReceipt else AdvanceReceipt(ReceiptOf(log[..|log| - 1], id), id, log[|log| - 1])
  }

  lemma ReceiptAppend(log: seq<Activity>, a: Activity, id: Uuid)
    ensures ReceiptOf(log + [a], id) == AdvanceReceipt(ReceiptOf(log, id), id, a)
  {
    assert (log + [a])[..|log|] == log;
  }

  // A create or put row holds exactly the id of its receipt; a confirmed one holds some id.
  predicate RowAgrees(log: seq<Activity>, e: Effect) {
    !e.kind.RevokeEntitlement? ==>
      match ReceiptOf(log, e.effectId)
      case NoReceipt => e.externalId.None?
      case Received(externalId, _) => e.externalId == Some(externalId)
      case Confirmed => e.externalId.Some?
  }

  // The saga holds exactly the organization and membership of its create row's receipt.
  predicate OrganizationAgrees(s: Saga) {
    && |s.effects| > 0
    && match ReceiptOf(s.log, s.effects[0].effectId)
       case NoReceipt => s.row.organizationId.None?
       case Received(externalId, membershipId) =>
         s.row.organizationId == Some(externalId) && s.row.ownerMembershipId == membershipId
       case Confirmed => s.row.organizationId.Some?
  }

  predicate IdsAgree(s: Saga) {
    OrganizationAgrees(s) && forall i | 0 <= i < |s.effects| :: RowAgrees(s.log, s.effects[i])
  }

  lemma MovedRowAgrees(p: Uuid, s: Saga, t: Saga, k: nat, i: nat)
    requires Layout(p, s) && MovedBy(s, t, k) && i < |s.effects| && RowAgrees(s.log, s.effects[i])
    ensures RowAgrees(t.log, t.effects[i])
  {
    ReceiptAppend(s.log, LastRow(t), s.effects[i].effectId);
    assert i != k ==> s.effects[i].effectId != s.effects[k].effectId;
  }

  lemma MovedOrganizationAgrees(p: Uuid, s: Saga, t: Saga, k: nat)
    requires Layout(p, s) && MovedBy(s, t, k) && OrganizationAgrees(s)
    ensures OrganizationAgrees(t)
  {
    ReceiptAppend(s.log, LastRow(t), s.effects[0].effectId);
    KindsByPlace(p, s, k);
    assert k != 0 ==> s.effects[0].effectId != s.effects[k].effectId;
  }

  lemma MovedAgrees(p: Uuid, s: Saga, t: Saga, k: nat)
    requires Layout(p, s) && MovedBy(s, t, k) && IdsAgree(s)
    ensures IdsAgree(t)
  {
    MovedOrganizationAgrees(p, s, t, k);
    forall i | 0 <= i < |t.effects|
      ensures RowAgrees(t.log, t.effects[i])
    {
      MovedRowAgrees(p, s, t, k, i);
    }
  }

  lemma CleanedRowAgrees(log: seq<Activity>, a: Activity, e: Effect, now: Time)
    requires a.event.CleanupRequested? && RowAgrees(log, e)
    ensures RowAgrees(log + [a], SkipRow(e, now))
  {
    ReceiptAppend(log, a, e.effectId);
  }

  lemma CleanedRowsAgree(p: Uuid, s: Saga, t: Saga, r: nat, ids: seq<Uuid>, now: Time)
    requires CleanedUp(p, s.effects, t.effects, r, ids, now) && |t.log| > 0 && t.log == s.log + [LastRow(t)]
    requires LastRow(t).event.CleanupRequested?
    requires forall i | 0 <= i < |s.effects| :: RowAgrees(s.log, s.effects[i])
    ensures forall i | 0 <= i < |t.effects| :: RowAgrees(t.log, t.effects[i])
  {
    forall i | 0 <= i < |t.effects|
      ensures RowAgrees(t.log, t.effects[i])
    {
      if i < |s.effects| { CleanedRowAgrees(s.log, LastRow(t), s.effects[i], now); }
    }
  }

  lemma CleanedAgrees(p: Uuid, s: Saga, t: Saga)
    requires Cleans(p, s, t) && IdsAgree(s)
    ensures IdsAgree(t)
  {
    var r, ids, now :| CleanedUp(p, s.effects, t.effects, r, ids, now);
    assert t.log == s.log + [LastRow(t)];
    CleanedRowsAgree(p, s, t, r, ids, now);
    assert t.effects[0] == SkipRow(s.effects[0], now);
    ReceiptAppend(s.log, LastRow(t), s.effects[0].effectId);
  }

  lemma SteppedAgrees(p: Uuid, s: Saga, t: Saga)
    requires Layout(p, s) && Stepped(p, s, t) && IdsAgree(s)
    ensures IdsAgree(t)
  {
    if Moves(s, t) {
      var k: nat :| Shaped(s, k) && MovedBy(s, t, k);
      MovedAgrees(p, s, t, k);
    } else {
      CleanedAgrees(p, s, t);
    }
  }

  lemma StartedAgrees(input: StartInput, ids: seq<Uuid>, now: Time)
    requires |ids| == 1 + |input.grants|
    ensures IdsAgree(StartedSaga(input, ids, now))
  {
    var s := StartedSaga(input, ids, now);
    forall i | 0 <= i < |s.effects|
      ensures s.effects[i].externalId.None? && ReceiptOf(s.log, s.effects[i].effectId) == NoReceipt
    {
      ReceiptAppend([], s.log[0], s.effects[i].effectId);
      assert [] + [s.log[0]] == s.log;
    }
  }

  ghost predicate IdsAgreeIn(db: Db) {
    SagasInv(db) && forall p | p in db.sagas :: IdsAgree(db.sagas[p])
  }

  lemma NewSagaStarted(db: Db, step: Step, p: Uuid)
    requires p !in db.sagas && p in Next(db, step).sagas
    ensures step.StartStep? && |step.startIds| == 1 + |step.start.grants|
    ensures Next(db, step).sagas[p] == StartedSaga(step.start, step.startIds, step.now)
  {
    if step.StartStep? { StartTables(db, step.start, step.startIds, step.now); }
  }

  lemma AgreesAt(db: Db, step: Step, p: Uuid)
    requires TargetInv(db, step) && p in Next(db, step).sagas
    requires p in db.sagas ==> SagaInv(p, db.sagas[p]) && IdsAgree(db.sagas[p])
    ensures IdsAgree(Next(db, step).sagas[p])
  {
    if p in db.sagas {
      NextStepped(db, step, p);
      if Next(db, step).sagas[p] != db.sagas[p] { SteppedAgrees(p, db.sagas[p], Next(db, step).sagas[p]); }
    } else {
      NewSagaStarted(db, step, p);
      StartedAgrees(step.start, step.startIds, step.now);
    }
  }

  lemma NextAgrees(db: Db, step: Step)
    requires IdsAgreeIn(db)
    ensures IdsAgreeIn(Next(db, step))
  {
    TargetFromAll(db, step);
    NextSagasInv(db, step);
    forall p | p in Next(db, step).sagas
      ensures IdsAgree(Next(db, step).sagas[p])
    {
      AgreesAt(db, step, p);
    }
  }

  // In every reachable state the activity rows name the external id of every create and put row,
  // and the saga's organization and membership, exactly - except for a row an operator confirmed,
  // whose activity row does not carry the ids the operator observed.
  lemma LogNamesIds(db: Db, p: Uuid)
    requires Reachable(db) && p in db.sagas
    ensures IdsAgree(db.sagas[p])
  {
    var steps :| db == Run(EMPTY, steps);
    forall d, step | IdsAgreeIn(d)
      ensures IdsAgreeIn(Next(d, step))
    {
      NextAgrees(d, step);
    }
    RunInduction(EMPTY, steps, d => IdsAgreeIn(d));
  }
}
