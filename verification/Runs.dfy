/** Arbitrary interleavings of the operations, and what every one of them keeps. */
module Runs {
  import opened Options
  import opened Keys
  import opened Rows
  import opened Sagas
  import opened Invariant
  import opened Preservation
  import opened Database

  /* ---------- Steps ---------- */

  // Each step is one transaction. Claim and quarantine name the saga they lock, since which due
  // saga a worker gets depends on what other workers have locked.
  datatype Step =
    | StartStep(start: StartInput, startIds: seq<Uuid>, now: Time)
    | ClaimStep(claimed: Uuid, fence: Uuid, until: Time, actor: string, now: Time)
    | FinalizeStep(record: EffectRecord, outcome: EffectOutcome, actor: string, now: Time)
    | QuarantineStep(expired: Uuid, actor: string, now: Time)
    | RetryStep(retry: RetryInput, now: Time)
    | CleanupStep(cleanup: CleanupInput, cleanupIds: seq<Uuid>, now: Time)

  function RowIds(es: seq<Effect>): set<Uuid> {
    set i | 0 <= i < |es| :: es[i].effectId
  }

  function Fences(log: seq<Activity>): set<Uuid> {
    set j | 0 <= j < |log| && log[j].event.EffectClaimed? :: log[j].event.fence
  }

  predicate FreshId(db: Db, id: Uuid) {
    forall p | p in db.sagas :: id !in RowIds(db.sagas[p].effects)
  }

  predicate FreshFence(db: Db, fence: Uuid) {
    forall p | p in db.sagas :: fence !in Fences(db.sagas[p].log)
  }

  predicate FreshIds(db: Db, ids: seq<Uuid>) {
    Distinct(ids) && forall i | 0 <= i < |ids| :: FreshId(db, ids[i])
  }

  // A record is one that some claim handed out.
  predicate Issued(db: Db, record: EffectRecord) {
    record.provisioningId in db.sagas && IssuedIn(db.sagas[record.provisioningId].log, record)
  }

  predicate IssuedIn(log: seq<Activity>, record: EffectRecord) {
    exists j :: 0 <= j < |log| && log[j].effectId == Some(record.effectId)
                && log[j].event.EffectClaimed? && log[j].event.claimedKind == record.kind
                && log[j].event.fence == record.leaseToken
  }

  // What the callers of the storage layer guarantee: validated requests and configuration,
  // fresh UUIDs, and records that came from a claim.
  predicate Enabled(db: Db, step: Step)
  {
    match step
    case StartStep(input, ids, _) =>
      && StartOk(input.name, input.slug, input.ownerSubject, input.grants, ids)
      && input.provisioningId !in db.sagas && FreshIds(db, ids)
    case ClaimStep(p, fence, _, _, _) => DueAt(db, p) && FreshFence(db, fence)
    case FinalizeStep(record, _, _, _) => Issued(db, record)
    case QuarantineStep(p, _, now) => ExpiredAt(db, p, now)
    case RetryStep(_, _) => true
    case CleanupStep(input, ids, _) => EnoughIds(db, input.provisioningId, ids) && FreshIds(db, ids)
  }

  function Perform(db: Db, step: Step): Db
    requires Enabled(db, step)
  {
    match step
    case StartStep(input, ids, now) => StartTransaction(db, input, ids, now).db
    case ClaimStep(p, fence, until, actor, now) => ClaimAt(db, p, fence, until, actor, now)
    case FinalizeStep(record, outcome, actor, now) => FinalizeTransaction(db, record, outcome, actor, now).db
    case QuarantineStep(p, actor, now) => QuarantineAt(db, p, actor, now)
    case RetryStep(input, now) => RetryTransaction(db, input, now).db
    case CleanupStep(input, ids, now) => CleanupTransaction(db, input, ids, now).db
  }

  // A step that its callers could not take leaves the tables alone.
  function Next(db: Db, step: Step): Db {
    if Enabled(db, step) then Perform(db, step) else db
  }

  // The public requests are steps whenever their callers keep to what they guarantee.
  lemma RequestsAreSteps(db: Db, start: StartInput, retry: RetryInput, cleanup: CleanupInput, ids: seq<Uuid>, now: Time)
    ensures StartOk(start.name, start.slug, start.ownerSubject, start.grants, ids)
            && start.provisioningId !in db.sagas && FreshIds(db, ids) ==>
              Next(db, StartStep(start, ids, now)) == StartTransaction(db, start, ids, now).db
    ensures Next(db, RetryStep(retry, now)) == RetryTransaction(db, retry, now).db
    ensures EnoughIds(db, cleanup.provisioningId, ids) && FreshIds(db, ids) ==>
              Next(db, CleanupStep(cleanup, ids, now)) == CleanupTransaction(db, cleanup, ids, now).db
  {
  }

  function Run(db: Db, steps: seq<Step>): Db {
    if |steps| == 0 then db else Next(Run(db, steps[..|steps| - 1]), steps[|steps| - 1])
  }

  ghost predicate Reachable(db: Db) {
    exists steps :: db == Run(EMPTY, steps)
  }

  lemma RunOne(db: Db, step: Step)
    ensures Run(db, [step]) == Next(db, step)
  {
    assert [step][..0] == [];
  }

  lemma {:induction false} RunAppend(db: Db, first: seq<Step>, second: seq<Step>)
    ensures Run(db, first + second) == Run(Run(db, first), second)
  {
    if |second| == 0 {
      assert first + second == first;
    } else {
      var n := |second| - 1;
      RunAppend(db, first, second[..n]);
      assert (first + second)[..|first| + n] == first + second[..n];
    }
  }

  /* ---------- The invariant of the tables ---------- */

  // No two sagas share an effect id.
  predicate IdsApart(db: Db) {
    forall p, q | p in db.sagas && q in db.sagas && p != q ::
      RowIds(db.sagas[p].effects) !! RowIds(db.sagas[q].effects)
  }

  // No two sagas share a lease token.
  predicate FencesApart(db: Db) {
    forall p, q | p in db.sagas && q in db.sagas && p != q :: Fences(db.sagas[p].log) !! Fences(db.sagas[q].log)
  }

  predicate DisjointRows(db: Db) {
    IdsApart(db) && FencesApart(db)
  }

  ghost predicate SagasInv(db: Db)
  {
    forall p | p in db.sagas :: SagaInv(p, db.sagas[p])
  }

  // A committed mutation row is complete and belongs to its actor's saga.
  predicate MutationOk(db: Db, m: Mutation) {
    m.completed && m.response.Some? && m.provisioningId.Some? && Owned(db, m.provisioningId.value, m.actor)
  }

  predicate StartRowOf(m: Mutation, p: Uuid) {
    m.operation == StartOperation && m.provisioningId == Some(p)
  }

  predicate RowsComplete(db: Db) {
    forall key | key in db.mutations :: MutationOk(db, db.mutations[key])
  }

  predicate HasStartRow(db: Db, p: Uuid) {
    exists key :: key in db.mutations && StartRowOf(db.mutations[key], p)
  }

  predicate EachStarted(db: Db) {
    forall p | p in db.sagas :: HasStartRow(db, p)
  }

  predicate StartedOnce(db: Db) {
    forall key, key' | key in db.mutations && key' in db.mutations
                       && db.mutations[key].operation == db.mutations[key'].operation == StartOperation
                       && db.mutations[key].provisioningId == db.mutations[key'].provisioningId :: key == key'
  }

  // Every committed mutation row is complete, and every saga has exactly one start row.
  predicate MutationsInv(db: Db) {
    RowsComplete(db) && EachStarted(db) && StartedOnce(db)
  }

  ghost predicate DbInv(db: Db) {
    DisjointRows(db) && SagasInv(db) && MutationsInv(db)
  }

  /* ---------- One saga's step ---------- */

  predicate KeepsOnce<T(==)>(before: Option<T>, after: Option<T>) {
    before.Some? ==> after == before
  }

  // What no step may change in a saga row.
  predicate RowKeeps(r: SagaRow, t: SagaRow) {
    && t.requestedBy == r.requestedBy && t.name == r.name && t.slug == r.slug
    && t.ownerSubject == r.ownerSubject && t.createdAt == r.createdAt
    && KeepsOnce(r.organizationId, t.organizationId) && KeepsOnce(r.ownerMembershipId, t.ownerMembershipId)
    && KeepsOnce(r.completedAt, t.completedAt) && KeepsOnce(r.cleanupCompletedAt, t.cleanupCompletedAt)
    && (r.cleanupRequested ==>
          t.cleanupRequested && t.organizationId == r.organizationId && t.ownerMembershipId == r.ownerMembershipId)
    && t.revision == r.revision + 1
  }

  ghost predicate Moves(s: Saga, t: Saga) {
    Begun(s) && exists k :: Shaped(s, k) && MovedBy(s, t, k)
  }

  ghost predicate Cleans(p: Uuid, s: Saga, t: Saga) {
    && !s.row.cleanupRequested && t.row.cleanupRequested
    && t.row.organizationId == s.row.organizationId && t.row.ownerMembershipId == s.row.ownerMembershipId
    && |t.log| == |s.log| + 1 && t.log[..|s.log|] == s.log && LastRow(t).event.CleanupRequested?
    && exists r, ids, now :: CleanedUp(p, s.effects, t.effects, r, ids, now)
  }

  // The only two ways a committed step changes an existing saga.
  ghost predicate Stepped(p: Uuid, s: Saga, t: Saga) {
    RowKeeps(s.row, t.row) && (Moves(s, t) || Cleans(p, s, t))
  }

  lemma SteppedByMove(p: Uuid, s: Saga, t: Saga, k: nat)
    requires Begun(s) && Shaped(s, k) && MovedBy(s, t, k) && RowKeeps(s.row, t.row)
    ensures Stepped(p, s, t)
  {
  }

  lemma ClaimStepped(p: Uuid, s: Saga, fence: Uuid, until: Time, actor: string, now: Time)
    requires SagaInv(p, s) && Due(s)
    ensures ClaimPick(s).Some?
    ensures SagaInv(p, ClaimSaga(s, ClaimPick(s).value, fence, until, actor, now))
    ensures Stepped(p, s, ClaimSaga(s, ClaimPick(s).value, fence, until, actor, now))
  {
    var k := CursorOf(p, s);
    ClaimMoves(p, s, k, fence, until, actor, now);
    SteppedByMove(p, s, ClaimSaga(s, k, fence, until, actor, now), k);
  }

  lemma SettleStepped(p: Uuid, s: Saga, k: nat, e: Effect, row: SagaRow, event: Event, actor: string, now: Time)
    requires Begun(s) && Split(s) <= |s.effects| && Summary(s) && Shaped(s, k) && k < |s.effects|
    requires RowBefore(s, k, e, row) && MovedBy(s, Settle(s, k, e, row, event, actor, now), k)
    ensures Stepped(p, s, Settle(s, k, e, row, event, actor, now))
  {
    var t := Settle(s, k, e, row, event, actor, now);
    assert RowKeeps(s.row, t.row);
    SteppedByMove(p, s, t, k);
  }

  lemma FinalizeStepped(p: Uuid, s: Saga, i: nat, record: EffectRecord, outcome: EffectOutcome, actor: string,
                        now: Time)
    requires SagaInv(p, s)
    requires Pick(s.effects, Fenced(record.effectId, record.leaseToken)) == Some(i)
    requires Fits(s.effects[i].kind, outcome)
    ensures SagaInv(p, FinalizeSaga(s, i, record, outcome, actor, now))
    ensures Stepped(p, s, FinalizeSaga(s, i, record, outcome, actor, now))
  {
    var k := CursorOf(p, s);
    FinalizeMoves(p, s, k, i, record, outcome, actor, now);
    KindsByPlace(p, s, k);
    SettleStepped(p, s, k, OutcomeRow(s.effects[k], outcome, now), OutcomeSagaRow(s.row, outcome),
                  OutcomeEvent(record, outcome), actor, now);
  }

  lemma QuarantineStepped(p: Uuid, s: Saga, i: nat, actor: string, now: Time)
    requires SagaInv(p, s) && Pick(s.effects, Expired(now)) == Some(i)
    ensures s.effects[i].leaseToken.Some?
    ensures SagaInv(p, QuarantineSaga(s, i, actor, now))
    ensures Stepped(p, s, QuarantineSaga(s, i, actor, now))
  {
    var k := CursorOf(p, s);
    QuarantineMoves(p, s, k, i, actor, now);
    SteppedByMove(p, s, QuarantineSaga(s, i, actor, now), k);
  }

  lemma RetryStepped(p: Uuid, s: Saga, input: RetryInput, now: Time)
    requires SagaInv(p, s) && RetrySaga(s, input, now).Ok?
    ensures SagaInv(p, RetrySaga(s, input, now).value)
    ensures Stepped(p, s, RetrySaga(s, input, now).value)
  {
    var k := CursorOf(p, s);
    RetryMoves(p, s, k, input, now);
    RetryTargetIsCursor(p, s, k, input.resolution);
    ResolvedBefore(p, s, k, input, now);
    var change := Resolve(s, k, input, now).value;
    SettleStepped(p, s, k, change.effect, change.row, RetryEvent(input, s.effects[k].kind), input.actor, now);
  }

  lemma SteppedByCleanup(p: Uuid, s: Saga, t: Saga, r: nat, ids: seq<Uuid>, now: Time)
    requires CleanedUp(p, s.effects, t.effects, r, ids, now) && RowKeeps(s.row, t.row)
    requires !s.row.cleanupRequested && t.row.cleanupRequested
    requires t.row.organizationId == s.row.organizationId && t.row.ownerMembershipId == s.row.ownerMembershipId
    requires |t.log| == |s.log| + 1 && t.log[..|s.log|] == s.log && LastRow(t).event.CleanupRequested?
    ensures Stepped(p, s, t)
  {
  }

  lemma CleanupStepped(p: Uuid, s: Saga, input: CleanupInput, ids: seq<Uuid>, now: Time)
    requires SagaInv(p, s) && CleanupRefusal(s, input.expectedRevision).None?
    requires |s.effects| <= |ids| && Distinct(ids) && NoRowWithId(s.effects, ids)
    ensures AllHaveGrantId(AppliedPuts(s.effects))
    ensures SagaInv(p, CleanupSaga(p, s, input, ids, now))
    ensures Stepped(p, s, CleanupSaga(p, s, input, ids, now))
  {
    var k := CursorOf(p, s);
    CleanupExact(p, s, k, input, ids, now);
    CleanupInv(p, s, k, input, ids, now);
    var t := CleanupSaga(p, s, input, ids, now);
    SteppedByCleanup(p, s, t, Reversible(k), ids, now);
  }

  /* ---------- Replacing one saga in the tables ---------- */

  lemma {:induction false} MovedIds(s: Saga, t: Saga, k: nat)
    requires MovedBy(s, t, k)
    ensures RowIds(t.effects) == RowIds(s.effects)
    ensures Fences(t.log) == Fences(s.log) + if LastRow(t).event.EffectClaimed? then {LastRow(t).event.fence} else {}
  {
    forall i | 0 <= i < |s.effects| ensures t.effects[i].effectId == s.effects[i].effectId {
    }
    assert forall id | id in RowIds(s.effects) :: exists i :: 0 <= i < |t.effects| && t.effects[i].effectId == id;
    AppendedFences(s.log, LastRow(t));
  }

  lemma AppendedFences(log: seq<Activity>, a: Activity)
    ensures Fences(log + [a]) == Fences(log) + if a.event.EffectClaimed? then {a.event.fence} else {}
  {
    var l := log + [a];
    assert l[|log|] == a && forall j | 0 <= j < |log| :: l[j] == log[j];
    forall f | f in Fences(log) ensures f in Fences(l) {
      var j :| 0 <= j < |log| && log[j].event.EffectClaimed? && log[j].event.fence == f;
      assert l[j].event.fence == f;
    }
  }

  lemma CleanedIds(p: Uuid, s: Saga, t: Saga, r: nat, ids: seq<Uuid>, now: Time)
    requires CleanedUp(p, s.effects, t.effects, r, ids, now)
    ensures RowIds(t.effects) <= RowIds(s.effects) + set j | 0 <= j < |ids| :: ids[j]
  {
    forall i | 0 <= i < |t.effects|
      ensures t.effects[i].effectId in RowIds(s.effects) + set j | 0 <= j < |ids| :: ids[j]
    {
      if i < |s.effects| { assert t.effects[i] == SkipRow(s.effects[i], now); }
    }
  }

  lemma PutSagasInv(db: Db, p: Uuid, t: Saga)
    requires SagasInv(db) && SagaInv(p, t)
    ensures SagasInv(Put(db, p, t))
  {
    var d := Put(db, p, t);
    forall q | q in d.sagas ensures SagaInv(q, d.sagas[q]) {
      if q == p {
        assert d.sagas[q] == t;
      } else {
        assert d.sagas[q] == db.sagas[q];
      }
    }
  }

  // Replacing (or adding) one saga keeps rows apart when all ids and fences it brings are its own
  // or fresh.
  lemma PutIdsApart(db: Db, p: Uuid, t: Saga)
    requires IdsApart(db)
    requires forall id | id in RowIds(t.effects) ::
              FreshId(db, id) || (p in db.sagas && id in RowIds(db.sagas[p].effects))
    ensures IdsApart(Put(db, p, t))
  {
    forall q | q in db.sagas && q != p
      ensures RowIds(t.effects) !! RowIds(db.sagas[q].effects)
    {
    }
  }

  lemma PutFencesApart(db: Db, p: Uuid, t: Saga)
    requires FencesApart(db)
    requires forall f | f in Fences(t.log) :: FreshFence(db, f) || (p in db.sagas && f in Fences(db.sagas[p].log))
    ensures FencesApart(Put(db, p, t))
  {
    forall q | q in db.sagas && q != p
      ensures Fences(t.log) !! Fences(db.sagas[q].log)
    {
    }
  }

  lemma PutDisjoint(db: Db, p: Uuid, t: Saga)
    requires DisjointRows(db)
    requires forall id | id in RowIds(t.effects) ::
              FreshId(db, id) || (p in db.sagas && id in RowIds(db.sagas[p].effects))
    requires forall f | f in Fences(t.log) :: FreshFence(db, f) || (p in db.sagas && f in Fences(db.sagas[p].log))
    ensures DisjointRows(Put(db, p, t))
  {
    PutIdsApart(db, p, t);
    PutFencesApart(db, p, t);
  }
}
