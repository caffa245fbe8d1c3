/** The four tables together, and the storage operations as whole transactions. */
module Database {
  import opened Options
  import opened Keys
  import opened Rows
  import opened Sagas

  datatype Operation = StartOperation | RetryOperation | CleanupOperation

  datatype MutationKey = MutationKey(caller: string, idempotencyKey: string)

  datatype Mutation = Mutation(
    operation: Operation, actor: string, requestHash: Hash, provisioningId: Option<Uuid>,
    completed: bool, response: Option<ProvisioningView>)

  // The saga, effect and activity tables, with the effect and activity rows grouped under the saga
  // they reference, and the mutation table.
  datatype Db = Db(sagas: map<Uuid, Saga>, mutations: map<MutationKey, Mutation>)

  const EMPTY := Db(map[], map[])

  function Put(db: Db, p: Uuid, s: Saga): Db {
    db.(sagas := db.sagas[p := s])
  }

  /* ---------- Idempotent mutations ---------- */

  datatype MutationReplay = Execute | ReplayResponse(view: ProvisioningView) | Conflict | Incomplete

  // What begin_mutation finds under a key.
  function Lookup(mutations: map<MutationKey, Mutation>, key: MutationKey,
                  operation: Operation, actor: string, hash: Hash): MutationReplay
  {
    if key !in mutations then Execute else
    var m := mutations[key];
    if m.operation != operation || m.actor != actor || m.requestHash != hash then Conflict
    else if !m.completed || m.response.None? then Incomplete
    else ReplayResponse(m.response.value)
  }

  // What a public mutation answers: a view, a domain failure, or a storage error.
  datatype Reply = Committed(view: ProvisioningView) | Rejected(failure: DomainFailure) | Broken(detail: string)

  datatype Transaction = Transaction(db: Db, reply: Reply)

  const INCOMPLETE := "committed provisioning mutation is incomplete"
  const NO_GRANT_ID := "applied entitlement has no grant id"
  const DUPLICATE_ID := "insert provisioning saga"
  const NO_SAGA := "lock provisioning saga for effect finalization"
  const KIND_MISMATCH := "receipt applied to an effect of another kind"

  function Commit(db: Db, key: MutationKey, operation: Operation, actor: string, hash: Hash, p: Uuid,
                  s: Saga): Transaction {
    var view := ViewOf(p, s);
    var m := Mutation(operation, actor, hash, Some(p), true, Some(view));
    Transaction(Put(db, p, s).(mutations := db.mutations[key := m]),
                Committed(view))
  }

  datatype StartInput = StartInput(
    caller: string, actor: string, idempotencyKey: string, requestHash: Hash, provisioningId: Uuid,
    name: string, slug: string, ownerSubject: string, grants: seq<Grant>)

  function StartTransaction(db: Db, input: StartInput, ids: seq<Uuid>, now: Time): Transaction
    requires |ids| == 1 + |input.grants|
  {
    var key := MutationKey(input.caller, input.idempotencyKey);
    match Lookup(db.mutations, key, StartOperation, input.actor, input.requestHash)
    case Conflict => Transaction(db, Rejected(IdempotencyConflict))
    case Incomplete => Transaction(db, Broken(INCOMPLETE))
    case ReplayResponse(view) => Transaction(db, Committed(view))
    case Execute =>
      if input.provisioningId in db.sagas then Transaction(db, Broken(DUPLICATE_ID))
      else Commit(db, key, StartOperation, input.actor, input.requestHash, input.provisioningId,
                  NewSaga(input.provisioningId, input.actor, input.name, input.slug, input.ownerSubject,
                          input.grants, ids, now))
  }

  predicate Owned(db: Db, p: Uuid, actor: string) {
    p in db.sagas && db.sagas[p].row.requestedBy == actor
  }

  function RetryTransaction(db: Db, input: RetryInput, now: Time): Transaction
  {
    var key := MutationKey(input.caller, input.idempotencyKey);
    var p := input.provisioningId;
    if !Owned(db, p, input.actor) then Transaction(db, Rejected(ProvisioningNotFound)) else
    match Lookup(db.mutations, key, RetryOperation, input.actor, input.requestHash)
    case Conflict => Transaction(db, Rejected(IdempotencyConflict))
    case Incomplete => Transaction(db, Broken(INCOMPLETE))
    case ReplayResponse(view) => Transaction(db, Committed(view))
    case Execute =>
      match RetrySaga(db.sagas[p], input, now)
      case Err(failure) => Transaction(db, Rejected(failure))
      case Ok(s) => Commit(db, key, RetryOperation, input.actor, input.requestHash, p, s)
  }

  predicate EnoughIds(db: Db, p: Uuid, ids: seq<Uuid>) {
    p in db.sagas ==> |db.sagas[p].effects| <= |ids|
  }

  function CleanupTransaction(db: Db, input: CleanupInput, ids: seq<Uuid>, now: Time): Transaction
    requires EnoughIds(db, input.provisioningId, ids)
  {
    var key := MutationKey(input.caller, input.idempotencyKey);
    var p := input.provisioningId;
    if !Owned(db, p, input.actor) then Transaction(db, Rejected(ProvisioningNotFound)) else
    match Lookup(db.mutations, key, CleanupOperation, input.actor, input.requestHash)
    case Conflict => Transaction(db, Rejected(IdempotencyConflict))
    case Incomplete => Transaction(db, Broken(INCOMPLETE))
    case ReplayResponse(view) => Transaction(db, Committed(view))
    case Execute =>
      match CleanupRefusal(db.sagas[p], input.expectedRevision)
      case Some(failure) => Transaction(db, Rejected(failure))
      case None =>
        if !AllHaveGrantId(AppliedPuts(db.sagas[p].effects)) then Transaction(db, Broken(NO_GRANT_ID))
        else Commit(db, key, CleanupOperation, input.actor, input.requestHash, p,
                    CleanupSaga(p, db.sagas[p], input, ids, now))
  }

  /* ---------- Worker transactions ---------- */

  datatype Finalized = Finalized(db: Db, answer: FinalizeAnswer)
  datatype FinalizeAnswer = Answered(result: FinalizeResult) | FinalizeBroken(detail: string)

  // The leased row a record still holds, if any.
  function FencedRow(db: Db, record: EffectRecord): Option<nat>
    requires record.provisioningId in db.sagas
  {
    Pick(db.sagas[record.provisioningId].effects, Fenced(record.effectId, record.leaseToken))
  }

  function FinalizeTransaction(db: Db, record: EffectRecord, outcome: EffectOutcome, actor: string,
                              now: Time): Finalized
  {
    var p := record.provisioningId;
    if p !in db.sagas then Finalized(db, FinalizeBroken(NO_SAGA)) else
    match FencedRow(db, record)
    case None => Finalized(db, Answered(Superseded))
    case Some(i) =>
      if !Fits(record.kind, outcome) then Finalized(db, FinalizeBroken(KIND_MISMATCH))
      else Finalized(Put(db, p, FinalizeSaga(db.sagas[p], i, record, outcome, actor, now)), Answered(ResultOf(outcome)))
  }

  predicate DueAt(db: Db, p: Uuid)
  {
    p in db.sagas && Due(db.sagas[p])
  }

  // The lease of saga p's next effect.
  function ClaimAt(db: Db, p: Uuid, fence: Uuid, until: Time, actor: string, now: Time): Db
  {
    if p in db.sagas && ClaimPick(db.sagas[p]).Some?
    then Put(db, p, ClaimSaga(db.sagas[p], ClaimPick(db.sagas[p]).value, fence, until, actor, now))
    else db
  }

  function ClaimedRecord(db: Db, p: Uuid, fence: Uuid): EffectRecord
    requires p in db.sagas && ClaimPick(db.sagas[p]).Some?
  {
    RecordOf(p, db.sagas[p].row, db.sagas[p].effects[ClaimPick(db.sagas[p]).value], fence)
  }

  predicate ExpiredAt(db: Db, p: Uuid, now: Time)
  {
    p in db.sagas && HasExpired(db.sagas[p], now)
  }

  // The quarantine of saga p's expired effect.
  function QuarantineAt(db: Db, p: Uuid, actor: string, now: Time): Db
  {
    if
      && p in db.sagas && Pick(db.sagas[p].effects, Expired(now)).Some?
      && db.sagas[p].effects[Pick(db.sagas[p].effects, Expired(now)).value].leaseToken.Some?
    then Put(db, p, QuarantineSaga(db.sagas[p], Pick(db.sagas[p].effects, Expired(now)).value, actor, now))
    else db
  }

  // has_more: its query looks at states and statuses only, never at kinds.
  predicate HasMore(db: Db, now: Time)
  {
    exists p :: p in db.sagas && SagaHasMore(db.sagas[p], now)
  }

  predicate SagaHasMore(s: Saga, now: Time) {
    exists i :: 0 <= i < |s.effects| && RowHasMore(s.row.status, s.effects[i], now)
  }

  predicate RowHasMore(status: Status, e: Effect, now: Time) {
    || (e.state == Pending && status in {SagaPending, CleanupPending})
    || (Eligible(e, Expired(now)) && status in {SagaRunning, CleanupRunning})
  }
}
