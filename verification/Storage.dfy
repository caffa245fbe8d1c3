/** The storage layer statement by statement, proved equal to its transactions. */
module Storage {
  import opened Options
  import opened Keys
  import opened Rows
  import opened Sagas
  import opened Database
  import opened Runs
  import opened Progress
  import opened Written
  import opened Leases

  // The order the workers take sagas in, as the loop compares them.
  predicate EarlierUpdated(s: Saga, p: Uuid, t: Saga, q: Uuid) {
    s.row.updatedAt < t.row.updatedAt || (s.row.updatedAt == t.row.updatedAt && p < q)
  }

  // p satisfies a condition, and no other saga that does was updated before it; of those updated at
  // the same time p has the least id.
  predicate Oldest(sagas: map<Uuid, Saga>, p: Uuid, q: Selection) {
    && p in sagas && Selected(sagas[p], q)
    && forall other | other in sagas && Selected(sagas[other], q) ::
         && sagas[p].row.updatedAt <= sagas[other].row.updatedAt
         && (sagas[p].row.updatedAt == sagas[other].row.updatedAt ==> p <= other)
  }

  datatype Selection = DueSagas | ExpiredSagas(now: Time)

  predicate Selected(s: Saga, q: Selection) {
    match q
    case DueSagas => Due(s)
    case ExpiredSagas(now) => HasExpired(s, now)
  }

  // The row a record was handed out for, leased to it until the given time.
  predicate LeasedUntil(sagas: map<Uuid, Saga>, record: EffectRecord, until: Time) {
    && record.provisioningId in sagas
    && exists i :: 0 <= i < |sagas[record.provisioningId].effects|
                   && LeasedRow(sagas[record.provisioningId].effects[i], record, until)
  }

  predicate LeasedRow(e: Effect, record: EffectRecord, until: Time) {
    && e.effectId == record.effectId && e.state == InFlight
    && e.leaseToken == Some(record.leaseToken) && e.leaseUntil == Some(until)
  }

  function QuarantineSteps(picked: seq<Uuid>, actor: string, now: Time): seq<Step> {
    seq(|picked|, i requires 0 <= i < |picked| => QuarantineStep(picked[i], actor, now))
  }

  datatype ClaimReply = Idle | Claimed(record: EffectRecord) | ClaimBroken(detail: string)
  datatype QuarantineReply = Quarantined(count: nat) | QuarantineBroken(detail: string)

  const NO_ROW := "no rows returned by a query that expected to return at least one row"
  const NO_FENCE := "decode expired effect fence"

  // An expired lease without a token: quarantine cannot decode it.
  predicate FenceLost(s: Saga, now: Time) {
    HasExpired(s, now) && s.effects[Pick(s.effects, Expired(now)).value].leaseToken.None?
  }

  // Each quarantined saga was the least recently updated expired one when its turn came.
  ghost predicate InTurn(before: Db, picked: seq<Uuid>, actor: string, now: Time) {
    forall k | 0 <= k < |picked| ::
      Oldest(Run(before, QuarantineSteps(picked[..k], actor, now)).sagas, picked[k], ExpiredSagas(now))
  }

  lemma QuarantineGrows(before: Db, picked: seq<Uuid>, p: Uuid, actor: string, now: Time)
    ensures Run(before, QuarantineSteps(picked + [p], actor, now)) ==
            Next(Run(before, QuarantineSteps(picked, actor, now)), QuarantineStep(p, actor, now))
  {
    var steps := QuarantineSteps(picked + [p], actor, now);
    assert steps[..|picked|] == QuarantineSteps(picked, actor, now);
  }

  lemma InTurnGrows(before: Db, picked: seq<Uuid>, p: Uuid, actor: string, now: Time)
    requires InTurn(before, picked, actor, now)
    requires Oldest(Run(before, QuarantineSteps(picked, actor, now)).sagas, p, ExpiredSagas(now))
    ensures InTurn(before, picked + [p], actor, now)
  {
    forall k | 0 <= k <= |picked|
      ensures (picked + [p])[..k] == picked[..k]
    {
    }
    assert picked[..|picked|] == picked;
  }

  lemma ExpiredIsEnabled(db: Db, p: Uuid, actor: string, now: Time)
    requires Oldest(db.sagas, p, ExpiredSagas(now))
    ensures Next(db, QuarantineStep(p, actor, now)) == QuarantineAt(db, p, actor, now)
  {
  }

  lemma PutRowsGrow(p: Uuid, grants: seq<Grant>, ids: seq<Uuid>, now: Time, n: nat)
    requires n < |grants| == |ids|
    ensures PutRows(p, grants[..n + 1], ids[..n + 1], now)
         == PutRows(p, grants[..n], ids[..n], now) + [PutRow(p, n, grants[n], ids[n], now)]
  {
    forall i | 0 <= i < n
      ensures grants[..n + 1][i] == grants[..n][i] && ids[..n + 1][i] == ids[..n][i]
    {
    }
  }

  lemma RevokesGrow(p: Uuid, puts: seq<Effect>, ids: seq<Uuid>, now: Time, n: nat)
    requires n < |puts| <= |ids|
    ensures RevokeRows(p, puts[..n + 1], ids, now) ==
              RevokeRows(p, puts[..n], ids, now) + [RevokeRow(p, puts[n], ids[n], now)]
  {
    forall i | 0 <= i < n
      ensures puts[..n + 1][i] == puts[..n][i]
    {
    }
  }

  lemma FirstErrorGrows(rows: seq<Effect>, cleanup: bool, state: State, n: nat)
    requires n < |rows|
    ensures var earlier := FirstError(rows[..n], cleanup, state);
            FirstError(rows[..n + 1], cleanup, state) ==
            if earlier.Some? then earlier
            else if Relevant(rows[n], cleanup) && rows[n].state == state then rows[n].lastError
            else None
  {
    assert rows[..n + 1][..n] == rows[..n] && rows[..n + 1][n] == rows[n];
  }

  lemma StartIsDone(db: Db, input: StartInput, ids: seq<Uuid>, now: Time)
    requires |ids| == 1 + |input.grants|
    ensures input.provisioningId !in db.sagas && Unused(db, input.caller, input.idempotencyKey) ==>
              StartDone(db, StartTransaction(db, input, ids, now), input, ids, now)
  {
    if input.provisioningId !in db.sagas && Unused(db, input.caller, input.idempotencyKey) {
      StartWrites(db, input, ids, now);
    }
  }

  lemma RetryIsDone(db: Db, input: RetryInput, now: Time)
    ensures SagasInv(db) && Unused(db, input.caller, input.idempotencyKey) ==>
              exists k :: RetryDone(db, RetryTransaction(db, input, now), input, now, k)
  {
    if SagasInv(db) && Unused(db, input.caller, input.idempotencyKey) {
      var k := RetryWrites(db, input, now);
    }
  }

  lemma CleanupIsDone(db: Db, input: CleanupInput, ids: seq<Uuid>, now: Time)
    requires EnoughIds(db, input.provisioningId, ids)
    ensures SagasInv(db) && Unused(db, input.caller, input.idempotencyKey) && FreshIds(db, ids) ==>
              exists applied :: CleanupDone(db, CleanupTransaction(db, input, ids, now), input, ids, now, applied)
  {
    if SagasInv(db) && Unused(db, input.caller, input.idempotencyKey) && FreshIds(db, ids) {
      var applied := CleanupWrites(db, input, ids, now);
    }
  }

  lemma AnswerIsMeant(db: Db, record: EffectRecord, outcome: EffectOutcome, actor: string, now: Time)
    ensures var final := FinalizeTransaction(db, record, outcome, actor, now);
            SagasInv(db) && Issued(db, record) && Fits(record.kind, outcome) ==>
              final.answer.Answered? && EndsAs(db, final.db, record, final.answer.result)
  {
    if SagasInv(db) && Issued(db, record) && Fits(record.kind, outcome) {
      AnswerMeans(db, record, outcome, actor, now);
    }
  }

  class Store {
    var sagas: map<Uuid, Saga>
    var mutations: map<MutationKey, Mutation>

    function Contents(): Db
      reads this
    {
      Db(sagas, mutations)
    }

    constructor ()
      ensures Contents() == EMPTY
    {
      sagas := map[];
      mutations := map[];
    }

    // Dropping an uncommitted transaction restores the tables it started from.
    method Rollback(before: Db)
      modifies this
      ensures Contents() == before
    {
      sagas := before.sagas;
      mutations := before.mutations;
    }

    /* ---------- Helpers shared by the operations ---------- */

    method BeginMutation(key: MutationKey, operation: Operation, actor: string, hash: Hash, p: Option<Uuid>)
      returns (r: MutationReplay)
      modifies this`mutations
      ensures r == Lookup(old(mutations), key, operation, actor, hash)
      ensures mutations ==
              if r.Execute? then old(mutations)[key := Mutation(operation, actor, hash, p, false, None)]
              else old(mutations)
    {
      if key !in mutations {
        mutations := mutations[key := Mutation(operation, actor, hash, p, false, None)];
        return MutationReplay.Execute;
      }
      var row := mutations[key];
      if row.operation != operation || row.actor != actor || row.requestHash != hash {
        return Conflict;
      }
      if !row.completed || row.response.None? {
        return Incomplete;
      }
      return ReplayResponse(row.response.value);
    }

    method CompleteMutation(key: MutationKey, view: ProvisioningView)
      requires key in mutations && !mutations[key].completed
      modifies this`mutations
      ensures mutations == old(mutations)[key := old(mutations)[key].(completed := true, response := Some(view))]
    {
      mutations := mutations[key := mutations[key].(completed := true, response := Some(view))];
    }

    // Load the view of the changed saga, record it as the reserved mutation's response, and commit.
    method Publish(ghost before: Db, key: MutationKey, ghost reserved: Mutation, p: Uuid) returns (reply: Reply)
      requires p in sagas && sagas == before.sagas[p := sagas[p]]
      requires reserved.provisioningId == Some(p) && !reserved.completed
      requires mutations == before.mutations[key := reserved]
      modifies this`mutations
      ensures Transaction(Contents(), reply) ==
              Commit(before, key, reserved.operation, reserved.actor, reserved.requestHash, p, sagas[p])
    {
      var view := ViewOf(p, sagas[p]);
      CompleteMutation(key, view);
      reply := Committed(view);
    }

    method InsertActivity(p: Uuid, effectId: Option<Uuid>, event: Event, actor: string, revision: nat)
      requires p in sagas
      modifies this`sagas
      ensures var s := old(sagas)[p];
              sagas == old(sagas)[p := s.(log := s.log + [Activity(effectId, event, actor, revision)])]
    {
      sagas := sagas[p := sagas[p].(log := sagas[p].log + [Activity(effectId, event, actor, revision)])];
    }

    method UpdateEffect(p: Uuid, i: nat, e: Effect)
      requires p in sagas && i < |sagas[p].effects|
      modifies this`sagas
      ensures sagas == old(sagas)[p := old(sagas)[p].(effects := old(sagas)[p].effects[i := e])]
    {
      sagas := sagas[p := sagas[p].(effects := sagas[p].effects[i := e])];
    }

    method UpdateRow(p: Uuid, row: SagaRow)
      requires p in sagas
      modifies this`sagas
      ensures sagas == old(sagas)[p := old(sagas)[p].(row := row)]
    {
      sagas := sagas[p := sagas[p].(row := row)];
    }

    // The pass of refresh_saga_status over the saga's rows, in kind and ordinal order.
    static method ScanRows(rows: seq<Effect>, cleanup: bool)
      returns (unknown: Option<string>, failed: Option<string>, pending: bool)
      ensures unknown == FirstError(rows, cleanup, Unknown)
      ensures failed == FirstError(rows, cleanup, Failed)
      ensures pending <==> HasOpen(rows, cleanup)
    {
      unknown, failed, pending := None, None, false;
      for i := 0 to |rows|
        invariant unknown == FirstError(rows[..i], cleanup, Unknown)
        invariant failed == FirstError(rows[..i], cleanup, Failed)
        invariant pending ==> HasOpen(rows, cleanup)
        invariant !pending ==> forall j | 0 <= j < i ::
            !(Relevant(rows[j], cleanup) && rows[j].state in {Pending, InFlight})
      {
        var e := rows[i];
        FirstErrorGrows(rows, cleanup, Unknown, i);
        FirstErrorGrows(rows, cleanup, Failed, i);
        unknown, failed, pending := ScanRow(e, cleanup, unknown, failed, pending);
      }
      assert rows[..|rows|] == rows;
    }

    // One row of the pass: the first error of each blocked state stays.
    static method ScanRow(e: Effect, cleanup: bool, unknown: Option<string>, failed: Option<string>, pending: bool)
      returns (newUnknown: Option<string>, newFailed: Option<string>, newPending: bool)
      ensures newUnknown == if unknown.Some? || !Relevant(e, cleanup) || e.state != Unknown then unknown
                else e.lastError
      ensures newFailed == if failed.Some? || !Relevant(e, cleanup) || e.state != Failed then failed else e.lastError
      ensures newPending <==> pending || (Relevant(e, cleanup) && e.state in {Pending, InFlight})
    {
      newUnknown, newFailed, newPending := unknown, failed, pending;
      if Relevant(e, cleanup) {
        match e.state {
          case Unknown => newUnknown := if unknown.Some? then unknown else e.lastError;
          case Failed => newFailed := if failed.Some? then failed else e.lastError;
          case Pending => newPending := true;
          case InFlight => newPending := true;
          case _ =>
        }
      }
    }

    method RefreshSagaStatus(p: Uuid, now: Time) returns (revision: nat)
      requires p in sagas
      modifies this`sagas
      ensures sagas == old(sagas)[p := old(sagas)[p].(row := Refresh(old(sagas)[p].row, old(sagas)[p].effects, now))]
      ensures revision == old(sagas)[p].row.revision + 1
    {
      var row := sagas[p].row;
      var cleanup := row.cleanupRequested;
      var unknown, failed, pending := ScanRows(sagas[p].effects, cleanup);
      var status, lastError;
      if unknown.Some? {
        status, lastError := ManualReview, unknown;
      } else if failed.Some? {
        status, lastError := FailedStatus(cleanup), failed;
      } else if pending {
        status, lastError := PendingStatus(cleanup), None;
      } else {
        status, lastError := CompletedStatus(cleanup), None;
      }
      revision := row.revision + 1;
      UpdateRow(p, row.(status := status, revision := revision, lastError := lastError,
                        organizationResidue := row.organizationId.Some?, updatedAt := now,
                        completedAt := Coalesce(row.completedAt, status == SagaCompleted, now),
                        cleanupCompletedAt := Coalesce(row.cleanupCompletedAt, status == CleanupCompleted, now)));
    }

    // Refresh the saga row and append the activity row under its new revision.
    method RecordChange(p: Uuid, effectId: Option<Uuid>, event: Event, actor: string, now: Time)
      requires p in sagas
      modifies this`sagas
      ensures var s := old(sagas)[p];
              var r := Refresh(s.row, s.effects, now);
              sagas == old(sagas)[p := Saga(r, s.effects, s.log + [Activity(effectId, event, actor, r.revision)])]
    {
      var revision := RefreshSagaStatus(p, now);
      InsertActivity(p, effectId, event, actor, revision);
    }

    // ORDER BY updated_at, provisioning_id LIMIT 1 over the sagas a worker may take.
    method SelectOldest(q: Selection) returns (r: Option<Uuid>)
      ensures r.Some? ==> Oldest(sagas, r.value, q)
      ensures r.None? ==> forall p | p in sagas :: !Selected(sagas[p], q)
    {
      var eligible := set p | p in sagas && Selected(sagas[p], q);
      r := Earliest(eligible);
      assert r.None? ==> forall p | p in sagas && Selected(sagas[p], q) :: p in eligible;
    }

    method Earliest(eligible: set<Uuid>) returns (r: Option<Uuid>)
      requires eligible <= sagas.Keys
      ensures r.None? <==> eligible == {}
      ensures r.Some? ==> r.value in eligible
                          && forall p | p in eligible :: !EarlierUpdated(sagas[p], p, sagas[r.value], r.value)
    {
      r := None;
      var rest := eligible;
      while rest != {}
        invariant rest <= eligible && (r.None? <==> rest == eligible) && (r.Some? ==> r.value in eligible)
        invariant r.Some? ==>
                    forall p | p in eligible && p !in rest :: !EarlierUpdated(sagas[p], p, sagas[r.value], r.value)
        decreases rest
      {
        var p :| p in rest;
        rest := rest - {p};
        if r.None? || EarlierUpdated(sagas[p], p, sagas[r.value], r.value) {
          r := Some(p);
        }
      }
    }

    /* ---------- start ---------- */

    method Start(input: StartInput, ids: seq<Uuid>, now: Time) returns (reply: Reply)
      requires |ids| == 1 + |input.grants|
      modifies this
      ensures Transaction(Contents(), reply) == StartTransaction(old(Contents()), input, ids, now)
      ensures !reply.Committed? ==> Contents() == old(Contents())
      ensures input.provisioningId !in old(sagas) && Unused(old(Contents()), input.caller, input.idempotencyKey) ==>
                StartDone(old(Contents()), Transaction(Contents(), reply), input, ids, now)
    {
      var before := Contents();
      StartIsDone(before, input, ids, now);
      var key := MutationKey(input.caller, input.idempotencyKey);
      var begun := BeginMutation(key, StartOperation, input.actor, input.requestHash, None);
      match begun {
        case Conflict =>
          return Rejected(IdempotencyConflict);
        case Incomplete =>
          return Broken(INCOMPLETE);
        case ReplayResponse(view) =>
          return Committed(view);
        case Execute =>
          reply := ExecuteStart(before, key, input, ids, now);
      }
    }

    // The rest of the transaction, once the key is reserved.
    method ExecuteStart(before: Db, key: MutationKey, input: StartInput, ids: seq<Uuid>, now: Time)
      returns (reply: Reply)
      requires |ids| == 1 + |input.grants| && sagas == before.sagas
      requires mutations == before.mutations[key :=
                 Mutation(StartOperation, input.actor, input.requestHash, None, false, None)]
      modifies this
      ensures var p := input.provisioningId;
              Transaction(Contents(), reply) ==
              if p in before.sagas then Transaction(before, Broken(DUPLICATE_ID))
              else Commit(before, key, StartOperation, input.actor, input.requestHash, p,
                          NewSaga(p, input.actor, input.name, input.slug, input.ownerSubject, input.grants, ids, now))
    {
      var p := input.provisioningId;
      if p in sagas {
        Rollback(before);
        return Broken(DUPLICATE_ID);
      }
      InsertSaga(p, input, ids, now);
      mutations := mutations[key := mutations[key].(provisioningId := Some(p))];
      reply := Publish(before, key, mutations[key], p);
    }

    method InsertSaga(p: Uuid, input: StartInput, ids: seq<Uuid>, now: Time)
      requires |ids| == 1 + |input.grants| && p !in sagas
      modifies this`sagas
      ensures sagas ==
              old(sagas)[p := NewSaga(p, input.actor, input.name, input.slug, input.ownerSubject, input.grants, ids,
                                      now)]
    {
      sagas := sagas[p := Saga(NewRow(input.actor, input.name, input.slug, input.ownerSubject, now), [], [])];
      InsertEffects(p, input.grants, ids, now);
      assert sagas[p].log == [];
      InsertActivity(p, None, ProvisioningStarted(|input.grants|), input.actor, 1);
      assert sagas[p].log == [Activity(None, ProvisioningStarted(|input.grants|), input.actor, 1)];
    }

    // The create row, then one put row per grant, numbered from zero.
    method InsertEffects(p: Uuid, grants: seq<Grant>, ids: seq<Uuid>, now: Time)
      requires p in sagas && |ids| == 1 + |grants|
      modifies this`sagas
      ensures sagas == old(sagas)[p := old(sagas)[p].(effects := NewEffects(p, grants, ids, now))]
    {
      var effects := [CreateRow(p, ids[0], now)];
      ghost var putIds := ids[1..];
      for ordinal := 0 to |grants|
        invariant sagas == old(sagas)
        invariant effects == [CreateRow(p, ids[0], now)] + PutRows(p, grants[..ordinal], putIds[..ordinal], now)
      {
        PutRowsGrow(p, grants, putIds, now, ordinal);
        effects := effects + [PutRow(p, ordinal, grants[ordinal], ids[1 + ordinal], now)];
      }
      assert grants[..|grants|] == grants && putIds[..|grants|] == putIds;
      sagas := sagas[p := sagas[p].(effects := effects)];
    }

    /* ---------- retry ---------- */

    method Retry(input: RetryInput, now: Time) returns (reply: Reply)
      modifies this
      ensures Transaction(Contents(), reply) == RetryTransaction(old(Contents()), input, now)
      ensures !reply.Committed? ==> Contents() == old(Contents())
      ensures SagasInv(old(Contents())) && Unused(old(Contents()), input.caller, input.idempotencyKey) ==>
                exists k :: RetryDone(old(Contents()), Transaction(Contents(), reply), input, now, k)
    {
      var before := Contents();
      RetryIsDone(before, input, now);
      var key, p := MutationKey(input.caller, input.idempotencyKey), input.provisioningId;
      if p !in sagas || sagas[p].row.requestedBy != input.actor {
        return Rejected(ProvisioningNotFound);
      }
      var begun := BeginMutation(key, RetryOperation, input.actor, input.requestHash, Some(p));
      match begun {
        case Conflict =>
          return Rejected(IdempotencyConflict);
        case Incomplete =>
          return Broken(INCOMPLETE);
        case ReplayResponse(view) =>
          return Committed(view);
        case Execute =>
      }
      var refused := RetryRows(p, input, now);
      if refused.Some? {
        Rollback(before);
        return Rejected(refused.value);
      }
      reply := Publish(before, key, mutations[key], p);
    }

    method RetryRows(p: Uuid, input: RetryInput, now: Time) returns (refused: Option<DomainFailure>)
      requires p in sagas
      modifies this`sagas
      ensures match RetrySaga(old(sagas)[p], input, now)
              case Err(failure) => refused == Some(failure)
              case Ok(s) => refused.None? && sagas == old(sagas)[p := s]
    {
      var saga := sagas[p];
      if saga.row.revision != input.expectedRevision {
        return Some(RevisionConflict);
      }
      var target := RetryTarget(saga, input.resolution);
      if target.Err? {
        return Some(target.failure);
      }
      refused := SettleRetry(p, target.value, input, now);
    }

    // The row updates of the resolution and, unless it is refused, the refresh and the activity row.
    method SettleRetry(p: Uuid, i: nat, input: RetryInput, now: Time) returns (refused: Option<DomainFailure>)
      requires p in sagas && i < |sagas[p].effects|
      modifies this`sagas
      ensures var s := old(sagas)[p];
              match Resolve(s, i, input, now)
              case Err(failure) => refused == Some(failure)
              case Ok(change) =>
                && refused.None?
                && sagas == old(sagas)[p := Settle(s, i, change.effect, change.row,
                                                   RetryEvent(input, s.effects[i].kind),
                                                   input.actor, now)]
    {
      var e := sagas[p].effects[i];
      refused := ApplyResolution(p, i, input, now);
      if refused.None? {
        RecordChange(p, Some(e.effectId), RetryEvent(input, e.kind), input.actor, now);
      }
    }

    // The row updates of one resolution, or the refusal that rolls the retry back.
    method ApplyResolution(p: Uuid, i: nat, input: RetryInput, now: Time) returns (refused: Option<DomainFailure>)
      requires p in sagas && i < |sagas[p].effects|
      modifies this`sagas
      ensures match Resolve(old(sagas)[p], i, input, now)
              case Err(failure) => refused == Some(failure) && sagas == old(sagas)
              case Ok(change) =>
                && refused.None?
                && sagas == old(sagas)[p := Saga(change.row, old(sagas)[p].effects[i := change.effect],
                                                 old(sagas)[p].log)]
    {
      var e, status := sagas[p].effects[i], sagas[p].row.status;
      var nothing := input.observedOrganizationId.None? && input.observedOwnerMembershipId.None?
          && input.observedGrantId.None?;
      match input.resolution {
        case RetryFailed =>
          if status == ManualReview || !nothing {
            return Some(ManualResolutionRequired);
          }
          UpdateEffect(p, i, ResetRow(e, now));
        case ConfirmNotApplied =>
          if status != ManualReview || !nothing {
            return Some(InvalidTransition);
          }
          UpdateEffect(p, i, ResetRow(e, now));
        case ConfirmApplied =>
          match e.kind {
            case CreateOrganization =>
              if input.observedOrganizationId.None? || input.observedOwnerMembershipId.None?
                  || input.observedGrantId.Some? {
                return Some(ManualResolutionRequired);
              }
              UpdateEffect(p, i, AppliedRow(e, input.observedOrganizationId.value, now));
              UpdateRow(p, WithOrganization(sagas[p].row, input.observedOrganizationId.value,
                                            input.observedOwnerMembershipId.value));
            case PutEntitlement =>
              if input.observedOrganizationId.Some? || input.observedOwnerMembershipId.Some?
                  || input.observedGrantId.None? {
                return Some(ManualResolutionRequired);
              }
              UpdateEffect(p, i, AppliedRow(e, input.observedGrantId.value, now));
            case RevokeEntitlement =>
              if !nothing {
                return Some(ManualResolutionRequired);
              }
              UpdateEffect(p, i, CompensatedRow(e, now));
          }
      }
      refused := None;
    }

    /* ---------- request_cleanup ---------- */

    method RequestCleanup(input: CleanupInput, ids: seq<Uuid>, now: Time) returns (reply: Reply)
      requires EnoughIds(Contents(), input.provisioningId, ids)
      modifies this
      ensures Transaction(Contents(), reply) == CleanupTransaction(old(Contents()), input, ids, now)
      ensures !reply.Committed? ==> Contents() == old(Contents())
      ensures SagasInv(old(Contents())) && Unused(old(Contents()), input.caller, input.idempotencyKey)
              && FreshIds(old(Contents()), ids) ==>
                exists applied ::
                  CleanupDone(old(Contents()), Transaction(Contents(), reply), input, ids, now, applied)
    {
      var before := Contents();
      CleanupIsDone(before, input, ids, now);
      var key, p := MutationKey(input.caller, input.idempotencyKey), input.provisioningId;
      if p !in sagas || sagas[p].row.requestedBy != input.actor {
        return Rejected(ProvisioningNotFound);
      }
      var begun := BeginMutation(key, CleanupOperation, input.actor, input.requestHash, Some(p));
      match begun {
        case Conflict =>
          return Rejected(IdempotencyConflict);
        case Incomplete =>
          return Broken(INCOMPLETE);
        case ReplayResponse(view) =>
          return Committed(view);
        case Execute =>
          reply := ExecuteCleanup(before, key, input, ids, now);
      }
    }

    method ExecuteCleanup(before: Db, key: MutationKey, input: CleanupInput, ids: seq<Uuid>, now: Time)
      returns (reply: Reply)
      requires input.provisioningId in before.sagas && EnoughIds(before, input.provisioningId, ids)
      requires sagas == before.sagas
      requires mutations == before.mutations[key :=
                 Mutation(CleanupOperation, input.actor, input.requestHash, Some(input.provisioningId), false, None)]
      modifies this
      ensures var p := input.provisioningId;
              Transaction(Contents(), reply) ==
              match CleanupRefusal(before.sagas[p], input.expectedRevision)
              case Some(failure) => Transaction(before, Rejected(failure))
              case None =>
                if !AllHaveGrantId(AppliedPuts(before.sagas[p].effects)) then Transaction(before, Broken(NO_GRANT_ID))
                else Commit(before, key, CleanupOperation, input.actor, input.requestHash, p,
                            CleanupSaga(p, before.sagas[p], input, ids, now))
    {
      var p := input.provisioningId;
      var failed := CleanupRows(p, input, ids, now);
      if failed.Some? {
        Rollback(before);
        return failed.value;
      }
      reply := Publish(before, key, mutations[key], p);
    }

    method CleanupRows(p: Uuid, input: CleanupInput, ids: seq<Uuid>, now: Time) returns (failed: Option<Reply>)
      requires p in sagas && |sagas[p].effects| <= |ids|
      modifies this`sagas
      ensures match CleanupRefusal(old(sagas)[p], input.expectedRevision)
              case Some(failure) => failed == Some(Rejected(failure))
              case None =>
                if !AllHaveGrantId(AppliedPuts(old(sagas)[p].effects)) then failed == Some(Broken(NO_GRANT_ID))
                else failed.None? && sagas == old(sagas)[p := CleanupSaga(p, old(sagas)[p], input, ids, now)]
    {
      var saga := sagas[p];
      if saga.row.revision != input.expectedRevision {
        return Some(Rejected(RevisionConflict));
      }
      if saga.row.cleanupRequested {
        return Some(Rejected(InvalidTransition));
      }
      if saga.row.status == ManualReview {
        return Some(Rejected(ManualResolutionRequired));
      }
      if saga.row.status != SagaCompleted && saga.row.status != SagaFailed {
        return Some(Rejected(InvalidTransition));
      }
      var ok := CleanupEffects(p, input, ids, now);
      failed := if ok then None else Some(Broken(NO_GRANT_ID));
    }

    // Skip what never ran, add the revokes, and open the cleanup phase.
    method CleanupEffects(p: Uuid, input: CleanupInput, ids: seq<Uuid>, now: Time) returns (ok: bool)
      requires p in sagas && |sagas[p].effects| <= |ids|
      modifies this`sagas
      ensures ok <==> AllHaveGrantId(AppliedPuts(old(sagas)[p].effects))
      ensures ok ==> sagas == old(sagas)[p := CleanupSaga(p, old(sagas)[p], input, ids, now)]
    {
      var saga := sagas[p];
      var puts := AppliedPuts(saga.effects);
      sagas := sagas[p := saga.(effects := SkipUnfinished(saga.effects, now))];
      ok := InsertRevokes(p, puts, ids, now);
      if !ok {
        return;
      }
      OpenCleanup(p, |puts|, input, now);
    }

    method OpenCleanup(p: Uuid, reversible: nat, input: CleanupInput, now: Time)
      requires p in sagas
      modifies this`sagas
      ensures var s := old(sagas)[p];
              var r := Refresh(s.row.(cleanupRequested := true, lastError := None), s.effects, now);
              sagas == old(sagas)[p := Saga(r, s.effects, s.log + [
                Activity(None, CleanupRequested(reversible, s.row.organizationId.Some?, input.evidence),
                         input.actor, r.revision)])]
    {
      var residue := sagas[p].row.organizationId.Some?;
      UpdateRow(p, sagas[p].row.(cleanupRequested := true, lastError := None));
      RecordChange(p, None, CleanupRequested(reversible, residue, input.evidence), input.actor, now);
    }

    // One revoke row per applied put; stops at a put without a grant id.
    method InsertRevokes(p: Uuid, puts: seq<Effect>, ids: seq<Uuid>, now: Time) returns (ok: bool)
      requires p in sagas && |puts| <= |ids|
      modifies this`sagas
      ensures ok <==> AllHaveGrantId(puts)
      ensures ok ==>
                var s := old(sagas)[p];
                sagas == old(sagas)[p := s.(effects := s.effects + RevokeRows(p, puts, ids, now))]
    {
      var revokes := [];
      for j := 0 to |puts|
        invariant sagas == old(sagas)
        invariant forall h | 0 <= h < j :: puts[h].externalId.Some?
        invariant revokes == RevokeRows(p, puts[..j], ids, now)
      {
        if puts[j].externalId.None? {
          return false;
        }
        RevokesGrow(p, puts, ids, now, j);
        revokes := revokes + [RevokeRow(p, puts[j], ids[j], now)];
      }
      assert puts[..|puts|] == puts;
      AppendEffects(p, revokes);
      ok := true;
    }

    method AppendEffects(p: Uuid, rows: seq<Effect>)
      requires p in sagas
      modifies this`sagas
      ensures sagas == old(sagas)[p := old(sagas)[p].(effects := old(sagas)[p].effects + rows)]
    {
      sagas := sagas[p := sagas[p].(effects := sagas[p].effects + rows)];
    }

    /* ---------- claim_next ---------- */

    method ClaimNext(actor: string, leaseSeconds: nat, clock: Time, fence: Uuid, now: Time) returns (r: ClaimReply)
      modifies this
      ensures r.Idle? ==> Contents() == old(Contents()) && forall p | p in sagas :: !Due(sagas[p])
      ensures r.Claimed? ==>
                var p := r.record.provisioningId;
                && Oldest(old(sagas), p, DueSagas) && ClaimPick(old(sagas)[p]).Some?
                && r.record == ClaimedRecord(old(Contents()), p, fence)
                && Contents() == ClaimAt(old(Contents()), p, fence, clock + leaseSeconds * 1_000_000, actor, now)
                && r.record.leaseToken == fence
                && LeasedUntil(sagas, r.record, clock + leaseSeconds * 1_000_000)
      ensures r.ClaimBroken? ==>
                Contents() == old(Contents()) && exists p :: p in sagas && Due(sagas[p]) && ClaimPick(sagas[p]).None?
    {
      var picked := SelectOldest(DueSagas);
      if picked.None? {
        return Idle;
      }
      var p := picked.value;
      var saga := sagas[p];
      var row := Pick(saga.effects, Claimable(saga.row.cleanupRequested));
      if row.None? {
        return ClaimBroken(NO_ROW);
      }
      var e := saga.effects[row.value];
      LeaseRow(p, row.value, fence, clock + leaseSeconds * 1_000_000, actor, now);
      assert LeasedRow(sagas[p].effects[row.value], RecordOf(p, saga.row, e, fence), clock + leaseSeconds * 1_000_000);
      r := Claimed(EffectRecord(e.effectId, p, e.kind, e.downstreamKey, e.subjectKind, e.feature, e.limit, e.externalId,
                                fence, saga.row.name, saga.row.slug, saga.row.ownerSubject, saga.row.organizationId));
    }

    method LeaseRow(p: Uuid, i: nat, fence: Uuid, until: Time, actor: string, now: Time)
      requires p in sagas && i < |sagas[p].effects|
      modifies this`sagas
      ensures sagas == old(sagas)[p := ClaimSaga(old(sagas)[p], i, fence, until, actor, now)]
    {
      var saga, e := sagas[p], sagas[p].effects[i];
      UpdateEffect(p, i, Leased(e, fence, until, now));
      var revision := saga.row.revision + 1;
      UpdateRow(p, saga.row.(status := if saga.row.cleanupRequested then CleanupRunning else SagaRunning,
                             revision := revision, lastError := None, updatedAt := now));
      InsertActivity(p, Some(e.effectId), EffectClaimed(e.kind, e.attempts + 1, fence), actor, revision);
    }

    /* ---------- finalize_effect ---------- */

    method FinalizeEffect(record: EffectRecord, outcome: EffectOutcome, actor: string, now: Time)
      returns (answer: FinalizeAnswer)
      modifies this
      ensures Finalized(Contents(), answer) == FinalizeTransaction(old(Contents()), record, outcome, actor, now)
      ensures SagasInv(old(Contents())) && Issued(old(Contents()), record) && Fits(record.kind, outcome) ==>
                answer.Answered? && EndsAs(old(Contents()), Contents(), record, answer.result)
    {
      AnswerIsMeant(Contents(), record, outcome, actor, now);
      var p := record.provisioningId;
      if p !in sagas {
        return FinalizeBroken(NO_SAGA);
      }
      var current := Pick(sagas[p].effects, Fenced(record.effectId, record.leaseToken));
      if current.None? {
        return Answered(Superseded);
      }
      answer := FinalizeLocked(p, current.value, record, outcome, actor, now);
    }

    // The rest of the transaction, once the fenced row is locked.
    method FinalizeLocked(p: Uuid, i: nat, record: EffectRecord, outcome: EffectOutcome, actor: string, now: Time)
      returns (answer: FinalizeAnswer)
      requires p in sagas && i < |sagas[p].effects| && sagas[p].effects[i].effectId == record.effectId
      modifies this`sagas
      ensures sagas == if Fits(record.kind, outcome)
                       then old(sagas)[p := FinalizeSaga(old(sagas)[p], i, record, outcome, actor, now)]
                       else old(sagas)
      ensures answer == if Fits(record.kind, outcome) then Answered(ResultOf(outcome))
                else FinalizeBroken(KIND_MISMATCH)
    {
      var applied := ApplyOutcome(p, i, record, outcome, now);
      if applied.None? {
        return FinalizeBroken(KIND_MISMATCH);
      }
      RecordChange(p, Some(record.effectId), applied.value.1, actor, now);
      answer := Answered(applied.value.0);
    }

    // The row updates of one outcome, with the worker's result and the activity to record; nothing
    // when the receipt does not fit the record's kind.
    method ApplyOutcome(p: Uuid, i: nat, record: EffectRecord, outcome: EffectOutcome, now: Time)
      returns (r: Option<(FinalizeResult, Event)>)
      requires p in sagas && i < |sagas[p].effects|
      modifies this`sagas
      ensures r == if Fits(record.kind, outcome) then Some((ResultOf(outcome), OutcomeEvent(record, outcome))) else None
      ensures sagas == if Fits(record.kind, outcome)
                       then old(sagas)[p := Saga(OutcomeSagaRow(old(sagas)[p].row, outcome),
                              old(sagas)[p].effects[i := OutcomeRow(old(sagas)[p].effects[i], outcome, now)],
                              old(sagas)[p].log)]
                       else old(sagas)
    {
      var e := sagas[p].effects[i];
      match outcome {
        case OrganizationApplied(organizationId, membershipId) =>
          if record.kind != CreateOrganization {
            return None;
          }
          UpdateEffect(p, i, AppliedRow(e, organizationId, now));
          UpdateRow(p, WithOrganization(sagas[p].row, organizationId, membershipId));
          return Some((ResultApplied, EffectApplied(organizationId, Some(membershipId))));
        case EntitlementApplied(grantId) =>
          if record.kind != PutEntitlement {
            return None;
          }
          UpdateEffect(p, i, AppliedRow(e, grantId, now));
          return Some((ResultApplied, EffectApplied(grantId, None)));
        case RevocationApplied =>
          if record.kind != RevokeEntitlement {
            return None;
          }
          UpdateEffect(p, i, CompensatedRow(e, now));
          return Some((ResultApplied, EffectCompensated(record.externalId)));
        case CallFailed(code) =>
          UpdateEffect(p, i, BlockedRow(e, Failed, code, now));
          return Some((ResultFailed, EffectFailed(code)));
        case CallUnknown(code) =>
          UpdateEffect(p, i, BlockedRow(e, Unknown, code, now));
          return Some((ResultManualReview, EffectOutcomeUnknown(Reported(code))));
      }
    }

    /* ---------- quarantine_expired ---------- */

    // One turn of the batch: lock the least recently updated expired saga and quarantine its row.
    method QuarantineTurn(actor: string, now: Time) returns (r: Option<Uuid>, ok: bool)
      modifies this`sagas
      ensures ok && r.Some? ==>
                && Oldest(old(sagas), r.value, ExpiredSagas(now))
                && Contents() == QuarantineAt(old(Contents()), r.value, actor, now)
      ensures ok && r.None? ==> Contents() == old(Contents()) && forall p | p in sagas :: !HasExpired(sagas[p], now)
      ensures !ok ==> Contents() == old(Contents()) && exists p :: p in sagas && FenceLost(sagas[p], now)
    {
      r := SelectOldest(ExpiredSagas(now));
      ok := true;
      if r.Some? {
        var i := Pick(sagas[r.value].effects, Expired(now)).value;
        if sagas[r.value].effects[i].leaseToken.None? {
          return r, false;
        }
        QuarantineRow(r.value, i, actor, now);
      }
    }

    method QuarantineRow(p: Uuid, i: nat, actor: string, now: Time)
      requires p in sagas && i < |sagas[p].effects| && sagas[p].effects[i].leaseToken.Some?
      modifies this`sagas
      ensures sagas == old(sagas)[p := QuarantineSaga(old(sagas)[p], i, actor, now)]
    {
      var saga, e := sagas[p], sagas[p].effects[i];
      UpdateEffect(p, i, BlockedRow(e, Unknown, LEASE_EXPIRED, now));
      var revision := saga.row.revision + 1;
      UpdateRow(p, saga.row.(status := ManualReview, revision := revision, lastError := Some(LEASE_EXPIRED),
                             updatedAt := now));
      InsertActivity(p, Some(e.effectId), EffectOutcomeUnknown(LeaseExpired(e.kind, e.leaseToken.value)), actor,
                     revision);
    }

    // One transaction over up to `limit` sagas, oldest first.
    method QuarantineExpired(actor: string, limit: int, now: Time) returns (r: QuarantineReply, ghost picked: seq<Uuid>)
      modifies this
      ensures r.Quarantined? ==>
                && r.count == |picked| && (|picked| == 0 || |picked| <= limit)
                && Contents() == Run(old(Contents()), QuarantineSteps(picked, actor, now))
                && InTurn(old(Contents()), picked, actor, now)
                && (r.count < limit ==> forall p | p in sagas :: !HasExpired(sagas[p], now))
      ensures r.QuarantineBroken? ==>
                var stuck := Run(old(Contents()), QuarantineSteps(picked, actor, now)).sagas;
                Contents() == old(Contents()) && exists p :: p in stuck && FenceLost(stuck[p], now)
    {
      var before := Contents();
      var quarantined := 0;
      picked := [];
      while quarantined < limit
        invariant quarantined == |picked| && (|picked| == 0 || |picked| <= limit)
        invariant Contents() == Run(before, QuarantineSteps(picked, actor, now))
        invariant InTurn(before, picked, actor, now)
        decreases limit - quarantined
      {
        ghost var db := Contents();
        var turn, ok := QuarantineTurn(actor, now);
        if !ok {
          Rollback(before);
          return QuarantineBroken(NO_FENCE), picked;
        }
        if turn.None? {
          break;
        }
        var p := turn.value;
        InTurnGrows(before, picked, p, actor, now);
        QuarantineGrows(before, picked, p, actor, now);
        ExpiredIsEnabled(db, p, actor, now);
        picked := picked + [p];
        quarantined := quarantined + 1;
      }
      r := Quarantined(quarantined);
    }

    // In a reachable store, the query says exactly whether a claim or a quarantine would find
    // something, although it looks at states and statuses only, never at kinds.
    method HasMoreWork(now: Time) returns (more: bool)
      ensures more <==> HasMore(Contents(), now)
      ensures SagasInv(Contents()) ==> (more <==> Undone(Contents(), now))
    {
      more := exists p :: p in sagas && SagaHasMore(sagas[p], now);
      assert more <==> HasMore(Contents(), now);
      if SagasInv(Contents()) {
        HasMoreExact(Contents(), now);
      }
    }
  }
}
