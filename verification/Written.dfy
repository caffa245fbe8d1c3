/** What each operation writes, field by field, read off its input and the rows it found. */
module Written {
  import opened Options
  import opened Keys
  import opened Rows
  import opened Sagas
  import opened Invariant
  import opened Preservation
  import opened Database
  import opened Runs
  import opened Reach
  import opened Histories
  import opened Decisions

  /* ---------- Shared shapes ---------- */

  // Saga p is there, and no other saga changed.
  predicate OnlySaga(db: Db, d: Db, p: Uuid) {
    p in d.sagas && d.sagas == db.sagas[p := d.sagas[p]]
  }

  predicate Shows(view: ProvisioningView, p: Uuid, s: Saga) {
    && view.provisioningId == p && view.row == s.row && |view.steps| == |s.effects|
    && forall i | 0 <= i < |s.effects| :: ShowsRow(view.steps[i], s.effects[i])
  }

  predicate ShowsRow(v: StepView, e: Effect) {
    && v.effectId == e.effectId && v.kind == e.kind && v.ordinal == e.ordinal && v.status == e.state
    && v.attempt == e.attempts && v.externalId == e.externalId && v.lastError == e.lastError
    && v.updatedAt == e.updatedAt
  }

  // The reply shows the stored saga, and the key now replays that very reply to its actor.
  predicate Replied(db: Db, d: Db, reply: Reply, key: MutationKey, operation: Operation, actor: string, hash: Hash,
                    p: Uuid)
  {
    && p in d.sagas && reply.Committed? && Shows(reply.view, p, d.sagas[p])
    && key in d.mutations && d.mutations == db.mutations[key := d.mutations[key]]
    && var m := d.mutations[key];
       && m.operation == operation && m.actor == actor && m.requestHash == hash
       && m.provisioningId == Some(p) && m.completed && m.response == Some(reply.view)
  }

  lemma CommitReplied(db: Db, key: MutationKey, operation: Operation, actor: string, hash: Hash, p: Uuid, s: Saga)
    ensures var r := Commit(db, key, operation, actor, hash, p, s);
            && OnlySaga(db, r.db, p) && r.db.sagas[p] == s
            && Replied(db, r.db, r.reply, key, operation, actor, hash, p)
  {
  }

  // How an operation stamps the saga row it changes: the request's fields stay, the revision goes up
  // by one, and each completion time is written once, when its status is first reached.
  predicate Stamped(r: SagaRow, t: SagaRow, now: Time) {
    && t.requestedBy == r.requestedBy && t.name == r.name && t.slug == r.slug && t.ownerSubject == r.ownerSubject
    && t.createdAt == r.createdAt && t.revision == r.revision + 1 && t.updatedAt == now
    && t.organizationResidue == t.organizationId.Some?
    && t.completedAt == (if r.completedAt.None? && t.status == SagaCompleted then Some(now) else r.completedAt)
    && t.cleanupCompletedAt ==
       (if r.cleanupCompletedAt.None? && t.status == CleanupCompleted then Some(now) else r.cleanupCompletedAt)
  }

  // Row k, the saga row and one new activity row are all that changed.
  predicate RowChanged(s: Saga, t: Saga, k: nat, event: Event, actor: string, now: Time) {
    && k < |s.effects| == |t.effects|
    && (forall i | 0 <= i < |s.effects| && i != k :: t.effects[i] == s.effects[i])
    && SameIdentity(s.effects[k], t.effects[k]) && t.effects[k].updatedAt == now
    && t.log == s.log + [Activity(Some(s.effects[k].effectId), event, actor, s.row.revision + 1)]
    && Stamped(s.row, t.row, now) && t.row.cleanupRequested == s.row.cleanupRequested
  }

  predicate LeaseOver(e: Effect) {
    e.leaseToken.None? && e.leaseUntil.None?
  }

  // The row is done: it holds this external id, and no error.
  predicate Finishes(e: Effect, f: Effect, state: State, externalId: Option<string>, now: Time) {
    && f.state == state && f.externalId == externalId && f.lastError.None? && f.completedAt == Some(now)
    && f.attempts == e.attempts && LeaseOver(f)
  }

  // The row stopped in a state that is not done, with this error or none.
  predicate Stops(e: Effect, f: Effect, state: State, error: Option<string>) {
    && f.state == state && f.lastError == error && f.externalId == e.externalId && f.completedAt == e.completedAt
    && f.attempts == e.attempts && LeaseOver(f)
  }

  lemma SettleWrites(s: Saga, k: nat, e: Effect, row: SagaRow, event: Event, actor: string, now: Time)
    requires k < |s.effects| && SameIdentity(s.effects[k], e) && e.updatedAt == now
    requires row == s.row || (row.organizationId.Some? && row.ownerMembershipId.Some?
                              && row == WithOrganization(s.row, row.organizationId.value, row.ownerMembershipId.value))
    ensures var t := Settle(s, k, e, row, event, actor, now);
            && RowChanged(s, t, k, event, actor, now) && t.effects[k] == e
            && t.row.organizationId == row.organizationId && t.row.ownerMembershipId == row.ownerMembershipId
  {
  }

  /* ---------- start ---------- */

  predicate NewlyStored(e: Effect, id: Uuid, now: Time) {
    && e.effectId == id && e.state == Pending && e.attempts == 0 && LeaseOver(e)
    && e.lastError.None? && e.createdAt == now && e.updatedAt == now && e.completedAt.None?
  }

  predicate CreateStored(e: Effect, p: Uuid) {
    && e.kind == CreateOrganization && e.ordinal == 0
    && e.downstreamKey == "organization-provisioning:" + UuidText(p) + ":create:v1"
    && e.subjectKind.None? && e.feature.None? && e.limit.None? && e.sourceEffectId.None? && e.externalId.None?
  }

  // The put of the i-th grant.
  predicate PutStored(e: Effect, p: Uuid, i: nat, g: Grant) {
    && e.kind == PutEntitlement && e.ordinal == i
    && e.downstreamKey == "organization-provisioning:" + UuidText(p) + (":entitlement:" + Decimal(i) + ":v1")
    && e.subjectKind == Some(g.subjectKind) && e.feature == Some(g.feature) && e.limit == g.limit
    && e.sourceEffectId.None? && e.externalId.None?
  }

  predicate RequestStored(r: SagaRow, input: StartInput) {
    r.requestedBy == input.actor && r.name == input.name && r.slug == input.slug
    && r.ownerSubject == input.ownerSubject
  }

  predicate StartWritten(s: Saga, input: StartInput, ids: seq<Uuid>, now: Time)
    requires |ids| == 1 + |input.grants|
  {
    && RequestStored(s.row, input) && s.row.status == SagaPending && s.row.revision == 1
    && s.row.organizationId.None? && s.row.ownerMembershipId.None? && s.row.lastError.None?
    && !s.row.cleanupRequested && !s.row.organizationResidue
    && s.row.createdAt == now && s.row.updatedAt == now
    && s.row.completedAt.None? && s.row.cleanupCompletedAt.None?
    && |s.effects| == 1 + |input.grants|
    && (forall i | 0 <= i < |s.effects| :: NewlyStored(s.effects[i], ids[i], now))
    && CreateStored(s.effects[0], input.provisioningId)
    && (forall i | 0 <= i < |input.grants| :: PutStored(s.effects[1 + i], input.provisioningId, i, input.grants[i]))
    && s.log == [Activity(None, ProvisioningStarted(|input.grants|), input.actor, 1)]
  }

  lemma NewSagaIsWritten(input: StartInput, ids: seq<Uuid>, now: Time)
    requires |ids| == 1 + |input.grants|
    ensures StartWritten(StartedSaga(input, ids, now), input, ids, now)
  {
    var s := StartedSaga(input, ids, now);
    forall i | 0 <= i < |s.effects|
      ensures NewlyStored(s.effects[i], ids[i], now)
      ensures i > 0 ==> PutStored(s.effects[i], input.provisioningId, i - 1, input.grants[i - 1])
    {
      if i > 0 {
        assert s.effects[i] == PutRow(input.provisioningId, i - 1, input.grants[i - 1], ids[i], now);
      }
    }
    assert s.effects[0] == CreateRow(input.provisioningId, ids[0], now);
    forall i | 0 <= i < |input.grants|
      ensures PutStored(s.effects[1 + i], input.provisioningId, i, input.grants[i])
    {
    }
  }

  predicate Unused(db: Db, caller: string, idempotencyKey: string) {
    MutationKey(caller, idempotencyKey) !in db.mutations
  }

  // A start's tables and reply: only the new saga is added, as written, and the key replays the reply.
  predicate StartDone(db: Db, r: Transaction, input: StartInput, ids: seq<Uuid>, now: Time)
    requires |ids| == 1 + |input.grants|
  {
    && OnlySaga(db, r.db, input.provisioningId)
    && StartWritten(r.db.sagas[input.provisioningId], input, ids, now)
    && Replied(db, r.db, r.reply, MutationKey(input.caller, input.idempotencyKey), StartOperation, input.actor,
               input.requestHash, input.provisioningId)
  }

  // A start under an unused key stores exactly what was asked for: the request's texts, one create
  // row, and one put row per grant with that grant's subject, feature and limit.
  lemma StartWrites(db: Db, input: StartInput, ids: seq<Uuid>, now: Time)
    requires |ids| == 1 + |input.grants| && input.provisioningId !in db.sagas
    requires Unused(db, input.caller, input.idempotencyKey)
    ensures StartDone(db, StartTransaction(db, input, ids, now), input, ids, now)
  {
    CommitReplied(db, MutationKey(input.caller, input.idempotencyKey), StartOperation, input.actor, input.requestHash,
                  input.provisioningId, StartedSaga(input, ids, now));
    NewSagaIsWritten(input, ids, now);
  }

  // What a start asked for stays stored over every run: the request's texts, the create row's key,
  // and each put row's key, subject, feature and limit.
  predicate StillStored(s: Saga, input: StartInput) {
    && RequestStored(s.row, input) && |s.effects| > |input.grants| && Begun(s) && Split(s) == 1 + |input.grants|
    && RowStored(s.effects[0], input, 0)
    && forall i {:trigger RowStored(s.effects[i], input, i)} | 0 < i <= |input.grants| ::
         RowStored(s.effects[i], input, i)
  }

  predicate RowStored(e: Effect, input: StartInput, i: nat)
    requires i <= |input.grants|
  {
    var text := "organization-provisioning:" + UuidText(input.provisioningId);
    if i == 0 then e.kind == CreateOrganization && e.downstreamKey == text + ":create:v1"
    else
      var g := input.grants[i - 1];
      && e.kind == PutEntitlement && e.ordinal == i - 1
      && e.downstreamKey == text + (":entitlement:" + Decimal(i - 1) + ":v1")
      && e.subjectKind == Some(g.subjectKind) && e.feature == Some(g.feature) && e.limit == g.limit
  }

  lemma WrittenIsStored(s: Saga, input: StartInput, ids: seq<Uuid>, now: Time)
    requires |ids| == 1 + |input.grants| && StartWritten(s, input, ids, now)
    ensures StillStored(s, input)
  {
    forall i | 0 < i <= |input.grants| ensures RowStored(s.effects[i], input, i) {
      assert PutStored(s.effects[1 + (i - 1)], input.provisioningId, i - 1, input.grants[i - 1]);
    }
  }

  lemma StoredInLater(s: Saga, t: Saga, input: StartInput)
    requires StillStored(s, input) && Later(s, t)
    ensures StillStored(t, input)
  {
    GrownSplit(s, t);
    forall i | 0 <= i <= |input.grants| ensures RowStored(t.effects[i], input, i) {
      assert RowStored(s.effects[i], input, i) && SameIdentity(s.effects[i], t.effects[i]);
    }
  }

  lemma StartedForever(db: Db, input: StartInput, ids: seq<Uuid>, now: Time, steps: seq<Step>)
    requires SagasInv(db) && Enabled(db, StartStep(input, ids, now))
    requires Unused(db, input.caller, input.idempotencyKey)
    ensures var d, p := Run(Next(db, StartStep(input, ids, now)), steps), input.provisioningId;
            p in d.sagas && SagaInv(p, d.sagas[p]) && StillStored(d.sagas[p], input)
  {
    var started, p := Next(db, StartStep(input, ids, now)), input.provisioningId;
    StartWrites(db, input, ids, now);
    NextSagasInv(db, StartStep(input, ids, now));
    RunLater(started, steps, p);
    InvAt(Run(started, steps), p);
    WrittenIsStored(started.sagas[p], input, ids, now);
    StoredInLater(started.sagas[p], Run(started, steps).sagas[p], input);
  }

  /* ---------- retry ---------- */

  predicate Observed(input: RetryInput, organization: bool, membership: bool, grant: bool) {
    && input.observedOrganizationId.Some? == organization && input.observedOwnerMembershipId.Some? == membership
    && input.observedGrantId.Some? == grant
  }

  // What a resolution makes of the row it acts on, and of the saga's ids.
  predicate Resolved(e: Effect, f: Effect, r: SagaRow, t: SagaRow, input: RetryInput, now: Time) {
    if input.resolution != ConfirmApplied then Stops(e, f, Pending, None) && SameOrganization(r, t)
    else match e.kind {
      case CreateOrganization =>
        && Observed(input, true, true, false) && Finishes(e, f, Applied, input.observedOrganizationId, now)
        && t.organizationId == input.observedOrganizationId
        && t.ownerMembershipId == input.observedOwnerMembershipId
      case PutEntitlement =>
        && Observed(input, false, false, true) && Finishes(e, f, Applied, input.observedGrantId, now)
        && SameOrganization(r, t)
      case RevokeEntitlement =>
        && Observed(input, false, false, false) && Finishes(e, f, Compensated, e.externalId, now)
        && SameOrganization(r, t)
    }
  }

  // What an accepted retry wrote to its row k and to the saga row.
  predicate RetryWritten(s: Saga, t: Saga, k: nat, input: RetryInput, now: Time) {
    && k < |s.effects|
    && RowChanged(s, t, k, ProvisioningRetried(input.resolution, input.evidence, s.effects[k].kind), input.actor, now)
    && t.row.lastError.None? && Resolved(s.effects[k], t.effects[k], s.row, t.row, input, now)
  }

  // Row k is the one row a retry can be about: the only unknown row of a saga in manual review, and
  // the only failed row of a failed one.
  predicate OnlyIn(es: seq<Effect>, k: nat, state: State) {
    k < |es| && forall i | 0 <= i < |es| :: es[i].state == state <==> i == k
  }

  function BlockedState(status: Status): State {
    if status == ManualReview then Unknown else Failed
  }

  lemma ChangeResolves(s: Saga, k: nat, input: RetryInput, now: Time)
    requires k < |s.effects| && Resolve(s, k, input, now).Ok?
    ensures var change := Resolve(s, k, input, now).value;
            && Resolved(s.effects[k], change.effect, s.row, change.row, input, now)
            && SameIdentity(s.effects[k], change.effect) && change.effect.updatedAt == now
            && (change.row == s.row
                || (change.row.organizationId.Some? && change.row.ownerMembershipId.Some?
                    && change.row == WithOrganization(s.row, change.row.organizationId.value,
                                                      change.row.ownerMembershipId.value)))
  {
  }

  lemma ResolutionWrites(s: Saga, k: nat, input: RetryInput, now: Time)
    requires k < |s.effects| && Resolve(s, k, input, now).Ok?
    ensures var change := Resolve(s, k, input, now).value;
            var event := ProvisioningRetried(input.resolution, input.evidence, s.effects[k].kind);
            var t := Settle(s, k, change.effect, change.row, event, input.actor, now);
            t.row.lastError.None? ==> RetryWritten(s, t, k, input, now)
  {
    var change := Resolve(s, k, input, now).value;
    ChangeResolves(s, k, input, now);
    ChangeIsWritten(s, k, change, input, now);
  }

  lemma ChangeIsWritten(s: Saga, k: nat, change: Change, input: RetryInput, now: Time)
    requires k < |s.effects| && Resolved(s.effects[k], change.effect, s.row, change.row, input, now)
    requires SameIdentity(s.effects[k], change.effect) && change.effect.updatedAt == now
    requires change.row == s.row
             || (change.row.organizationId.Some? && change.row.ownerMembershipId.Some?
                 && change.row == WithOrganization(s.row, change.row.organizationId.value,
                                                   change.row.ownerMembershipId.value))
    ensures var event := ProvisioningRetried(input.resolution, input.evidence, s.effects[k].kind);
            var t := Settle(s, k, change.effect, change.row, event, input.actor, now);
            t.row.lastError.None? ==> RetryWritten(s, t, k, input, now)
  {
    SettleWrites(s, k, change.effect, change.row,
                 ProvisioningRetried(input.resolution, input.evidence, s.effects[k].kind), input.actor, now);
  }

  lemma UnblockedShowsNoError(p: Uuid, t: Saga)
    requires SagaInv(p, t) && t.row.status !in {ManualReview, SagaFailed, CleanupFailed}
    ensures t.row.lastError.None?
  {
    var k := CursorOf(p, t);
    StatusAtCursor(p, t, k);
    ErrorAtCursor(p, t, k, t.row.lastError);
  }

  // Why a retry is refused, in the code's order; `kind` is that of the blocked row.
  function RetryFailure(r: SagaRow, kind: Kind, input: RetryInput): Option<DomainFailure> {
    if input.expectedRevision != r.revision then Some(RevisionConflict)
    else if r.status !in {ManualReview, SagaFailed, CleanupFailed} then Some(InvalidTransition)
    else match input.resolution
      case RetryFailed =>
        if r.status != ManualReview && Observed(input, false, false, false) then None
        else Some(ManualResolutionRequired)
      case ConfirmNotApplied =>
        if r.status == ManualReview && Observed(input, false, false, false) then None else Some(InvalidTransition)
      case ConfirmApplied =>
        if r.status != ManualReview then Some(InvalidTransition)
        else if Observed(input, kind == CreateOrganization, kind == CreateOrganization, kind == PutEntitlement)
        then None
        else Some(ManualResolutionRequired)
  }

  // The status of a phase with nothing in flight and nothing blocked.
  function OpenStatus(cleanup: bool, finished: bool): Status {
    if finished then (if cleanup then CleanupCompleted else SagaCompleted)
    else (if cleanup then CleanupPending else SagaPending)
  }

  lemma BlockedRowIsOne(p: Uuid, s: Saga) returns (k: nat)
    requires SagaInv(p, s)
    ensures k < |s.effects|
    ensures s.row.status in {ManualReview, SagaFailed, CleanupFailed} ==>
              Shaped(s, k) && OnlyIn(s.effects, k, BlockedState(s.row.status))
  {
    k := CursorOf(p, s);
    StatusAtCursor(p, s, k);
    if s.row.status in {ManualReview, SagaFailed, CleanupFailed} {
      var resolution := if s.row.status == ManualReview then ConfirmNotApplied else RetryFailed;
      BlockedHasTarget(p, s, k, resolution);
      RetryTargetIsCursor(p, s, k, resolution);
    } else {
      k := 0;
    }
  }

  lemma RetryFails(p: Uuid, s: Saga, k: nat, input: RetryInput, now: Time)
    requires SagaInv(p, s) && k < |s.effects|
    requires s.row.status in {ManualReview, SagaFailed, CleanupFailed} ==>
               Shaped(s, k) && OnlyIn(s.effects, k, BlockedState(s.row.status))
    ensures match RetryFailure(s.row, s.effects[k].kind, input)
            case Some(failure) => RetrySaga(s, input, now) == Err(failure)
            case None => RetrySaga(s, input, now).Ok?
  {
    if CanBeRetried(s.row.status, input.resolution) {
      BlockedHasTarget(p, s, k, input.resolution);
      TargetDecides(s, k, input, now);
    } else {
      NoTargetDecides(s, k, input, now);
    }
  }

  lemma TargetDecides(s: Saga, k: nat, input: RetryInput, now: Time)
    requires k < |s.effects| && RetryTarget(s, input.resolution) == Ok(k)
    requires CanBeRetried(s.row.status, input.resolution)
    ensures match RetryFailure(s.row, s.effects[k].kind, input)
            case Some(failure) => RetrySaga(s, input, now) == Err(failure)
            case None => RetrySaga(s, input, now).Ok?
  {
  }

  lemma NoTargetDecides(s: Saga, k: nat, input: RetryInput, now: Time)
    requires k < |s.effects| && !CanBeRetried(s.row.status, input.resolution)
    ensures RetryFailure(s.row, s.effects[k].kind, input).Some?
    ensures RetrySaga(s, input, now) == Err(RetryFailure(s.row, s.effects[k].kind, input).value)
  {
  }

  lemma RetrySucceeds(p: Uuid, s: Saga, k: nat, input: RetryInput, now: Time)
    requires SagaInv(p, s) && Shaped(s, k) && RetrySaga(s, input, now).Ok?
    ensures RetryWritten(s, RetrySaga(s, input, now).value, k, input, now)
    ensures RetrySaga(s, input, now).value.row.status ==
            OpenStatus(s.row.cleanupRequested, input.resolution == ConfirmApplied && k + 1 == |s.effects|)
  {
    RetryUnblocks(p, s, k, input, now);
    RetryMoves(p, s, k, input, now);
    RetrySettles(p, s, k, input, now);
    UnblockedShowsNoError(p, RetrySaga(s, input, now).value);
    ResolutionWrites(s, k, input, now);
  }

  // The saga is there and is the actor's.
  predicate OwnedBy(db: Db, p: Uuid, actor: string) {
    p in db.sagas && db.sagas[p].row.requestedBy == actor
  }

  // What a retry does: nothing for anyone but the owner; for the owner it is refused with exactly this
  // failure and nothing changed, or carried out on row k, the saga's one blocked row.
  predicate RetryDone(db: Db, r: Transaction, input: RetryInput, now: Time, k: nat) {
    if !OwnedBy(db, input.provisioningId, input.actor) then r == Transaction(db, Rejected(ProvisioningNotFound))
    else
      var p, s := input.provisioningId, db.sagas[input.provisioningId];
      && k < |s.effects|
      && (s.row.status in {ManualReview, SagaFailed, CleanupFailed} ==>
            OnlyIn(s.effects, k, BlockedState(s.row.status)))
      && match RetryFailure(s.row, s.effects[k].kind, input)
         case Some(failure) => r == Transaction(db, Rejected(failure))
         case None =>
           && OnlySaga(db, r.db, p) && RetryWritten(s, r.db.sagas[p], k, input, now)
           && r.db.sagas[p].row.status ==
              OpenStatus(s.row.cleanupRequested, input.resolution == ConfirmApplied && k + 1 == |s.effects|)
           && Replied(db, r.db, r.reply, MutationKey(input.caller, input.idempotencyKey), RetryOperation, input.actor,
                      input.requestHash, p)
  }

  // What a retry under an unused key does, for every saga and every input.
  lemma RetryWrites(db: Db, input: RetryInput, now: Time) returns (k: nat)
    requires SagasInv(db) && Unused(db, input.caller, input.idempotencyKey)
    ensures RetryDone(db, RetryTransaction(db, input, now), input, now, k)
  {
    k := 0;
    if OwnedBy(db, input.provisioningId, input.actor) {
      var p, s := input.provisioningId, db.sagas[input.provisioningId];
      InvAt(db, p);
      k := BlockedRowIsOne(p, s);
      RetryFails(p, s, k, input, now);
      if RetryFailure(s.row, s.effects[k].kind, input).None? {
        RetrySucceeds(p, s, k, input, now);
        CommitReplied(db, MutationKey(input.caller, input.idempotencyKey), RetryOperation, input.actor,
                      input.requestHash, p, RetrySaga(s, input, now).value);
      }
    }
  }

  /* ---------- request_cleanup ---------- */

  predicate SkippedNow(e: Effect, f: Effect, now: Time) {
    && SameIdentity(e, f) && f.state == Skipped && f.lastError == Some("cleanup_requested") && f.updatedAt == now
    && f.externalId == e.externalId && f.attempts == e.attempts && f.completedAt == e.completedAt
    && f.leaseToken == e.leaseToken && f.leaseUntil == e.leaseUntil
  }

  predicate RevokeStored(f: Effect, p: Uuid, put: Effect) {
    && f.kind == RevokeEntitlement && f.ordinal == put.ordinal
    && f.downstreamKey == "organization-provisioning:" + UuidText(p) + (":cleanup:" + Decimal(put.ordinal) + ":v1")
    && f.subjectKind == put.subjectKind && f.feature == put.feature && f.limit == put.limit
    && f.sourceEffectId == Some(put.effectId) && f.externalId == put.externalId
  }

  // The first r puts were applied and got a revoke each; the others are skipped.
  predicate CleanupRowsWritten(p: Uuid, es: seq<Effect>, fs: seq<Effect>, r: nat, ids: seq<Uuid>, now: Time) {
    && r < |es| && r <= |ids| && |fs| == |es| + r && fs[0] == es[0]
    && (forall i | 0 < i < |es| ::
          if i <= r then es[i].state == Applied && fs[i] == es[i]
          else es[i].state in {Pending, Failed} && SkippedNow(es[i], fs[i], now))
    && (forall j | 0 <= j < r ::
          NewlyStored(fs[|es| + j], ids[j], now) && RevokeStored(fs[|es| + j], p, es[1 + j]))
  }

  predicate CleanupWritten(p: Uuid, s: Saga, t: Saga, r: nat, input: CleanupInput, ids: seq<Uuid>, now: Time) {
    && CleanupRowsWritten(p, s.effects, t.effects, r, ids, now)
    && Stamped(s.row, t.row, now) && SameOrganization(s.row, t.row)
    && t.row.cleanupRequested && t.row.lastError.None?
    && t.row.status == OpenStatus(true, r == 0)
    && t.log == s.log + [Activity(None, CleanupRequested(r, s.row.organizationId.Some?, input.evidence), input.actor,
                                  s.row.revision + 1)]
  }

  lemma RevokesWritten(p: Uuid, es: seq<Effect>, fs: seq<Effect>, r: nat, ids: seq<Uuid>, now: Time)
    requires CleanedUp(p, es, fs, r, ids, now)
    ensures forall j | 0 <= j < r ::
              NewlyStored(fs[|es| + j], ids[j], now) && RevokeStored(fs[|es| + j], p, es[1 + j])
  {
    forall j | 0 <= j < r
      ensures NewlyStored(fs[|es| + j], ids[j], now) && RevokeStored(fs[|es| + j], p, es[1 + j])
    {
      assert fs[|es| + j] == RevokeRow(p, es[1 + (|es| + j - |es|)], ids[|es| + j - |es|], now);
    }
  }

  lemma CleanedRowsWritten(p: Uuid, es: seq<Effect>, fs: seq<Effect>, r: nat, ids: seq<Uuid>, now: Time)
    requires CleanedUp(p, es, fs, r, ids, now)
    requires forall i | 0 <= i < |es| :: es[i].kind == if i == 0 then CreateOrganization else PutEntitlement
    requires forall i | 0 < i < |es| ::
               if i <= r then es[i].state == Applied else es[i].state in {Pending, Failed}
    ensures CleanupRowsWritten(p, es, fs, r, ids, now)
  {
    RevokesWritten(p, es, fs, r, ids, now);
    forall i | 0 <= i < |es| ensures fs[i] == SkipRow(es[i], now) {
    }
  }

  lemma CleanupPhaseStatus(p: Uuid, t: Saga)
    requires SagaInv(p, t) && t.row.cleanupRequested
    requires forall i | Split(t) <= i < |t.effects| :: t.effects[i].state == Pending
    ensures t.row.status == OpenStatus(true, |t.effects| == Split(t)) && t.row.lastError.None?
  {
    assert Shaped(t, Split(t));
    StatusAtCursor(p, t, Split(t));
    ErrorAtCursor(p, t, Split(t), t.row.lastError);
  }

  lemma RefreshStamps(r: SagaRow, es: seq<Effect>, now: Time)
    ensures Stamped(r, Refresh(r, es, now), now) && SameOrganization(r, Refresh(r, es, now))
    ensures Refresh(r, es, now).cleanupRequested == r.cleanupRequested
  {
  }

  lemma CleanupStamps(p: Uuid, s: Saga, input: CleanupInput, ids: seq<Uuid>, now: Time)
    requires |AppliedPuts(s.effects)| <= |ids|
    ensures var t := CleanupSaga(p, s, input, ids, now);
            && Stamped(s.row, t.row, now) && SameOrganization(s.row, t.row) && t.row.cleanupRequested
            && t.log == s.log + [Activity(None, CleanupRequested(|AppliedPuts(s.effects)|, s.row.organizationId.Some?,
                                                                 input.evidence),
                                          input.actor, s.row.revision + 1)]
  {
    RefreshStamps(s.row.(cleanupRequested := true, lastError := None), CleanupSaga(p, s, input, ids, now).effects, now);
  }

  lemma CleanupOpensPhase(p: Uuid, s: Saga, t: Saga, r: nat, ids: seq<Uuid>, now: Time)
    requires SagaInv(p, t) && t.row.cleanupRequested && Begun(s) && Split(s) == |s.effects|
    requires |t.log| > 0 && |s.log| > 0 && t.log[0] == s.log[0]
    requires CleanupRowsWritten(p, s.effects, t.effects, r, ids, now)
    ensures t.row.status == OpenStatus(true, r == 0) && t.row.lastError.None?
  {
    forall i | Split(t) <= i < |t.effects| ensures t.effects[i].state == Pending {
      assert NewlyStored(t.effects[|s.effects| + (i - |s.effects|)], ids[i - |s.effects|], now);
    }
    CleanupPhaseStatus(p, t);
  }

  lemma CleanupRowsAre(p: Uuid, s: Saga, k: nat, input: CleanupInput, ids: seq<Uuid>, now: Time)
    requires SagaInv(p, s) && Shaped(s, k) && CleanupRefusal(s, input.expectedRevision).None?
    requires |s.effects| <= |ids|
    ensures |s.effects| == Split(s) && |AppliedPuts(s.effects)| == Reversible(k)
    ensures CleanupRowsWritten(p, s.effects, CleanupSaga(p, s, input, ids, now).effects, Reversible(k), ids, now)
  {
    CleanupExact(p, s, k, input, ids, now);
    CleanupCursor(p, s, k);
    CleanupKinds(p, s);
    CleanedRowsWritten(p, s.effects, CleanupSaga(p, s, input, ids, now).effects, Reversible(k), ids, now);
  }

  lemma CleanupSagaWritten(p: Uuid, s: Saga, k: nat, input: CleanupInput, ids: seq<Uuid>, now: Time)
    requires SagaInv(p, s) && Shaped(s, k) && CleanupRefusal(s, input.expectedRevision).None?
    requires |s.effects| <= |ids| && Distinct(ids) && NoRowWithId(s.effects, ids)
    ensures CleanupWritten(p, s, CleanupSaga(p, s, input, ids, now), Reversible(k), input, ids, now)
  {
    CleanupRowsAre(p, s, k, input, ids, now);
    CleanupInv(p, s, k, input, ids, now);
    CleanupJoins(p, s, input, Reversible(k), ids, now);
  }

  lemma CleanupJoins(p: Uuid, s: Saga, input: CleanupInput, r: nat, ids: seq<Uuid>, now: Time)
    requires Begun(s) && |s.effects| == Split(s) && r == |AppliedPuts(s.effects)| <= |ids|
    requires var t := CleanupSaga(p, s, input, ids, now);
             SagaInv(p, t) && CleanupRowsWritten(p, s.effects, t.effects, r, ids, now)
    ensures CleanupWritten(p, s, CleanupSaga(p, s, input, ids, now), r, input, ids, now)
  {
    var t := CleanupSaga(p, s, input, ids, now);
    CleanupStamps(p, s, input, ids, now);
    CleanupOpensPhase(p, s, t, r, ids, now);
  }

  // Why a cleanup is refused, in the code's order.
  function CleanupFailure(r: SagaRow, input: CleanupInput): Option<DomainFailure> {
    if input.expectedRevision != r.revision then Some(RevisionConflict)
    else if !r.cleanupRequested && r.status in {SagaCompleted, SagaFailed} then None
    else if !r.cleanupRequested && r.status == ManualReview then Some(ManualResolutionRequired)
    else Some(InvalidTransition)
  }

  lemma CleanupFails(s: Saga, input: CleanupInput)
    ensures CleanupRefusal(s, input.expectedRevision) == CleanupFailure(s.row, input)
  {
  }

  // What a cleanup request does: nothing for anyone but the owner; for the owner it is refused with
  // exactly this failure and nothing changed, or there is one revoke per applied put, everything
  // unfinished is skipped, and the cleanup phase opens - already complete when nothing was applied.
  predicate CleanupDone(db: Db, r: Transaction, input: CleanupInput, ids: seq<Uuid>, now: Time, applied: nat) {
    if !OwnedBy(db, input.provisioningId, input.actor) then r == Transaction(db, Rejected(ProvisioningNotFound))
    else
      var p, s := input.provisioningId, db.sagas[input.provisioningId];
      match CleanupFailure(s.row, input)
      case Some(failure) => r == Transaction(db, Rejected(failure))
      case None =>
        && OnlySaga(db, r.db, p) && CleanupWritten(p, s, r.db.sagas[p], applied, input, ids, now)
        && Replied(db, r.db, r.reply, MutationKey(input.caller, input.idempotencyKey), CleanupOperation, input.actor,
                   input.requestHash, p)
  }

  // What a cleanup request under an unused key does, for every saga and every input.
  lemma CleanupWrites(db: Db, input: CleanupInput, ids: seq<Uuid>, now: Time) returns (applied: nat)
    requires SagasInv(db) && Unused(db, input.caller, input.idempotencyKey)
    requires EnoughIds(db, input.provisioningId, ids) && FreshIds(db, ids)
    ensures CleanupDone(db, CleanupTransaction(db, input, ids, now), input, ids, now, applied)
  {
    applied := 0;
    if OwnedBy(db, input.provisioningId, input.actor) {
      var p, s := input.provisioningId, db.sagas[input.provisioningId];
      InvAt(db, p);
      CleanupFails(s, input);
      var k := CursorOf(p, s);
      applied := Reversible(k);
      if CleanupFailure(s.row, input).None? {
        FreshHere(db, p, ids);
        CleanupExact(p, s, k, input, ids, now);
        CleanupSagaWritten(p, s, k, input, ids, now);
        CommitReplied(db, MutationKey(input.caller, input.idempotencyKey), CleanupOperation, input.actor,
                      input.requestHash, p, CleanupSaga(p, s, input, ids, now));
      }
    }
  }
}
