/** Idempotency: the mutation table over whole histories. */
module Mutations {
  import opened Options
  import opened Keys
  import opened Rows
  import opened Sagas
  import opened Database
  import opened Runs

  // The mutation row a commit adds: complete, owned by its actor's saga, and a start row exactly
  // when the saga is new.
  predicate NewRowOk(db: Db, d: Db, key: MutationKey, p: Uuid) {
    && key !in db.mutations && key in d.mutations
    && d.mutations == db.mutations[key := d.mutations[key]]
    && d.mutations[key].provisioningId == Some(p)
    && MutationOk(d, d.mutations[key])
    && (d.mutations[key].operation == StartOperation <==> p !in db.sagas)
    && d.sagas.Keys == db.sagas.Keys + {p}
  }

  predicate SameRequesters(db: Db, d: Db) {
    forall p | p in db.sagas :: p in d.sagas && d.sagas[p].row.requestedBy == db.sagas[p].row.requestedBy
  }

  predicate SameMutations(db: Db, d: Db) {
    d.mutations == db.mutations && d.sagas.Keys == db.sagas.Keys
  }

  // What a step does to the mutation table.
  ghost predicate Logged(db: Db, d: Db) {
    && SameRequesters(db, d)
    && (SameMutations(db, d) || exists key, p :: NewRowOk(db, d, key, p))
  }

  lemma CommitLogged(db: Db, key: MutationKey, operation: Operation, actor: string, hash: Hash, p: Uuid, t: Saga)
    requires key !in db.mutations && t.row.requestedBy == actor
    requires operation == StartOperation <==> p !in db.sagas
    requires p in db.sagas ==> db.sagas[p].row.requestedBy == actor
    ensures Logged(db, Commit(db, key, operation, actor, hash, p, t).db)
  {
    assert NewRowOk(db, Commit(db, key, operation, actor, hash, p, t).db, key, p);
  }

  lemma RetryRequester(s: Saga, input: RetryInput, now: Time)
    requires RetrySaga(s, input, now).Ok?
    ensures RetrySaga(s, input, now).value.row.requestedBy == s.row.requestedBy
  {
  }

  lemma StartLogged(db: Db, input: StartInput, ids: seq<Uuid>, now: Time)
    requires |ids| == 1 + |input.grants|
    ensures Logged(db, StartTransaction(db, input, ids, now).db)
  {
    var key, p := MutationKey(input.caller, input.idempotencyKey), input.provisioningId;
    if key !in db.mutations && p !in db.sagas {
      CommitLogged(db, key, StartOperation, input.actor, input.requestHash, p,
                   NewSaga(p, input.actor, input.name, input.slug, input.ownerSubject, input.grants, ids, now));
    }
  }

  lemma RetryLogged(db: Db, input: RetryInput, now: Time)
    ensures Logged(db, RetryTransaction(db, input, now).db)
  {
    var key, p := MutationKey(input.caller, input.idempotencyKey), input.provisioningId;
    if Owned(db, p, input.actor) && key !in db.mutations && RetrySaga(db.sagas[p], input, now).Ok? {
      RetryRequester(db.sagas[p], input, now);
      CommitLogged(db, key, RetryOperation, input.actor, input.requestHash, p,
                   RetrySaga(db.sagas[p], input, now).value);
    }
  }

  lemma CleanupLogged(db: Db, input: CleanupInput, ids: seq<Uuid>, now: Time)
    requires EnoughIds(db, input.provisioningId, ids)
    ensures Logged(db, CleanupTransaction(db, input, ids, now).db)
  {
    var key, p := MutationKey(input.caller, input.idempotencyKey), input.provisioningId;
    if Owned(db, p, input.actor) && key !in db.mutations && CleanupRefusal(db.sagas[p], input.expectedRevision).None?
       && AllHaveGrantId(AppliedPuts(db.sagas[p].effects)) {
      CommitLogged(db, key, CleanupOperation, input.actor, input.requestHash, p,
                   CleanupSaga(p, db.sagas[p], input, ids, now));
    }
  }

  lemma WorkerLogged(db: Db, d: Db, p: Uuid)
    requires d == db || (p in db.sagas && d.mutations == db.mutations && p in d.sagas
                         && d.sagas == db.sagas[p := d.sagas[p]]
                         && d.sagas[p].row.requestedBy == db.sagas[p].row.requestedBy)
    ensures Logged(db, d)
  {
    assert SameMutations(db, d);
  }

  lemma FinalizeLogged(db: Db, record: EffectRecord, outcome: EffectOutcome, actor: string, now: Time)
    ensures Logged(db, FinalizeTransaction(db, record, outcome, actor, now).db)
  {
    WorkerLogged(db, FinalizeTransaction(db, record, outcome, actor, now).db, record.provisioningId);
  }

  lemma NextLogged(db: Db, step: Step)
    ensures Logged(db, Next(db, step))
  {
    if !Enabled(db, step) {
      WorkerLogged(db, db, 0);
    } else if step.ClaimStep? {
      WorkerLogged(db, Next(db, step), step.claimed);
    } else if step.QuarantineStep? {
      WorkerLogged(db, Next(db, step), step.expired);
    } else if step.FinalizeStep? {
      FinalizeLogged(db, step.record, step.outcome, step.actor, step.now);
    } else {
      PublicLogged(db, step);
    }
  }

  lemma PublicLogged(db: Db, step: Step)
    requires step.StartStep? || step.RetryStep? || step.CleanupStep?
    requires Enabled(db, step)
    ensures Logged(db, Next(db, step))
  {
    if step.StartStep? {
      StartLogged(db, step.start, step.startIds, step.now);
    } else if step.RetryStep? {
      RetryLogged(db, step.retry, step.now);
    } else {
      CleanupLogged(db, step.cleanup, step.cleanupIds, step.now);
    }
  }

  lemma LoggedRowsComplete(db: Db, d: Db)
    requires RowsComplete(db) && Logged(db, d)
    ensures RowsComplete(d)
  {
    forall k | k in d.mutations ensures MutationOk(d, d.mutations[k]) {
      if k in db.mutations {
        LoggedIsKept(db, d);
        assert MutationOk(db, db.mutations[k]) && d.mutations[k] == db.mutations[k];
      }
    }
  }

  lemma LoggedEachStarted(db: Db, d: Db)
    requires EachStarted(db) && Logged(db, d)
    ensures EachStarted(d)
  {
    LoggedIsKept(db, d);
    forall q | q in d.sagas ensures HasStartRow(d, q) {
      if q in db.sagas {
        assert HasStartRow(db, q);
        var k :| k in db.mutations && StartRowOf(db.mutations[k], q);
        assert d.mutations[k] == db.mutations[k];
      } else {
        var key, p :| NewRowOk(db, d, key, p);
        assert StartRowOf(d.mutations[key], q);
      }
    }
  }

  lemma LoggedStartedOnce(db: Db, d: Db)
    requires RowsComplete(db) && StartedOnce(db) && Logged(db, d)
    ensures StartedOnce(d)
  {
    LoggedIsKept(db, d);
    if !SameMutations(db, d) {
      var key, p :| NewRowOk(db, d, key, p);
      forall k | k in db.mutations ensures d.mutations[k] == db.mutations[k] && MutationOk(db, db.mutations[k]) {
      }
    }
  }

  lemma NextMutationsInv(db: Db, step: Step)
    requires MutationsInv(db)
    ensures MutationsInv(Next(db, step))
  {
    NextLogged(db, step);
    LoggedRowsComplete(db, Next(db, step));
    LoggedEachStarted(db, Next(db, step));
    LoggedStartedOnce(db, Next(db, step));
  }

  /* ---------- Committed rows and sagas stay ---------- */

  predicate Kept(db: Db, d: Db) {
    && SameRequesters(db, d)
    && forall key | key in db.mutations :: key in d.mutations && d.mutations[key] == db.mutations[key]
  }

  lemma LoggedIsKept(db: Db, d: Db)
    requires Logged(db, d)
    ensures Kept(db, d)
  {
    if !SameMutations(db, d) {
      var key, p :| NewRowOk(db, d, key, p);
    }
  }

  lemma {:induction false} RunKept(db: Db, steps: seq<Step>)
    ensures Kept(db, Run(db, steps))
  {
    if |steps| > 0 {
      var n := |steps| - 1;
      RunKept(db, steps[..n]);
      NextLogged(Run(db, steps[..n]), steps[n]);
      LoggedIsKept(Run(db, steps[..n]), Run(db, steps));
    }
  }

  /* ---------- Exact idempotent replay ---------- */

  lemma LookupAfter(db: Db, d: Db, key: MutationKey, operation: Operation, actor: string, hash: Hash,
                    view: ProvisioningView)
    requires Kept(db, d)
    requires Lookup(db.mutations, key, operation, actor, hash) == ReplayResponse(view)
    ensures Lookup(d.mutations, key, operation, actor, hash) == ReplayResponse(view)
  {
    assert d.mutations[key] == db.mutations[key];
  }

  // A retry that answered a view answers the same view, and changes nothing, whenever it is
  // repeated, after any steps whatever.
  lemma RetryReplays(db: Db, input: RetryInput, now: Time, steps: seq<Step>, later: Time)
    requires RetryTransaction(db, input, now).reply.Committed?
    ensures var d := Run(RetryTransaction(db, input, now).db, steps);
            RetryTransaction(d, input, later) == Transaction(d, RetryTransaction(db, input, now).reply)
  {
    var first := RetryTransaction(db, input, now);
    var key := MutationKey(input.caller, input.idempotencyKey);
    RetryLogged(db, input, now);
    LoggedIsKept(db, first.db);
    assert Lookup(first.db.mutations, key, RetryOperation, input.actor, input.requestHash)
        == ReplayResponse(first.reply.view);
    RunKept(first.db, steps);
    LookupAfter(first.db, Run(first.db, steps), key, RetryOperation, input.actor, input.requestHash, first.reply.view);
  }

  lemma CleanupReplays(db: Db, input: CleanupInput, ids: seq<Uuid>, now: Time, steps: seq<Step>, laterIds: seq<Uuid>,
                       later: Time)
    requires EnoughIds(db, input.provisioningId, ids)
    requires CleanupTransaction(db, input, ids, now).reply.Committed?
    requires EnoughIds(Run(CleanupTransaction(db, input, ids, now).db, steps), input.provisioningId, laterIds)
    ensures var d := Run(CleanupTransaction(db, input, ids, now).db, steps);
            CleanupTransaction(d, input, laterIds, later) ==
                Transaction(d, CleanupTransaction(db, input, ids, now).reply)
  {
    var first := CleanupTransaction(db, input, ids, now);
    var key := MutationKey(input.caller, input.idempotencyKey);
    CleanupLogged(db, input, ids, now);
    LoggedIsKept(db, first.db);
    assert Lookup(first.db.mutations, key, CleanupOperation, input.actor, input.requestHash)
        == ReplayResponse(first.reply.view);
    RunKept(first.db, steps);
    LookupAfter(first.db, Run(first.db, steps), key, CleanupOperation, input.actor, input.requestHash,
                first.reply.view);
  }

  // For start the identity is caller, key, actor and hash alone: the fresh saga id of the repeated
  // call, and even the grants configured by then, do not matter.
  lemma StartReplays(db: Db, input: StartInput, ids: seq<Uuid>, now: Time, steps: seq<Step>,
                     again: StartInput, againIds: seq<Uuid>, later: Time)
    requires |ids| == 1 + |input.grants| && |againIds| == 1 + |again.grants|
    requires StartTransaction(db, input, ids, now).reply.Committed?
    requires again.caller == input.caller && again.idempotencyKey == input.idempotencyKey
    requires again.actor == input.actor && again.requestHash == input.requestHash
    ensures var d := Run(StartTransaction(db, input, ids, now).db, steps);
            StartTransaction(d, again, againIds, later) == Transaction(d, StartTransaction(db, input, ids, now).reply)
  {
    var first := StartTransaction(db, input, ids, now);
    var key := MutationKey(input.caller, input.idempotencyKey);
    assert Lookup(first.db.mutations, key, StartOperation, input.actor, input.requestHash)
        == ReplayResponse(first.reply.view);
    RunKept(first.db, steps);
    LookupAfter(first.db, Run(first.db, steps), key, StartOperation, input.actor, input.requestHash, first.reply.view);
  }

  // With the invariant, a key is free, replays, or conflicts - and it conflicts exactly when it was
  // committed by a call with another operation, actor or hash.
  lemma LookupCases(db: Db, key: MutationKey, operation: Operation, actor: string, hash: Hash)
    requires RowsComplete(db)
    ensures var r := Lookup(db.mutations, key, operation, actor, hash);
            && !r.Incomplete?
            && (r.Execute? <==> key !in db.mutations)
            && (r.Conflict? <==>
                  && key in db.mutations
                  && (db.mutations[key].operation, db.mutations[key].actor,
                      db.mutations[key].requestHash) != (operation, actor, hash))
  {
    assert key in db.mutations ==> MutationOk(db, db.mutations[key]);
  }

  // Operation, actor or hash differ from those the key was committed with.
  predicate Reused(db: Db, key: MutationKey, operation: Operation, actor: string, hash: Hash) {
    && key in db.mutations
    && var m := db.mutations[key];
       (m.operation, m.actor, m.requestHash) != (operation, actor, hash)
  }

  // Any other reuse of a committed key conflicts in any later state.
  lemma ReuseConflicts(db: Db, key: MutationKey, steps: seq<Step>, operation: Operation, actor: string, hash: Hash)
    requires Reused(db, key, operation, actor, hash)
    ensures Lookup(Run(db, steps).mutations, key, operation, actor, hash) == Conflict
  {
    RunKept(db, steps);
    assert Run(db, steps).mutations[key] == db.mutations[key];
  }

  // So a start that reuses a key is refused and changes nothing, after any steps.
  lemma StartReuseRefused(db: Db, steps: seq<Step>, input: StartInput, ids: seq<Uuid>, now: Time)
    requires |ids| == 1 + |input.grants|
    requires Reused(db, MutationKey(input.caller, input.idempotencyKey), StartOperation, input.actor, input.requestHash)
    ensures var d := Run(db, steps);
            StartTransaction(d, input, ids, now) == Transaction(d, Rejected(IdempotencyConflict))
  {
    ReuseConflicts(db, MutationKey(input.caller, input.idempotencyKey), steps, StartOperation, input.actor,
                   input.requestHash);
  }

  // A retry that reuses a key is refused and changes nothing; before the mutation check, a caller
  // that does not own the saga is told it does not exist.
  lemma RetryReuseRefused(db: Db, steps: seq<Step>, input: RetryInput, now: Time)
    requires Reused(db, MutationKey(input.caller, input.idempotencyKey), RetryOperation, input.actor, input.requestHash)
    ensures var d := Run(db, steps);
            RetryTransaction(d, input, now) ==
            Transaction(d, Rejected(if Owned(d, input.provisioningId, input.actor) then IdempotencyConflict
                else ProvisioningNotFound))
  {
    ReuseConflicts(db, MutationKey(input.caller, input.idempotencyKey), steps, RetryOperation, input.actor,
                   input.requestHash);
  }

  lemma CleanupReuseRefused(db: Db, steps: seq<Step>, input: CleanupInput, ids: seq<Uuid>, now: Time)
    requires EnoughIds(Run(db, steps), input.provisioningId, ids)
    requires Reused(db, MutationKey(input.caller, input.idempotencyKey), CleanupOperation, input.actor,
                    input.requestHash)
    ensures var d := Run(db, steps);
            CleanupTransaction(d, input, ids, now) ==
            Transaction(d, Rejected(if Owned(d, input.provisioningId, input.actor) then IdempotencyConflict
                else ProvisioningNotFound))
  {
    ReuseConflicts(db, MutationKey(input.caller, input.idempotencyKey), steps, CleanupOperation, input.actor,
                   input.requestHash);
  }
}
