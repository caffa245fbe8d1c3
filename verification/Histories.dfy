/** What holds over whole histories of the tables. */
module Histories {
  import opened Options
  import opened Keys
  import opened Rows
  import opened Sagas
  import opened Journal
  import opened Invariant
  import opened Preservation
  import opened Database
  import opened Runs
  import opened Reach
  import opened Mutations

  /* ---------- The invariant in every reachable state ---------- */

  lemma TargetFromAll(db: Db, step: Step)
    requires SagasInv(db)
    ensures TargetInv(db, step)
  {
  }

  lemma NextDbInv(db: Db, step: Step)
    requires DbInv(db)
    ensures DbInv(Next(db, step))
  {
    if Enabled(db, step) {
      TargetFromAll(db, step);
      NextSagasInv(db, step);
      NextDisjoint(db, step);
      NextMutationsInv(db, step);
    }
  }

  lemma {:induction false} RunDbInv(db: Db, steps: seq<Step>)
    requires DbInv(db)
    ensures DbInv(Run(db, steps))
  {
    if |steps| > 0 {
      RunDbInv(db, steps[..|steps| - 1]);
      NextDbInv(Run(db, steps[..|steps| - 1]), steps[|steps| - 1]);
    }
  }

  // Every interleaving of every operation, from empty tables, keeps every saga's layout, row
  // constraints, prefix shape, status summary and journal, and the tables' uniqueness.
  lemma ReachableDbInv(db: Db)
    requires Reachable(db)
    ensures DbInv(db)
  {
    var steps :| db == Run(EMPTY, steps);
    RunDbInv(EMPTY, steps);
  }

  lemma ReachableSaga(db: Db, p: Uuid)
    requires Reachable(db) && p in db.sagas
    ensures SagaInv(p, db.sagas[p])
  {
    ReachableDbInv(db);
  }

  /* ---------- Requests never meet broken tables ---------- */

  lemma NeverIncomplete(db: Db, key: MutationKey, operation: Operation, actor: string, hash: Hash)
    requires Reachable(db)
    ensures !Lookup(db.mutations, key, operation, actor, hash).Incomplete?
  {
    ReachableDbInv(db);
    LookupCases(db, key, operation, actor, hash);
  }

  // In reachable tables a start for a fresh saga id, a retry and a cleanup request are always
  // carried out, replayed or refused: none of the storage errors the code guards against occurs.
  lemma StartNeverBreaks(db: Db, input: StartInput, ids: seq<Uuid>, now: Time)
    requires Reachable(db) && |ids| == 1 + |input.grants| && input.provisioningId !in db.sagas
    ensures !StartTransaction(db, input, ids, now).reply.Broken?
  {
    NeverIncomplete(db, MutationKey(input.caller, input.idempotencyKey), StartOperation, input.actor,
                    input.requestHash);
  }

  lemma RetryNeverBreaks(db: Db, input: RetryInput, now: Time)
    requires Reachable(db)
    ensures !RetryTransaction(db, input, now).reply.Broken?
  {
    NeverIncomplete(db, MutationKey(input.caller, input.idempotencyKey), RetryOperation, input.actor,
                    input.requestHash);
  }

  lemma CleanupNeverBreaks(db: Db, input: CleanupInput, ids: seq<Uuid>, now: Time)
    requires Reachable(db) && EnoughIds(db, input.provisioningId, ids)
    ensures !CleanupTransaction(db, input, ids, now).reply.Broken?
  {
    NeverIncomplete(db, MutationKey(input.caller, input.idempotencyKey), CleanupOperation, input.actor,
                    input.requestHash);
    var p := input.provisioningId;
    if p in db.sagas && CleanupRefusal(db.sagas[p], input.expectedRevision).None? {
      ReachableSaga(db, p);
      var k := CursorOf(p, db.sagas[p]);
      CleanupExact(p, db.sagas[p], k, input, ids, now);
    }
  }

  /* ---------- Status ---------- */

  // In every reachable state the stored status, error and residue agree with the effect rows: with
  // a row in flight the saga is running and shows no error, and otherwise a fresh scan would store
  // exactly what is stored. So the direct status writes of claim and quarantine agree with the
  // scan.
  lemma StatusAgrees(db: Db, p: Uuid)
    requires Reachable(db) && p in db.sagas
    ensures var r, es := db.sagas[p].row, db.sagas[p].effects;
            var c := r.cleanupRequested;
            && (if Has(es, c, InFlight) then r.status == RunningStatus(c) && r.lastError.None?
                else r.status == ScanStatus(es, c) && r.lastError == ScanError(es, c))
            && r.organizationResidue == r.organizationId.Some?
  {
    ReachableSaga(db, p);
    var s := db.sagas[p];
    var k := CursorOf(p, s);
    ActiveIsCursor(p, s, k, InFlight);
    StatusAtCursor(p, s, k);
    ErrorAtCursor(p, s, k, s.row.lastError);
    if k == |s.effects| || s.effects[k].state != InFlight { ScanAgrees(p, s, k); }
  }

  predicate IsActive(e: Effect, cleanup: bool) {
    Relevant(e, cleanup) && e.state in {InFlight, Unknown, Failed}
  }

  // At most one effect of a phase is in flight or blocked at any time, in every interleaving.
  lemma OneActiveEffect(db: Db, p: Uuid, i: nat, j: nat)
    requires Reachable(db) && p in db.sagas && i < |db.sagas[p].effects| && j < |db.sagas[p].effects|
    requires var es, c := db.sagas[p].effects, db.sagas[p].row.cleanupRequested;
             IsActive(es[i], c) && IsActive(es[j], c)
    ensures i == j
    ensures forall h | 0 <= h < i && Relevant(db.sagas[p].effects[h], db.sagas[p].row.cleanupRequested) ::
              db.sagas[p].effects[h].state == DoneState(db.sagas[p].row.cleanupRequested)
  {
    ReachableSaga(db, p);
    var s := db.sagas[p];
    var k := CursorOf(p, s);
    RelevantIffPhase(p, s, i);
    RelevantIffPhase(p, s, j);
    forall h | 0 <= h < |s.effects| ensures Relevant(s.effects[h], s.row.cleanupRequested) <==> PhaseStart(s) <= h {
      RelevantIffPhase(p, s, h);
    }
  }

  // A new saga is reachable, pending and due at once.
  lemma StartedIsDue(input: StartInput, ids: seq<Uuid>, now: Time)
    requires StartOk(input.name, input.slug, input.ownerSubject, input.grants, ids)
    ensures var db, p := Run(EMPTY, [StartStep(input, ids, now)]), input.provisioningId;
            && Reachable(db) && DueAt(db, p) && db.sagas[p].row.status == SagaPending
            && |db.sagas[p].effects| == 1 + |input.grants|
  {
    RunOne(EMPTY, StartStep(input, ids, now));
    StartTables(EMPTY, input, ids, now);
    NewIsDue(StartedSaga(input, ids, now));
  }

  lemma NewIsDue(s: Saga)
    requires s.row.status == SagaPending && |s.effects| > 0
    requires s.effects[0].state == Pending && s.effects[0].kind == CreateOrganization
    ensures Due(s)
  {
    PickFinds(s.effects, Claimable(false), 0);
  }

  /* ---------- Replaying the log ---------- */

  // What the log alone says the effect rows should be: the ids and kinds stand for the saga's
  // fixed plan, everything else is folded from the activity rows.
  predicate LogTells(s: Saga) {
    && (forall j | 0 <= j < |s.log| :: s.log[j].revision == j + 1)
    && |s.log| == s.row.revision
    && (s.row.cleanupRequested <==> ReplayCleanup(s.log))
    && (forall i | 0 <= i < |s.effects| ::
        Recorded(s.effects[i]) == Replay(s.log, s.effects[i].effectId, s.effects[i].kind))
  }

  // The status a replayed log implies.
  function StatusFromLog(log: seq<Activity>, plan: seq<(Uuid, Kind)>): Status {
    var cleanup := ReplayCleanup(log);
    var states := seq(|plan|, i requires 0 <= i < |plan| => (Replay(log, plan[i].0, plan[i].1).state, plan[i].1));
    if InPhase(states, cleanup, InFlight) then RunningStatus(cleanup)
    else if InPhase(states, cleanup, Unknown) then ManualReview
    else if InPhase(states, cleanup, Failed) then FailedStatus(cleanup)
    else if InPhase(states, cleanup, Pending) then PendingStatus(cleanup)
    else CompletedStatus(cleanup)
  }

  predicate InPhase(states: seq<(State, Kind)>, cleanup: bool, state: State) {
    exists i :: 0 <= i < |states| && states[i].1.RevokeEntitlement? == cleanup && states[i].0 == state
  }

  function Plan(s: Saga): seq<(Uuid, Kind)> {
    seq(|s.effects|, i requires 0 <= i < |s.effects| => (s.effects[i].effectId, s.effects[i].kind))
  }

  lemma StatusOfStates(p: Uuid, s: Saga, k: nat, states: seq<(State, Kind)>)
    requires Layout(p, s) && Shaped(s, k) && |states| == |s.effects|
    requires forall i | 0 <= i < |states| :: states[i] == (s.effects[i].state, s.effects[i].kind)
    ensures var c := s.row.cleanupRequested;
            DerivedStatus(s.effects, c) ==
            if InPhase(states, c, InFlight) then RunningStatus(c)
            else if InPhase(states, c, Unknown) then ManualReview
            else if InPhase(states, c, Failed) then FailedStatus(c)
            else if InPhase(states, c, Pending) then PendingStatus(c)
            else CompletedStatus(c)
  {
    StatusAtCursor(p, s, k);
    forall i | 0 <= i < |s.effects|
      ensures states[i].1.RevokeEntitlement? == s.row.cleanupRequested <==> PhaseStart(s) <= i
    {
      RelevantIffPhase(p, s, i);
    }
    if k < |s.effects| {
      assert states[k].0 == s.effects[k].state;
    }
  }

  // Replaying a reachable saga's activity rows rebuilds it: the revisions are exactly 1..revision,
  // and the fold gives every effect's state, attempts, error and lease, the cleanup flag and the
  // status.
  lemma LogRebuildsSaga(db: Db, p: Uuid)
    requires Reachable(db) && p in db.sagas
    ensures LogTells(db.sagas[p])
    ensures db.sagas[p].row.status == StatusFromLog(db.sagas[p].log, Plan(db.sagas[p]))
  {
    ReachableSaga(db, p);
    var s := db.sagas[p];
    forall i | 0 <= i < |s.effects|
      ensures Recorded(s.effects[i]) == Replay(s.log, s.effects[i].effectId, s.effects[i].kind)
    {
      assert Told(s.log, s.effects[i]);
    }
    var k := CursorOf(p, s);
    var plan := Plan(s);
    var states := seq(|plan|, i requires 0 <= i < |plan| => (Replay(s.log, plan[i].0, plan[i].1).state, plan[i].1));
    StatusOfStates(p, s, k, states);
  }

  /* ---------- No automatic replay ---------- */

  // In every reachable state, an effect's attempts are its claims, and they number its accepted
  // resets plus one if it was claimed since the last of them.
  lemma AttemptsInHistory(db: Db, p: Uuid, i: nat)
    requires Reachable(db) && p in db.sagas && i < |db.sagas[p].effects|
    ensures var log, e := db.sagas[p].log, db.sagas[p].effects[i];
            e.attempts == Claims(log, e.effectId)
            && e.attempts == Resets(log, e.effectId) + if ClaimedSinceReset(log, e.effectId) then 1 else 0
  {
    ReachableSaga(db, p);
    var s := db.sagas[p];
    assert Told(s.log, s.effects[i]);
    AttemptsAreResets(s.log, s.effects[i].effectId, s.effects[i].kind);
  }

  // Two claims of one effect always have an accepted reset of it between them.
  lemma ClaimsAreSeparated(db: Db, p: Uuid, i: nat, a: nat, b: nat) returns (t: nat)
    requires Reachable(db) && p in db.sagas && i < |db.sagas[p].effects|
    requires a < b < |db.sagas[p].log|
    requires ClaimOf(db.sagas[p].log[a], db.sagas[p].effects[i].effectId)
    requires ClaimOf(db.sagas[p].log[b], db.sagas[p].effects[i].effectId)
    ensures a < t < b && ResetOf(db.sagas[p].log[t], db.sagas[p].effects[i].effectId)
  {
    ReachableSaga(db, p);
    var s := db.sagas[p];
    assert Told(s.log, s.effects[i]);
    t := NoAutomaticReplay(s.log, s.effects[i].effectId, s.effects[i].kind, a, b);
  }

  // After an unknown outcome, another claim needs an operator's confirm_not_applied in between.
  lemma UnknownIsNotReplayed(db: Db, p: Uuid, i: nat, a: nat, b: nat) returns (t: nat)
    requires Reachable(db) && p in db.sagas && i < |db.sagas[p].effects|
    requires a < b < |db.sagas[p].log|
    requires db.sagas[p].log[a].effectId == Some(db.sagas[p].effects[i].effectId)
    requires db.sagas[p].log[a].event.EffectOutcomeUnknown?
    requires ClaimOf(db.sagas[p].log[b], db.sagas[p].effects[i].effectId)
    ensures a < t < b && db.sagas[p].log[t].effectId == Some(db.sagas[p].effects[i].effectId)
    ensures db.sagas[p].log[t].event.ProvisioningRetried? && db.sagas[p].log[t].event.resolution == ConfirmNotApplied
  {
    ReachableSaga(db, p);
    var s := db.sagas[p];
    assert Told(s.log, s.effects[i]);
    t := UnknownNeedsConfirmation(s.log, s.effects[i].effectId, s.effects[i].kind, a, b);
  }

  /* ---------- One saga from an earlier to a later state ---------- */

  predicate Grown(s: Saga, t: Saga) {
    |s.log| <= |t.log| && t.log[..|s.log|] == s.log
  }

  // Every row stays in its place and keeps its identity: id, kind, ordinal, key, grant and source.
  predicate RowsKept(s: Saga, t: Saga) {
    |s.effects| <= |t.effects| && forall i | 0 <= i < |s.effects| :: SameIdentity(s.effects[i], t.effects[i])
  }

  lemma CleanedKeepsRows(p: Uuid, s: Saga, t: Saga)
    requires Cleans(p, s, t)
    ensures RowsKept(s, t)
  {
    var r, ids, now :| CleanedUp(p, s.effects, t.effects, r, ids, now);
    forall i | 0 <= i < |s.effects|
      ensures SameIdentity(s.effects[i], t.effects[i])
    {
      assert t.effects[i] == SkipRow(s.effects[i], now);
    }
  }

  lemma RowsKeptTwice(s: Saga, t: Saga, u: Saga)
    requires RowsKept(s, t) && RowsKept(t, u)
    ensures RowsKept(s, u)
  {
    forall i | 0 <= i < |s.effects|
      ensures SameIdentity(s.effects[i], u.effects[i])
    {
      assert SameIdentity(s.effects[i], t.effects[i]) && SameIdentity(t.effects[i], u.effects[i]);
    }
  }

  // What a saga's later versions keep. Reflexive and transitive.
  predicate Later(s: Saga, t: Saga)
    requires Begun(s)
  {
    && Grown(s, t)
    && t.row.requestedBy == s.row.requestedBy && t.row.createdAt == s.row.createdAt
    && t.row.name == s.row.name && t.row.slug == s.row.slug && t.row.ownerSubject == s.row.ownerSubject
    && RowsKept(s, t)
    && KeepsOnce(s.row.organizationId, t.row.organizationId)
    && KeepsOnce(s.row.ownerMembershipId, t.row.ownerMembershipId)
    && KeepsOnce(s.row.completedAt, t.row.completedAt)
    && KeepsOnce(s.row.cleanupCompletedAt, t.row.cleanupCompletedAt)
    && (s.row.cleanupRequested ==> CleanupStays(s, t))
    && (s.row.status == CleanupCompleted ==> t == s)
    && t.row.revision - s.row.revision == |t.log| - |s.log|
  }

  // After cleanup: no row is added, create and put rows never change, organization ids stay.
  predicate CleanupStays(s: Saga, t: Saga)
    requires Begun(s)
  {
    && t.row.cleanupRequested
    && t.row.organizationId == s.row.organizationId && t.row.ownerMembershipId == s.row.ownerMembershipId
    && |t.effects| == |s.effects|
    && (forall i | 0 <= i < |s.effects| && i < Split(s) :: t.effects[i] == s.effects[i])
    && (forall i | Split(s) <= i < |s.effects| :: SameIdentity(s.effects[i], t.effects[i]))
  }

  lemma MovedIsLater(p: Uuid, s: Saga, t: Saga, k: nat)
    requires Layout(p, s) && Shaped(s, k) && MovedBy(s, t, k) && RowKeeps(s.row, t.row)
    requires s.row.status == DerivedStatus(s.effects, s.row.cleanupRequested)
    ensures Later(s, t) && |t.log| == |s.log| + 1
  {
    StatusAtCursor(p, s, k);
  }

  lemma CleanedIsLater(p: Uuid, s: Saga, t: Saga)
    requires Begun(s) && Cleans(p, s, t) && RowKeeps(s.row, t.row) && s.row.status != CleanupCompleted
    ensures Later(s, t) && |t.log| == |s.log| + 1
  {
    CleanedKeepsRows(p, s, t);
  }

  lemma SteppedIsLater(p: Uuid, s: Saga, t: Saga)
    requires SagaInv(p, s) && Stepped(p, s, t)
    ensures Later(s, t) && |t.log| == |s.log| + 1
  {
    if Moves(s, t) {
      var k :| Shaped(s, k) && MovedBy(s, t, k);
      MovedIsLater(p, s, t, k);
    } else {
      var k := CursorOf(p, s);
      StatusAtCursor(p, s, k);
      CleanedIsLater(p, s, t);
    }
  }

  lemma LaterTransitive(s: Saga, t: Saga, u: Saga)
    requires Begun(s) && Begun(t) && Split(s) == Split(t) && Later(s, t) && Later(t, u)
    ensures Later(s, u)
  {
    assert u.log[..|s.log|] == u.log[..|t.log|][..|s.log|];
    RowsKeptTwice(s, t, u);
  }

  lemma GrownSplit(s: Saga, t: Saga)
    requires Begun(s) && Grown(s, t)
    ensures Begun(t) && Split(t) == Split(s)
  {
    assert t.log[0] == t.log[..|s.log|][0];
  }

  // The saga took a step; if that was a claim, its fence is the step's.
  ghost predicate ByStep(step: Step, p: Uuid, s: Saga, t: Saga) {
    && Stepped(p, s, t) && |t.log| > 0
    && (LastRow(t).event.EffectClaimed? ==> LastRow(t).event.fence in NewFences(step))
  }

  // A step leaves an existing saga alone or takes it to its next version.
  lemma NextStepped(db: Db, step: Step, p: Uuid)
    requires TargetInv(db, step) && p in db.sagas
    ensures var d := Next(db, step);
            && p in d.sagas
            && (d.sagas[p] == db.sagas[p] || (p == Target(step) && ByStep(step, p, db.sagas[p], d.sagas[p])))
  {
    StepTouches(db, step);
  }

  lemma VersionLater(p: Uuid, s: Saga, t: Saga)
    requires SagaInv(p, s) && (t == s || Stepped(p, s, t))
    ensures Begun(s) && Later(s, t)
  {
    if t != s { SteppedIsLater(p, s, t); }
  }

  lemma InvAt(db: Db, p: Uuid)
    requires SagasInv(db) && p in db.sagas
    ensures SagaInv(p, db.sagas[p])
  {
  }

  // The saga is there and a later version of s, in tables that satisfy the saga invariant.
  ghost predicate LaterIn(s: Saga, p: Uuid, db: Db) {
    SagasInv(db) && Begun(s) && p in db.sagas && Later(s, db.sagas[p])
  }

  lemma LaterTwice(p: Uuid, s: Saga, t: Saga, u: Saga)
    requires Begun(s) && Later(s, t) && SagaInv(p, t) && (u == t || Stepped(p, t, u))
    ensures Later(s, u)
  {
    VersionLater(p, t, u);
    GrownSplit(s, t);
    LaterTransitive(s, t, u);
  }

  lemma LaterByStep(s: Saga, p: Uuid, db: Db, step: Step)
    requires LaterIn(s, p, db)
    ensures LaterIn(s, p, Next(db, step))
  {
    InvAt(db, p);
    TargetFromAll(db, step);
    NextStepped(db, step, p);
    LaterTwice(p, s, db.sagas[p], Next(db, step).sagas[p]);
    NextSagasInv(db, step);
  }

  // Induction over runs.
  lemma {:induction false} RunInduction(db: Db, steps: seq<Step>, inv: Db -> bool)
    requires inv(db)
    requires forall d, step :: inv(d) ==> inv(Next(d, step))
    ensures inv(Run(db, steps))
  {
    if |steps| > 0 {
      RunInduction(db, steps[..|steps| - 1], inv);
    }
  }

  // Induction over the runs of steps of one sort.
  lemma {:induction false} RunInductionOver(db: Db, steps: seq<Step>, allowed: Step -> bool, inv: Db -> bool)
    requires inv(db) && forall i | 0 <= i < |steps| :: allowed(steps[i])
    requires forall d, step :: inv(d) && allowed(step) ==> inv(Next(d, step))
    ensures inv(Run(db, steps))
  {
    if |steps| > 0 {
      RunInductionOver(db, steps[..|steps| - 1], allowed, inv);
    }
  }

  lemma BegunAt(db: Db, p: Uuid)
    requires SagasInv(db) && p in db.sagas
    ensures Begun(db.sagas[p]) && Later(db.sagas[p], db.sagas[p])
  {
    InvAt(db, p);
    VersionLater(p, db.sagas[p], db.sagas[p]);
  }

  lemma SplitRun(db: Db, steps: seq<Step>, i: nat, j: nat)
    requires i < j <= |steps|
    ensures Run(db, steps[..j]) == Run(Next(Run(db, steps[..i]), steps[i]), steps[i + 1..j])
  {
    assert steps[..i + 1][..i] == steps[..i];
    RunAppend(db, steps[..i + 1], steps[i + 1..j]);
    assert steps[..i + 1] + steps[i + 1..j] == steps[..j];
  }

  lemma RunStaysInv(db: Db, steps: seq<Step>)
    requires SagasInv(db)
    ensures SagasInv(Run(db, steps))
  {
    forall d, step | SagasInv(d) ensures SagasInv(Next(d, step)) {
      NextSagasInv(d, step);
    }
    RunInduction(db, steps, d => SagasInv(d));
  }

  // Write-once facts over any run: the ids, completion times and the log's past never change once
  // written, cleanup is final, and nothing changes a saga whose cleanup completed.
  lemma RunLater(db: Db, steps: seq<Step>, p: Uuid)
    requires SagasInv(db) && p in db.sagas
    ensures LaterIn(db.sagas[p], p, Run(db, steps))
  {
    var s := db.sagas[p];
    BegunAt(db, p);
    forall d, step | LaterIn(s, p, d) ensures LaterIn(s, p, Next(d, step)) {
      LaterByStep(s, p, d, step);
    }
    RunInduction(db, steps, d => LaterIn(s, p, d));
  }
}
