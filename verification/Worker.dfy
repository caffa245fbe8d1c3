/** process_due: one bounded batch of quarantines, claims, provider calls and finalizations. */
module Worker {
  import opened Options
  import opened Keys
  import opened Rows
  import opened Sagas
  import opened Invariant
  import opened Preservation
  import opened Database
  import opened Runs
  import opened Reach
  import opened Histories
  import opened Progress
  import opened Executor
  import opened Storage
  import opened Leases

  /* ---------- What one iteration meets ---------- */

  // The token it draws, the clocks it reads, the answers it gets, and what everyone else commits
  // before its claim and during its provider call.
  datatype Turn = Turn(
    fence: Uuid, clock: Time, claimNow: Time, finalizeNow: Time, answers: Answers,
    before: seq<Step>, during: seq<Step>)

  datatype TurnResult = NothingDue | Finished(result: FinalizeResult) | TurnBroken(detail: string)

  datatype Response =
    | Processed(claimed: nat, completed: nat, failed: nat, manualReview: nat, quarantined: nat, hasMore: bool)
    | InvalidRequest
    | StorageFailure(detail: string)

  predicate Undisturbed(turn: Turn) {
    turn.before == [] && turn.during == []
  }

  // None of the steps draws this token.
  predicate Avoids(steps: seq<Step>, fence: Uuid) {
    forall i | 0 <= i < |steps| :: fence !in NewFences(steps[i])
  }

  // UUIDs never repeat: each turn's token is new to the tables, to the other turns and to everyone
  // else's claims.
  predicate FreshTokens(db: Db, turns: seq<Turn>) {
    FreshFrom(db, turns, 0) && DistinctTokens(turns)
  }

  predicate DistinctTokens(turns: seq<Turn>) {
    && (forall i, j | 0 <= i < j < |turns| :: turns[i].fence != turns[j].fence)
    && (forall i, j | 0 <= i < |turns| && 0 <= j < |turns| ::
          Avoids(turns[i].before, turns[j].fence) && Avoids(turns[i].during, turns[j].fence))
  }

  predicate FreshFrom(db: Db, turns: seq<Turn>, i: nat) {
    forall j | i <= j < |turns| :: FreshFence(db, turns[j].fence)
  }

  lemma NextKeepsFresh(db: Db, step: Step, fence: Uuid)
    requires SagasInv(db) && FreshFence(db, fence) && fence !in NewFences(step)
    ensures FreshFence(Next(db, step), fence)
  {
    TargetFromAll(db, step);
    StepTouches(db, step);
    StillFresh(db, Next(db, step), step, fence);
  }

  lemma StillFresh(db: Db, d: Db, step: Step, fence: Uuid)
    requires Touched(db, d, step) && FreshFence(db, fence) && fence !in NewFences(step)
    ensures FreshFence(d, fence)
  {
  }

  lemma {:induction false} RunKeepsFresh(db: Db, steps: seq<Step>, fence: Uuid)
    requires SagasInv(db) && FreshFence(db, fence) && Avoids(steps, fence)
    ensures FreshFence(Run(db, steps), fence)
  {
    if |steps| > 0 {
      var n := |steps| - 1;
      RunKeepsFresh(db, steps[..n], fence);
      RunStaysInv(db, steps[..n]);
      NextKeepsFresh(Run(db, steps[..n]), steps[n], fence);
    }
  }

  /* ---------- One claim and its finalization ---------- */

  lemma DueIsClaimable(db: Db, p: Uuid)
    requires SagasInv(db) && DueAt(db, p)
    ensures ClaimPick(db.sagas[p]).Some?
  {
    InvAt(db, p);
    var k := CursorOf(p, db.sagas[p]);
    DueAtCursor(p, db.sagas[p], k);
  }

  // The record is the due effect of the least recently updated due saga.
  predicate ClaimedFrom(db: Db, record: EffectRecord, fence: Uuid) {
    var p := record.provisioningId;
    Oldest(db.sagas, p, DueSagas) && ClaimPick(db.sagas[p]).Some? && record == ClaimedRecord(db, p, fence)
  }

  lemma ClaimIssues(s: Saga, p: Uuid, i: nat, fence: Uuid, until: Time, actor: string, now: Time)
    requires i < |s.effects|
    ensures var t := ClaimSaga(s, i, fence, until, actor, now);
            IssuedIn(t.log, RecordOf(p, s.row, s.effects[i], fence)) && t != s
            && Pick(t.effects, Fenced(s.effects[i].effectId, fence)).Some?
  {
    var t := ClaimSaga(s, i, fence, until, actor, now);
    assert t.log[|s.log|] == LastRow(t);
    PickFinds(t.effects, Fenced(s.effects[i].effectId, fence), i);
  }

  // The tables a claim leaves.
  function ClaimedTables(db: Db, claim: Step): Db
    requires claim.ClaimStep?
  {
    ClaimAt(db, claim.claimed, claim.fence, claim.until, claim.actor, claim.now)
  }

  lemma ClaimIsStep(db: Db, claim: Step)
    requires claim.ClaimStep?
    requires SagasInv(db) && DueAt(db, claim.claimed) && FreshFence(db, claim.fence)
    ensures ClaimedTables(db, claim) == Run(db, [claim]) && SagasInv(ClaimedTables(db, claim))
  {
    RunOne(db, claim);
    NextSagasInv(db, claim);
  }

  // A claim hands out a record that holds its row.
  lemma ClaimIsHeld(db: Db, claim: Step, record: EffectRecord)
    requires claim.ClaimStep? && claim.claimed == record.provisioningId && ClaimedFrom(db, record, claim.fence)
    ensures var d := ClaimedTables(db, claim);
            Issued(d, record) && FencedRow(d, record).Some? && d != db
  {
    var p := record.provisioningId;
    ClaimIssues(db.sagas[p], p, ClaimPick(db.sagas[p]).value, claim.fence, claim.until, claim.actor, claim.now);
  }

  lemma ClaimDrops(db: Db, claim: Step)
    requires claim.ClaimStep?
    requires SagasInv(db) && DueAt(db, claim.claimed) && FreshFence(db, claim.fence)
    requires ClaimedTables(db, claim) != db
    ensures TotalWeight(ClaimedTables(db, claim).sagas) < TotalWeight(db.sagas)
  {
    TargetFromAll(db, claim);
    WorkerStepDrops(db, claim);
  }

  // A record stays issued whatever everyone else does.
  lemma StaysIssued(db: Db, steps: seq<Step>, record: EffectRecord)
    requires SagasInv(db) && Issued(db, record)
    ensures Issued(Run(db, steps), record)
  {
    var p := record.provisioningId;
    RunLater(db, steps, p);
    IssuedInGrown(db.sagas[p], Run(db, steps).sagas[p], record);
  }

  lemma IssuedInGrown(s: Saga, t: Saga, record: EffectRecord)
    requires Grown(s, t) && IssuedIn(s.log, record)
    ensures IssuedIn(t.log, record)
  {
    var j :| 0 <= j < |s.log| && s.log[j].effectId == Some(record.effectId) && s.log[j].event.EffectClaimed?
             && s.log[j].event.claimedKind == record.kind && s.log[j].event.fence == record.leaseToken;
    assert t.log[j] == t.log[..|s.log|][j];
  }

  // Finalizing an issued record with what the provider answered is one step; it never fails, and
  // when the record still holds its row it leaves less to do.
  lemma FinalizeIsStep(db: Db, record: EffectRecord, answers: Answers, actor: string, now: Time)
    requires SagasInv(db) && Issued(db, record)
    ensures var outcome := ExecuteEffect(record, answers);
            var final := FinalizeTransaction(db, record, outcome, actor, now);
            && final.db == Run(db, [FinalizeStep(record, outcome, actor, now)]) && final.answer.Answered?
            && (FencedRow(db, record).Some? <==> final.answer.result != Superseded)
            && (FencedRow(db, record).Some? ==> TotalWeight(final.db.sagas) < TotalWeight(db.sagas))
  {
    var outcome := ExecuteEffect(record, answers);
    OutcomeFits(record, answers);
    var step := FinalizeStep(record, outcome, actor, now);
    RunOne(db, step);
    TargetFromAll(db, step);
    if FencedRow(db, record).Some? {
      FinalizeChanges(db, record, outcome, actor, now);
      WorkerStepDrops(db, step);
    }
  }

  lemma FinalizeChanges(db: Db, record: EffectRecord, outcome: EffectOutcome, actor: string, now: Time)
    requires record.provisioningId in db.sagas && FencedRow(db, record).Some? && Fits(record.kind, outcome)
    ensures FinalizeTransaction(db, record, outcome, actor, now).db != db
  {
    var p := record.provisioningId;
    var d := FinalizeTransaction(db, record, outcome, actor, now).db;
    assert d.sagas[p].row.revision == db.sagas[p].row.revision + 1;
  }

  /* ---------- The loop body ---------- */

  // Everyone else's committed transactions.
  method Others(store: Store, steps: seq<Step>)
    modifies store
    ensures store.Contents() == Run(old(store.Contents()), steps)
  {
    var db := Run(store.Contents(), steps);
    store.Rollback(db);
  }

  function ClaimOf(turn: Turn, p: Uuid, actor: string, leaseSeconds: nat): Step {
    ClaimStep(p, turn.fence, turn.clock + leaseSeconds * 1_000_000, actor, turn.claimNow)
  }

  function FinalizeOf(turn: Turn, record: EffectRecord, actor: string): Step {
    FinalizeStep(record, ExecuteEffect(record, turn.answers), actor, turn.finalizeNow)
  }

  // What happens to the tables in a turn that claimed this record.
  function TurnSteps(turn: Turn, claimed: Option<EffectRecord>, actor: string, leaseSeconds: nat): seq<Step> {
    match claimed
    case None => turn.before
    case Some(record) =>
      turn.before + ClaimedSteps(turn, record, actor, leaseSeconds)
  }

  lemma RunThree(db: Db, a: Step, during: seq<Step>, b: Step)
    ensures Run(db, [a] + during + [b]) == Run(Run(Run(db, [a]), during), [b])
  {
    RunAppend(db, [a] + during, [b]);
    RunAppend(db, [a], during);
  }

  lemma TurnAvoids(turn: Turn, claimed: Option<EffectRecord>, actor: string, leaseSeconds: nat, fence: Uuid)
    requires fence != turn.fence && Avoids(turn.before, fence) && Avoids(turn.during, fence)
    ensures Avoids(TurnSteps(turn, claimed, actor, leaseSeconds), fence)
  {
  }

  // What a turn answers from its claim on: the finalization of the provider's outcome.
  function TurnAnswer(db: Db, turn: Turn, record: EffectRecord, actor: string, leaseSeconds: nat): Finalized {
    FinalizeTransaction(Run(ClaimedTables(db, ClaimOf(turn, record.provisioningId, actor, leaseSeconds)), turn.during),
                        record, ExecuteEffect(record, turn.answers), actor, turn.finalizeNow)
  }

  function ClaimedSteps(turn: Turn, record: EffectRecord, actor: string, leaseSeconds: nat): seq<Step> {
    [ClaimOf(turn, record.provisioningId, actor, leaseSeconds)] + turn.during + [FinalizeOf(turn, record, actor)]
  }

  // A claim and its finalization, with anything in between, are steps of one run; the finalization
  // always answers, and never Superseded when nothing came in between.
  lemma ClaimedTurn(db: Db, turn: Turn, record: EffectRecord, actor: string, leaseSeconds: nat)
    requires SagasInv(db) && FreshFence(db, turn.fence) && ClaimedFrom(db, record, turn.fence)
    ensures var final := TurnAnswer(db, turn, record, actor, leaseSeconds);
            && final.db == Run(db, ClaimedSteps(turn, record, actor, leaseSeconds))
            && final.answer.Answered?
            && (turn.during == [] ==>
                  final.answer.result != Superseded && TotalWeight(final.db.sagas) + 2 <= TotalWeight(db.sagas))
  {
    var claim := ClaimOf(turn, record.provisioningId, actor, leaseSeconds);
    ClaimDue(db, claim, record);
    ComposedTurn(db, ClaimedTables(db, claim), claim, turn, record, actor);
  }

  lemma ClaimDue(db: Db, claim: Step, record: EffectRecord)
    requires claim.ClaimStep? && claim.claimed == record.provisioningId && ClaimedFrom(db, record, claim.fence)
    requires SagasInv(db) && FreshFence(db, claim.fence)
    ensures var d := ClaimedTables(db, claim);
            && d == Run(db, [claim]) && SagasInv(d) && Issued(d, record) && FencedRow(d, record).Some?
            && TotalWeight(d.sagas) < TotalWeight(db.sagas)
  {
    DueWhenClaimed(db, record, claim.fence);
    ClaimIsStep(db, claim);
    ClaimIsHeld(db, claim, record);
    ClaimDrops(db, claim);
  }

  lemma ComposedTurn(db: Db, claimed: Db, claim: Step, turn: Turn, record: EffectRecord, actor: string)
    requires claimed == Run(db, [claim]) && SagasInv(claimed) && Issued(claimed, record)
    requires FencedRow(claimed, record).Some? && TotalWeight(claimed.sagas) < TotalWeight(db.sagas)
    ensures var final := FinalizeTransaction(Run(claimed, turn.during), record,
                                             ExecuteEffect(record, turn.answers), actor, turn.finalizeNow);
            && final.db == Run(db, [claim] + turn.during + [FinalizeOf(turn, record, actor)])
            && final.answer.Answered?
            && (turn.during == [] ==>
                  final.answer.result != Superseded && TotalWeight(final.db.sagas) + 2 <= TotalWeight(db.sagas))
  {
    FinishIsSteps(claimed, turn, record, actor);
    RunThree(db, claim, turn.during, FinalizeOf(turn, record, actor));
  }

  lemma DueWhenClaimed(db: Db, record: EffectRecord, fence: Uuid)
    requires ClaimedFrom(db, record, fence)
    ensures DueAt(db, record.provisioningId)
  {
  }

  lemma FinishIsSteps(claimed: Db, turn: Turn, record: EffectRecord, actor: string)
    requires SagasInv(claimed) && Issued(claimed, record)
    ensures var db := Run(claimed, turn.during);
            var final := FinalizeTransaction(db, record, ExecuteEffect(record, turn.answers), actor, turn.finalizeNow);
            && final.db == Run(db, [FinalizeOf(turn, record, actor)]) && final.answer.Answered?
            && (turn.during == [] && FencedRow(claimed, record).Some? ==>
                  final.answer.result != Superseded && TotalWeight(final.db.sagas) < TotalWeight(claimed.sagas))
  {
    RunStaysInv(claimed, turn.during);
    StaysIssued(claimed, turn.during, record);
    FinalizeIsStep(Run(claimed, turn.during), record, turn.answers, actor, turn.finalizeNow);
  }

  function AnswerOf(r: TurnResult): FinalizeAnswer {
    match r
    case Finished(result) => Answered(result)
    case TurnBroken(detail) => FinalizeBroken(detail)
    case NothingDue => Answered(Superseded)
  }

  predicate NoneDue(db: Db) {
    forall p | p in db.sagas :: !Due(db.sagas[p])
  }

  // How a turn may go: nothing was due, the claim broke, or a record was claimed and finalized.
  ghost predicate TurnDone(db: Db, d: Db, turn: Turn, claimed: Option<EffectRecord>, r: TurnResult, actor: string,
                           leaseSeconds: nat) {
    match claimed
    case Some(record) =>
      && ClaimedFrom(Run(db, turn.before), record, turn.fence) && r != NothingDue
      && Finalized(d, AnswerOf(r)) == TurnAnswer(Run(db, turn.before), turn, record, actor, leaseSeconds)
    case None =>
      && d == Run(db, turn.before)
      && match r {
           case NothingDue => NoneDue(d)
           case TurnBroken(_) => exists p :: p in d.sagas && Due(d.sagas[p]) && ClaimPick(d.sagas[p]).None?
           case Finished(_) => false
         }
  }

  // One iteration: claim an effect, call its provider, finalize it.
  method ProcessOne(store: Store, actor: string, leaseSeconds: nat, turn: Turn)
    returns (r: TurnResult, ghost claimed: Option<EffectRecord>)
    modifies store
    ensures TurnDone(old(store.Contents()), store.Contents(), turn, claimed, r, actor, leaseSeconds)
  {
    Others(store, turn.before);
    claimed := None;
    var claim := ClaimInTurn(store, actor, leaseSeconds, turn);
    match claim {
      case Idle =>
        r := NothingDue;
      case ClaimBroken(detail) =>
        r := TurnBroken(detail);
      case Claimed(record) =>
        claimed := Some(record);
        r := ExecuteAndFinalize(store, record, actor, turn);
    }
  }

  method ClaimInTurn(store: Store, actor: string, leaseSeconds: nat, turn: Turn) returns (r: ClaimReply)
    modifies store
    ensures !r.Claimed? ==> store.Contents() == old(store.Contents())
    ensures r.Idle? ==> NoneDue(store.Contents())
    ensures r.ClaimBroken? ==> exists p :: p in store.sagas && Due(store.sagas[p]) && ClaimPick(store.sagas[p]).None?
    ensures r.Claimed? ==>
              && ClaimedFrom(old(store.Contents()), r.record, turn.fence)
              && store.Contents() ==
                 ClaimedTables(old(store.Contents()), ClaimOf(turn, r.record.provisioningId, actor, leaseSeconds))
  {
    r := store.ClaimNext(actor, leaseSeconds, turn.clock, turn.fence, turn.claimNow);
  }

  method ExecuteAndFinalize(store: Store, record: EffectRecord, actor: string, turn: Turn) returns (r: TurnResult)
    modifies store
    ensures r != NothingDue
    ensures Finalized(store.Contents(), AnswerOf(r)) ==
            FinalizeTransaction(Run(old(store.Contents()), turn.during), record,
                                ExecuteEffect(record, turn.answers), actor, turn.finalizeNow)
  {
    var outcome := ExecuteEffect(record, turn.answers);
    Others(store, turn.during);
    var answer := store.FinalizeEffect(record, outcome, actor, turn.finalizeNow);
    match answer {
      case Answered(result) =>
        r := Finished(result);
      case FinalizeBroken(detail) =>
        r := TurnBroken(detail);
    }
  }

  lemma ClaimNeverBreaks(db: Db)
    requires SagasInv(db)
    ensures forall p | p in db.sagas && Due(db.sagas[p]) :: ClaimPick(db.sagas[p]).Some?
  {
    forall p | p in db.sagas && Due(db.sagas[p])
      ensures ClaimPick(db.sagas[p]).Some?
    {
      DueIsClaimable(db, p);
    }
  }

  // In a store that satisfies the invariant a turn never fails, and is part of one run.
  lemma TurnIsRun(db: Db, d: Db, turn: Turn, claimed: Option<EffectRecord>, r: TurnResult, actor: string,
                  leaseSeconds: nat)
    requires SagasInv(db) && FreshFence(db, turn.fence) && Avoids(turn.before, turn.fence)
    requires TurnDone(db, d, turn, claimed, r, actor, leaseSeconds)
    ensures d == Run(db, TurnSteps(turn, claimed, actor, leaseSeconds)) && SagasInv(d)
    ensures if claimed.Some? then r.Finished? else r == NothingDue
    ensures claimed.Some? && Undisturbed(turn) ==>
              r.result != Superseded && TotalWeight(d.sagas) + 2 <= TotalWeight(db.sagas)
  {
    RunStaysInv(db, TurnSteps(turn, claimed, actor, leaseSeconds));
    RunStaysInv(db, turn.before);
    var middle := Run(db, turn.before);
    if claimed.Some? {
      RunKeepsFresh(db, turn.before, turn.fence);
      ClaimedTurn(middle, turn, claimed.value, actor, leaseSeconds);
      RunAppend(db, turn.before, ClaimedSteps(turn, claimed.value, actor, leaseSeconds));
    } else {
      ClaimNeverBreaks(middle);
    }
  }

  // The tokens of the turns still to come stay fresh.
  lemma TurnKeepsFresh(db: Db, turns: seq<Turn>, i: nat, claimed: Option<EffectRecord>, actor: string,
                       leaseSeconds: nat)
    requires SagasInv(db) && FreshFrom(db, turns, i) && i < |turns|
    requires forall j | i < j < |turns| ::
               && turns[j].fence != turns[i].fence
               && Avoids(turns[i].before, turns[j].fence) && Avoids(turns[i].during, turns[j].fence)
    ensures FreshFrom(Run(db, TurnSteps(turns[i], claimed, actor, leaseSeconds)), turns, i + 1)
  {
    var steps := TurnSteps(turns[i], claimed, actor, leaseSeconds);
    forall j | i < j < |turns|
      ensures FreshFence(Run(db, steps), turns[j].fence)
    {
      TurnAvoids(turns[i], claimed, actor, leaseSeconds, turns[j].fence);
      RunKeepsFresh(db, steps, turns[j].fence);
    }
  }

  /* ---------- The batch ---------- */

  datatype Setting = Setting(actor: string, leaseSeconds: nat, quarantineNow: Time, turns: seq<Turn>)

  // What a batch did so far: the sagas it quarantined, then the records it claimed and how each was
  // finalized.
  datatype Batch = Batch(picked: seq<Uuid>, claims: seq<EffectRecord>, results: seq<FinalizeResult>)

  function BatchSteps(g: Setting, picked: seq<Uuid>, claims: seq<EffectRecord>): seq<Step>
    requires |claims| <= |g.turns|
    decreases |claims|
  {
    if |claims| == 0 then QuarantineSteps(picked, g.actor, g.quarantineNow) else
    var n := |claims| - 1;
    BatchSteps(g, picked, claims[..n]) + TurnSteps(g.turns[n], Some(claims[n]), g.actor, g.leaseSeconds)
  }

  // The tables in which turn k began.
  function TurnStart(db: Db, g: Setting, b: Batch, k: nat): Db
    requires k <= |b.claims| <= |g.turns|
  {
    Run(db, BatchSteps(g, b.picked, b.claims[..k]))
  }

  // Turn k claimed the oldest due saga's effect, and got this result from finalizing what its
  // provider answered.
  predicate TurnTold(db: Db, g: Setting, b: Batch, k: nat)
    requires k < |b.claims| == |b.results| <= |g.turns|
  {
    var d := Run(TurnStart(db, g, b, k), g.turns[k].before);
    && ClaimedFrom(d, b.claims[k], g.turns[k].fence)
    && TurnAnswer(d, g.turns[k], b.claims[k], g.actor, g.leaseSeconds).answer == Answered(b.results[k])
  }

  predicate Quiet(turns: seq<Turn>, n: nat)
    requires n <= |turns|
  {
    forall i | 0 <= i < n :: Undisturbed(turns[i])
  }

  function Count(results: seq<FinalizeResult>, result: FinalizeResult): nat {
    if |results| == 0 then 0 else
    Count(results[..|results| - 1], result) + if results[|results| - 1] == result then 1 else 0
  }

  lemma {:induction false} CountsAll(results: seq<FinalizeResult>)
    ensures |results| ==
            Count(results, ResultApplied) + Count(results, ResultFailed)
            + Count(results, ResultManualReview) + Count(results, Superseded)
    ensures Superseded !in results ==> Count(results, Superseded) == 0
  {
    if |results| > 0 {
      CountsAll(results[..|results| - 1]);
    }
  }

  predicate AllTold(db: Db, g: Setting, b: Batch)
    requires |b.claims| == |b.results| <= |g.turns|
  {
    forall k | 0 <= k < |b.claims| :: TurnTold(db, g, b, k)
  }

  ghost predicate BatchRun(db: Db, d: Db, g: Setting, b: Batch) {
    && |b.claims| == |b.results| <= |g.turns|
    && d == Run(db, BatchSteps(g, b.picked, b.claims)) && SagasInv(d) && FreshFrom(d, g.turns, |b.claims|)
  }

  // Undisturbed, a batch loses no lease, and every quarantine and claim leaves less to do.
  ghost predicate BatchQuiet(db: Db, d: Db, g: Setting, b: Batch) {
    |b.claims| <= |g.turns| && Quiet(g.turns, |b.claims|) ==>
      Superseded !in b.results && TotalWeight(d.sagas) + |b.picked| + 2 * |b.claims| <= TotalWeight(db.sagas)
  }

  ghost predicate BatchInv(db: Db, d: Db, g: Setting, b: Batch) {
    BatchRun(db, d, g, b) && BatchQuiet(db, d, g, b) && AllTold(db, g, b)
  }

  // Each quarantine of a batch takes an expired saga, so each leaves less to do.
  lemma {:induction false} QuarantinesAreBusy(db: Db, picked: seq<Uuid>, actor: string, now: Time)
    requires InTurn(db, picked, actor, now) && SagasInv(db)
    ensures BusyWorkers(db, QuarantineSteps(picked, actor, now))
  {
    if |picked| > 0 {
      var n := |picked| - 1;
      var steps := QuarantineSteps(picked, actor, now);
      assert steps[..n] == QuarantineSteps(picked[..n], actor, now);
      assert forall k | 0 <= k < n :: picked[..n][..k] == picked[..k];
      QuarantinesAreBusy(db, picked[..n], actor, now);
      QuarantineChanges(db, steps[..n], picked[n], actor, now);
    }
  }

  lemma ExpiredHasFence(p: Uuid, s: Saga, now: Time)
    requires SagaInv(p, s) && HasExpired(s, now)
    ensures !FenceLost(s, now)
  {
    var k := CursorOf(p, s);
    QuarantineMoves(p, s, k, Pick(s.effects, Expired(now)).value, "", now);
  }

  lemma QuarantineChanges(db: Db, steps: seq<Step>, p: Uuid, actor: string, now: Time)
    requires SagasInv(db) && Oldest(Run(db, steps).sagas, p, ExpiredSagas(now))
    ensures Next(Run(db, steps), QuarantineStep(p, actor, now)) != Run(db, steps)
  {
    RunStaysInv(db, steps);
    FencesAreThere(Run(db, steps), now);
    QuarantineIsChange(Run(db, steps), p, actor, now);
  }

  lemma QuarantineIsChange(db: Db, p: Uuid, actor: string, now: Time)
    requires ExpiredAt(db, p, now) && !FenceLost(db.sagas[p], now)
    ensures Next(db, QuarantineStep(p, actor, now)) != db
  {
    assert QuarantineAt(db, p, actor, now).sagas[p].row.revision == db.sagas[p].row.revision + 1;
  }

  // A reachable store's expired lease always has its token.
  lemma FencesAreThere(db: Db, now: Time)
    requires SagasInv(db)
    ensures forall p | p in db.sagas :: !FenceLost(db.sagas[p], now)
  {
    forall p | p in db.sagas && HasExpired(db.sagas[p], now)
      ensures !FenceLost(db.sagas[p], now)
    {
      ExpiredHasFence(p, db.sagas[p], now);
    }
  }

  lemma BatchBegins(db: Db, g: Setting, picked: seq<Uuid>)
    requires SagasInv(db) && FreshTokens(db, g.turns) && InTurn(db, picked, g.actor, g.quarantineNow)
    ensures BatchInv(db, Run(db, QuarantineSteps(picked, g.actor, g.quarantineNow)), g, Batch(picked, [], []))
  {
    RunStaysInv(db, QuarantineSteps(picked, g.actor, g.quarantineNow));
    QuarantineKeepsFresh(db, g, picked);
    QuarantinesWeigh(db, g, picked);
  }

  lemma QuarantinesWeigh(db: Db, g: Setting, picked: seq<Uuid>)
    requires SagasInv(db) && InTurn(db, picked, g.actor, g.quarantineNow)
    ensures var d := Run(db, QuarantineSteps(picked, g.actor, g.quarantineNow));
            |picked| + TotalWeight(d.sagas) <= TotalWeight(db.sagas)
  {
    QuarantinesAreBusy(db, picked, g.actor, g.quarantineNow);
    WorkersStop(db, QuarantineSteps(picked, g.actor, g.quarantineNow));
  }

  lemma QuarantineKeepsFresh(db: Db, g: Setting, picked: seq<Uuid>)
    requires SagasInv(db) && FreshFrom(db, g.turns, 0)
    ensures FreshFrom(Run(db, QuarantineSteps(picked, g.actor, g.quarantineNow)), g.turns, 0)
  {
    var steps := QuarantineSteps(picked, g.actor, g.quarantineNow);
    forall j | 0 <= j < |g.turns|
      ensures FreshFence(Run(db, steps), g.turns[j].fence)
    {
      RunKeepsFresh(db, steps, g.turns[j].fence);
    }
  }

  lemma TurnsStayTold(db: Db, g: Setting, b: Batch, record: EffectRecord, result: FinalizeResult)
    requires |b.claims| == |b.results| < |g.turns|
    requires forall k | 0 <= k < |b.claims| :: TurnTold(db, g, b, k)
    ensures forall k | 0 <= k < |b.claims| ::
              TurnTold(db, g, Batch(b.picked, b.claims + [record], b.results + [result]), k)
  {
    var c := Batch(b.picked, b.claims + [record], b.results + [result]);
    forall k | 0 <= k < |b.claims|
      ensures TurnTold(db, g, c, k)
    {
      assert c.claims[..k] == b.claims[..k] && c.claims[k] == b.claims[k] && c.results[k] == b.results[k];
      assert TurnTold(db, g, b, k);
    }
  }

  lemma BatchGrows(db: Db, d: Db, g: Setting, b: Batch, record: EffectRecord)
    requires |b.claims| < |g.turns| && d == Run(db, BatchSteps(g, b.picked, b.claims))
    ensures Run(db, BatchSteps(g, b.picked, b.claims + [record])) ==
            Run(d, TurnSteps(g.turns[|b.claims|], Some(record), g.actor, g.leaseSeconds))
  {
    var n := |b.claims|;
    assert (b.claims + [record])[..n] == b.claims;
    RunAppend(db, BatchSteps(g, b.picked, b.claims), TurnSteps(g.turns[n], Some(record), g.actor, g.leaseSeconds));
  }

  lemma LastTold(db: Db, d: Db, e: Db, g: Setting, b: Batch, record: EffectRecord, result: FinalizeResult)
    requires |b.claims| == |b.results| < |g.turns| && d == Run(db, BatchSteps(g, b.picked, b.claims))
    requires TurnDone(d, e, g.turns[|b.claims|], Some(record), Finished(result), g.actor, g.leaseSeconds)
    ensures TurnTold(db, g, Batch(b.picked, b.claims + [record], b.results + [result]), |b.claims|)
  {
    var c := Batch(b.picked, b.claims + [record], b.results + [result]);
    assert c.claims[..|b.claims|] == b.claims;
    assert TurnStart(db, g, c, |b.claims|) == d;
  }

  lemma ToldExtends(db: Db, d: Db, e: Db, g: Setting, b: Batch, record: EffectRecord, result: FinalizeResult)
    requires |b.claims| == |b.results| < |g.turns| && d == Run(db, BatchSteps(g, b.picked, b.claims))
    requires AllTold(db, g, b)
    requires TurnDone(d, e, g.turns[|b.claims|], Some(record), Finished(result), g.actor, g.leaseSeconds)
    ensures AllTold(db, g, Batch(b.picked, b.claims + [record], b.results + [result]))
  {
    LastTold(db, d, e, g, b, record, result);
    TurnsStayTold(db, g, b, record, result);
  }

  lemma TurnFollows(d: Db, e: Db, g: Setting, n: nat, record: EffectRecord, r: TurnResult)
    requires SagasInv(d) && n < |g.turns| && FreshFrom(d, g.turns, n) && DistinctTokens(g.turns)
    requires TurnDone(d, e, g.turns[n], Some(record), r, g.actor, g.leaseSeconds)
    ensures e == Run(d, TurnSteps(g.turns[n], Some(record), g.actor, g.leaseSeconds))
    ensures SagasInv(e) && FreshFrom(e, g.turns, n + 1) && r.Finished?
    ensures Undisturbed(g.turns[n]) ==> r.result != Superseded && TotalWeight(e.sagas) + 2 <= TotalWeight(d.sagas)
  {
    TurnIsRun(d, e, g.turns[n], Some(record), r, g.actor, g.leaseSeconds);
    TurnKeepsFresh(d, g.turns, n, Some(record), g.actor, g.leaseSeconds);
  }

  lemma RunJoins(db: Db, d: Db, e: Db, g: Setting, b: Batch, record: EffectRecord, result: FinalizeResult)
    requires BatchRun(db, d, g, b) && |b.claims| < |g.turns|
    requires e == Run(d, TurnSteps(g.turns[|b.claims|], Some(record), g.actor, g.leaseSeconds))
    requires SagasInv(e) && FreshFrom(e, g.turns, |b.claims| + 1)
    ensures BatchRun(db, e, g, Batch(b.picked, b.claims + [record], b.results + [result]))
  {
    BatchGrows(db, d, g, b, record);
  }

  lemma QuietJoins(db: Db, d: Db, e: Db, g: Setting, b: Batch, record: EffectRecord, result: FinalizeResult)
    requires BatchQuiet(db, d, g, b) && |b.claims| == |b.results| < |g.turns|
    requires Undisturbed(g.turns[|b.claims|]) ==>
              result != Superseded && TotalWeight(e.sagas) + 2 <= TotalWeight(d.sagas)
    ensures BatchQuiet(db, e, g, Batch(b.picked, b.claims + [record], b.results + [result]))
  {
  }

  // One more turn that claimed something.
  lemma BatchExtends(db: Db, d: Db, e: Db, g: Setting, b: Batch, record: EffectRecord, r: TurnResult)
    requires BatchInv(db, d, g, b) && |b.claims| < |g.turns| && DistinctTokens(g.turns)
    requires TurnDone(d, e, g.turns[|b.claims|], Some(record), r, g.actor, g.leaseSeconds)
    ensures r.Finished? && BatchInv(db, e, g, Batch(b.picked, b.claims + [record], b.results + [r.result]))
  {
    TurnFollows(d, e, g, |b.claims|, record, r);
    ToldExtends(db, d, e, g, b, record, r.result);
    RunJoins(db, d, e, g, b, record, r.result);
    QuietJoins(db, d, e, g, b, record, r.result);
  }

  lemma CountAppend(results: seq<FinalizeResult>, last: FinalizeResult, result: FinalizeResult)
    ensures Count(results + [last], result) == Count(results, result) + if last == result then 1 else 0
  {
    assert (results + [last])[..|results|] == results;
  }

  // The response's counters, exactly: every claim has one result, and each result has its counter,
  // quarantines counting as manual reviews too.
  predicate Tallied(b: Batch, claimed: nat, completed: nat, failed: nat, manualReview: nat) {
    && claimed == |b.claims| == |b.results|
    && completed == Count(b.results, ResultApplied)
    && failed == Count(b.results, ResultFailed)
    && manualReview == |b.picked| + Count(b.results, ResultManualReview)
  }

  // All that happened to the tables: the batch, what preceded an idle last turn, and what came
  // after the last turn.
  function AllSteps(g: Setting, b: Batch, idle: bool, last: seq<Step>): seq<Step>
    requires |b.claims| <= |g.turns| && (idle ==> |b.claims| < |g.turns|)
  {
    BatchSteps(g, b.picked, b.claims) + (if idle then g.turns[|b.claims|].before else []) + last
  }

  lemma IdleTurn(db: Db, d: Db, e: Db, g: Setting, b: Batch, r: TurnResult)
    requires BatchRun(db, d, g, b) && |b.claims| < |g.turns| && DistinctTokens(g.turns)
    requires TurnDone(d, e, g.turns[|b.claims|], None, r, g.actor, g.leaseSeconds)
    ensures r == NothingDue && SagasInv(e)
    ensures e == Run(db, BatchSteps(g, b.picked, b.claims) + g.turns[|b.claims|].before)
    ensures NoneDue(e)
  {
    TurnIsRun(d, e, g.turns[|b.claims|], None, r, g.actor, g.leaseSeconds);
    RunAppend(db, BatchSteps(g, b.picked, b.claims), g.turns[|b.claims|].before);
  }

  // The batch fits the limit, and stopped short of it only at an idle turn.
  predicate Filled(g: Setting, b: Batch, idle: bool, limit: nat) {
    && |b.claims| == |b.results| <= |g.turns| && (idle ==> |b.claims| < |g.turns|)
    && |b.picked| + |b.claims| <= limit && (|b.picked| + |b.claims| < limit ==> idle)
  }

  ghost predicate TurnsDone(db: Db, d: Db, g: Setting, b: Batch, idle: bool, limit: nat) {
    && Filled(g, b, idle, limit) && AllTold(db, g, b)
    && d == Run(db, AllSteps(g, b, idle, [])) && SagasInv(d) && (idle ==> NoneDue(d))
    && (Quiet(g.turns, |g.turns|) ==>
          Superseded !in b.results && TotalWeight(d.sagas) + |b.picked| + 2 * |b.claims| <= TotalWeight(db.sagas))
  }

  lemma BatchEnds(db: Db, d: Db, g: Setting, b: Batch, limit: nat)
    requires BatchInv(db, d, g, b) && |b.picked| + |b.claims| == limit
    ensures TurnsDone(db, d, g, b, false, limit)
  {
    assert AllSteps(g, b, false, []) == BatchSteps(g, b.picked, b.claims);
  }

  lemma BatchIdles(db: Db, d: Db, e: Db, g: Setting, b: Batch, r: TurnResult, limit: nat)
    requires BatchInv(db, d, g, b) && |b.claims| < |g.turns| && |b.picked| + |b.claims| < limit
              && DistinctTokens(g.turns)
    requires TurnDone(d, e, g.turns[|b.claims|], None, r, g.actor, g.leaseSeconds)
    ensures r == NothingDue && TurnsDone(db, e, g, b, true, limit)
  {
    IdleTurn(db, d, e, g, b, r);
    assert AllSteps(g, b, true, []) == BatchSteps(g, b.picked, b.claims) + g.turns[|b.claims|].before;
  }

  function Extended(b: Batch, claimed: Option<EffectRecord>, r: TurnResult): Batch {
    if claimed.Some? && r.Finished? then Batch(b.picked, b.claims + [claimed.value], b.results + [r.result]) else b
  }

  // Where one more turn leads: to the end, or to a longer batch.
  lemma TurnSettles(db: Db, d: Db, e: Db, g: Setting, b: Batch, claimed: Option<EffectRecord>, r: TurnResult,
                    limit: nat)
    requires BatchInv(db, d, g, b) && |b.claims| < |g.turns| && |b.picked| + |b.claims| < limit
              && DistinctTokens(g.turns)
    requires TurnDone(d, e, g.turns[|b.claims|], claimed, r, g.actor, g.leaseSeconds)
    ensures if claimed.Some? then r.Finished? else r == NothingDue
    ensures claimed.Some? ==> BatchInv(db, e, g, Extended(b, claimed, r))
    ensures claimed.None? ==> TurnsDone(db, e, g, b, true, limit)
  {
    if claimed.Some? {
      BatchExtends(db, d, e, g, b, claimed.value, r);
    } else {
      BatchIdles(db, d, e, g, b, r, limit);
    }
  }

  lemma TallyGrows(b: Batch, record: EffectRecord, result: FinalizeResult, claimed: nat, completed: nat, failed: nat,
                   manualReview: nat)
    requires Tallied(b, claimed, completed, failed, manualReview)
    ensures Tallied(Batch(b.picked, b.claims + [record], b.results + [result]), claimed + 1,
                    completed + (if result == ResultApplied then 1 else 0),
                    failed + (if result == ResultFailed then 1 else 0),
                    manualReview + (if result == ResultManualReview then 1 else 0))
  {
    CountAppend(b.results, result, ResultApplied);
    CountAppend(b.results, result, ResultFailed);
    CountAppend(b.results, result, ResultManualReview);
  }

  // One more claim, and the counter that its finalization raises, if any.
  method Tally(ghost b: Batch, ghost record: EffectRecord, result: FinalizeResult, claimed: nat, completed: nat,
               failed: nat, manualReview: nat)
    returns (newClaimed: nat, newCompleted: nat, newFailed: nat, newManualReview: nat)
    requires Tallied(b, claimed, completed, failed, manualReview)
    ensures newClaimed == claimed + 1
    ensures Tallied(Batch(b.picked, b.claims + [record], b.results + [result]),
                    newClaimed, newCompleted, newFailed, newManualReview)
  {
    newClaimed, newCompleted, newFailed, newManualReview := claimed + 1, completed, failed, manualReview;
    match result {
      case ResultApplied => newCompleted := completed + 1;
      case ResultFailed => newFailed := failed + 1;
      case ResultManualReview => newManualReview := manualReview + 1;
      case Superseded =>
    }
    TallyGrows(b, record, result, claimed, completed, failed, manualReview);
  }

  // Turn number |b.claims| of the batch, with its counters.
  method TakeTurn(store: Store, ghost db: Db, g: Setting, turn: nat, limit: nat, claimed: nat, completed: nat,
                  failed: nat, manualReview: nat, ghost b: Batch)
    returns (r: TurnResult, newClaimed: nat, newCompleted: nat, newFailed: nat, newManualReview: nat, ghost c: Batch)
    requires DistinctTokens(g.turns) && turn == |b.claims| < |g.turns| && |b.picked| + turn < limit
    requires BatchInv(db, store.Contents(), g, b) && Tallied(b, claimed, completed, failed, manualReview)
    modifies store
    ensures r == NothingDue || r.Finished?
    ensures c.picked == b.picked && Tallied(c, newClaimed, newCompleted, newFailed, newManualReview)
    ensures r == NothingDue ==> c == b && TurnsDone(db, store.Contents(), g, c, true, limit)
    ensures r.Finished? ==> |c.claims| == turn + 1 && BatchInv(db, store.Contents(), g, c)
  {
    ghost var d, record := store.Contents(), None;
    r, record := ProcessOne(store, g.actor, g.leaseSeconds, g.turns[turn]);
    TurnSettles(db, d, store.Contents(), g, b, record, r, limit);
    newClaimed, newCompleted, newFailed, newManualReview, c := claimed, completed, failed, manualReview, b;
    match r {
      case NothingDue =>
      case TurnBroken(_) =>
      case Finished(result) =>
        newClaimed, newCompleted, newFailed, newManualReview :=
          Tally(b, record.value, result, claimed, completed, failed, manualReview);
        c := Extended(b, record, r);
    }
  }

  // The loop over what quarantine left of the limit.
  method ProcessTurns(store: Store, ghost db: Db, g: Setting, ghost picked: seq<Uuid>, quarantined: nat, limit: nat)
    returns (failure: Option<string>, claimed: nat, completed: nat, failed: nat, manualReview: nat,
             ghost b: Batch, ghost idle: bool)
    requires quarantined == |picked| <= limit <= |g.turns| && DistinctTokens(g.turns)
    requires BatchInv(db, store.Contents(), g, Batch(picked, [], []))
    modifies store
    ensures failure.None? && b.picked == picked && Tallied(b, claimed, completed, failed, manualReview)
    ensures TurnsDone(db, store.Contents(), g, b, idle, limit)
  {
    failure, claimed, completed, failed, manualReview := None, 0, 0, 0, quarantined;
    b, idle := Batch(picked, [], []), false;
    for i := 0 to limit - quarantined
      invariant b.picked == picked && |b.claims| == i && failure.None? && !idle
      invariant Tallied(b, claimed, completed, failed, manualReview)
      invariant BatchInv(db, store.Contents(), g, b)
    {
      var r;
      r, claimed, completed, failed, manualReview, b :=
        TakeTurn(store, db, g, i, limit, claimed, completed, failed, manualReview, b);
      match r {
        case NothingDue =>
          idle := true;
          break;
        case TurnBroken(detail) =>
          failure := Some(detail);
          break;
        case Finished(_) =>
      }
    }
    if !idle {
      BatchEnds(db, store.Contents(), g, b, limit);
    }
  }

  /* ---------- process_due ---------- */

  predicate Acceptable(limit: int, leaseSeconds: int) {
    1 <= limit <= 100 && 5 <= leaseSeconds <= 300
  }

  lemma QuarantineNeverBreaks(db: Db, picked: seq<Uuid>, actor: string, now: Time)
    requires SagasInv(db)
    ensures var d := Run(db, QuarantineSteps(picked, actor, now));
            forall p | p in d.sagas :: !FenceLost(d.sagas[p], now)
  {
    RunStaysInv(db, QuarantineSteps(picked, actor, now));
    FencesAreThere(Run(db, QuarantineSteps(picked, actor, now)), now);
  }

  // What an undisturbed batch achieves: no lease is lost; every quarantine and claim leaves less to
  // do; a batch that stopped short of its limit left nothing due; and a batch called while there was
  // work does something.
  ghost predicate Achieves(db: Db, d: Db, b: Batch, limit: nat, now: Time) {
    && Superseded !in b.results
    && TotalWeight(d.sagas) + |b.picked| + 2 * |b.claims| <= TotalWeight(db.sagas)
    && (|b.picked| + |b.claims| < limit ==> NoneDue(d))
    && (HasMore(db, now) ==> |b.picked| + |b.claims| > 0)
  }

  // With nothing expired, a quiet batch that did nothing found the tables with nothing due.
  lemma BusyWhenHasMore(db: Db, d: Db, g: Setting, b: Batch, idle: bool, limit: nat)
    requires SagasInv(db) && TurnsDone(db, d, g, b, idle, limit) && Quiet(g.turns, |g.turns|) && limit > 0
    requires |b.picked| == 0 ==> NoneExpired(db, g.quarantineNow)
    requires |b.picked| + |b.claims| == 0
    ensures !HasMore(db, g.quarantineNow)
  {
    assert AllSteps(g, b, idle, []) == [];
    HasMoreExact(db, g.quarantineNow);
  }

  predicate NoneExpired(db: Db, now: Time) {
    forall p | p in db.sagas :: !HasExpired(db.sagas[p], now)
  }

  lemma BatchAchieves(db: Db, d: Db, g: Setting, b: Batch, idle: bool, limit: nat)
    requires SagasInv(db) && TurnsDone(db, d, g, b, idle, limit) && Quiet(g.turns, |g.turns|) && limit > 0
    requires |b.picked| < limit ==>
              NoneExpired(Run(db, QuarantineSteps(b.picked, g.actor, g.quarantineNow)), g.quarantineNow)
    ensures Achieves(db, d, b, limit, g.quarantineNow)
  {
    if |b.picked| + |b.claims| == 0 {
      assert QuarantineSteps(b.picked, g.actor, g.quarantineNow) == [];
      BusyWhenHasMore(db, d, g, b, idle, limit);
    }
  }

  // The response of a valid request: the tables are those of one run, whose turns went as told; the
  // counters are exact and conserve the claims; has_more says whether work is left.
  ghost predicate Reports(db: Db, d: Db, g: Setting, b: Batch, idle: bool, last: seq<Step>, r: Response, limit: nat,
                          hasMoreNow: Time) {
    && r.Processed? && Tallied(b, r.claimed, r.completed, r.failed, r.manualReview)
    && |b.claims| <= |g.turns| && (idle ==> |b.claims| < |g.turns|)
    && d == Run(db, AllSteps(g, b, idle, last)) && SagasInv(d)
    && AllTold(db, g, b)
    && r.quarantined == |b.picked| && r.quarantined + r.claimed <= limit
    && r.claimed == r.completed + r.failed + (r.manualReview - r.quarantined) + Count(b.results, Superseded)
    && (r.hasMore <==> Undone(d, hasMoreNow))
  }

  lemma LastSteps(db: Db, g: Setting, b: Batch, idle: bool, last: seq<Step>)
    requires |b.claims| <= |g.turns| && (idle ==> |b.claims| < |g.turns|)
    ensures Run(db, AllSteps(g, b, idle, last)) == Run(Run(db, AllSteps(g, b, idle, [])), last)
  {
    assert AllSteps(g, b, idle, []) + last == AllSteps(g, b, idle, last);
    RunAppend(db, AllSteps(g, b, idle, []), last);
  }

  lemma Conserved(b: Batch, claimed: nat, completed: nat, failed: nat, manualReview: nat)
    requires Tallied(b, claimed, completed, failed, manualReview)
    ensures claimed == completed + failed + (manualReview - |b.picked|) + Count(b.results, Superseded)
  {
    CountsAll(b.results);
  }

  lemma ReportsAll(db: Db, middle: Db, d: Db, g: Setting, b: Batch, idle: bool, last: seq<Step>, r: Response,
                   limit: nat, hasMoreNow: Time)
    requires |b.claims| == |b.results| <= |g.turns| && (idle ==> |b.claims| < |g.turns|)
    requires middle == Run(db, AllSteps(g, b, idle, [])) && AllTold(db, g, b) && |b.picked| + |b.claims| <= limit
    requires d == Run(middle, last) && SagasInv(d)
    requires r.Processed? && Tallied(b, r.claimed, r.completed, r.failed, r.manualReview) && r.quarantined == |b.picked|
    requires r.hasMore <==> Undone(d, hasMoreNow)
    ensures Reports(db, d, g, b, idle, last, r, limit, hasMoreNow)
  {
    LastSteps(db, g, b, idle, last);
    Conserved(b, r.claimed, r.completed, r.failed, r.manualReview);
  }

  lemma DoneReports(db: Db, middle: Db, d: Db, g: Setting, b: Batch, idle: bool, last: seq<Step>, r: Response,
                    limit: nat, hasMoreNow: Time)
    requires TurnsDone(db, middle, g, b, idle, limit) && d == Run(middle, last) && SagasInv(d)
    requires r.Processed? && Tallied(b, r.claimed, r.completed, r.failed, r.manualReview) && r.quarantined == |b.picked|
    requires r.hasMore <==> Undone(d, hasMoreNow)
    ensures Reports(db, d, g, b, idle, last, r, limit, hasMoreNow)
  {
    ReportsAll(db, middle, d, g, b, idle, last, r, limit, hasMoreNow);
  }

  // How a valid request ends: as reported, and undisturbed with all that a batch achieves.
  ghost predicate Concludes(db: Db, d: Db, g: Setting, b: Batch, idle: bool, last: seq<Step>, r: Response, limit: nat,
                            hasMoreNow: Time) {
    && Reports(db, d, g, b, idle, last, r, limit, hasMoreNow)
    && (Quiet(g.turns, |g.turns|) && last == [] ==> Achieves(db, d, b, limit, g.quarantineNow))
  }

  lemma BatchReports(db: Db, middle: Db, d: Db, g: Setting, b: Batch, idle: bool, last: seq<Step>, r: Response,
                     limit: nat, hasMoreNow: Time)
    requires SagasInv(db) && TurnsDone(db, middle, g, b, idle, limit) && limit > 0
    requires d == Run(middle, last) && SagasInv(d)
    requires |b.picked| < limit ==>
              NoneExpired(Run(db, QuarantineSteps(b.picked, g.actor, g.quarantineNow)), g.quarantineNow)
    requires r.Processed? && Tallied(b, r.claimed, r.completed, r.failed, r.manualReview) && r.quarantined == |b.picked|
    requires r.hasMore <==> Undone(d, hasMoreNow)
    ensures Concludes(db, d, g, b, idle, last, r, limit, hasMoreNow)
  {
    DoneReports(db, middle, d, g, b, idle, last, r, limit, hasMoreNow);
    if Quiet(g.turns, |g.turns|) {
      BatchAchieves(db, middle, g, b, idle, limit);
    }
  }

  /* ---------- The counters, by what became of the claimed rows ---------- */

  // The tables that turn k's finalization found, and those it left.
  function FinalizeFound(db: Db, g: Setting, b: Batch, k: nat): Db
    requires k < |b.claims| <= |g.turns|
  {
    var d := Run(TurnStart(db, g, b, k), g.turns[k].before);
    Run(ClaimedTables(d, ClaimOf(g.turns[k], b.claims[k].provisioningId, g.actor, g.leaseSeconds)), g.turns[k].during)
  }

  function FinalizeLeft(db: Db, g: Setting, b: Batch, k: nat): Db
    requires k < |b.claims| <= |g.turns|
  {
    TurnAnswer(Run(TurnStart(db, g, b, k), g.turns[k].before), g.turns[k], b.claims[k], g.actor, g.leaseSeconds).db
  }

  // Turn k's record still held its row at the end, and left it in one of these states.
  predicate TurnLeft(db: Db, g: Setting, b: Batch, k: nat, states: set<State>)
    requires k < |b.claims| <= |g.turns|
  {
    HoldsLease(FinalizeFound(db, g, b, k), b.claims[k]) && RowIn(FinalizeLeft(db, g, b, k), b.claims[k], states)
  }

  // How many of the first n turns left their row in one of these states.
  function LeftIn(db: Db, g: Setting, b: Batch, n: nat, states: set<State>): nat
    requires n <= |b.claims| <= |g.turns|
  {
    if n == 0 then 0 else LeftIn(db, g, b, n - 1, states) + if TurnLeft(db, g, b, n - 1, states) then 1 else 0
  }

  // A turn's claim leases its row for leaseSeconds from the turn's clock.
  lemma TurnLeases(db: Db, turn: Turn, record: EffectRecord, actor: string, leaseSeconds: nat)
    requires ClaimedFrom(db, record, turn.fence)
    ensures LeasedUntil(ClaimedTables(db, ClaimOf(turn, record.provisioningId, actor, leaseSeconds)).sagas, record,
                        turn.clock + leaseSeconds * 1_000_000)
  {
    var p := record.provisioningId;
    var i := ClaimPick(db.sagas[p]).value;
    assert LeasedRow(ClaimedTables(db, ClaimOf(turn, p, actor, leaseSeconds)).sagas[p].effects[i], record,
                     turn.clock + leaseSeconds * 1_000_000);
  }

  // A claim keeps the invariant, whatever its token.
  lemma ClaimKeepsInv(db: Db, claim: Step)
    requires claim.ClaimStep? && SagasInv(db) && DueAt(db, claim.claimed)
    ensures SagasInv(ClaimedTables(db, claim))
  {
    var p := claim.claimed;
    InvAt(db, p);
    ClaimStepped(p, db.sagas[p], claim.fence, claim.until, claim.actor, claim.now);
    PutSagasInv(db, p, ClaimSaga(db.sagas[p], ClaimPick(db.sagas[p]).value, claim.fence, claim.until, claim.actor,
                                 claim.now));
  }

  lemma ClaimedIsIssued(db: Db, record: EffectRecord, claim: Step, during: seq<Step>)
    requires claim.ClaimStep? && claim.claimed == record.provisioningId && ClaimedFrom(db, record, claim.fence)
    requires SagasInv(db)
    ensures var found := Run(ClaimedTables(db, claim), during); SagasInv(found) && Issued(found, record)
  {
    DueWhenClaimed(db, record, claim.fence);
    ClaimKeepsInv(db, claim);
    ClaimIsHeld(db, claim, record);
    RunStaysInv(ClaimedTables(db, claim), during);
    StaysIssued(ClaimedTables(db, claim), during, record);
  }

  lemma TurnMeans(d: Db, turn: Turn, record: EffectRecord, actor: string, leaseSeconds: nat, result: FinalizeResult)
    requires SagasInv(d) && ClaimedFrom(d, record, turn.fence)
    requires TurnAnswer(d, turn, record, actor, leaseSeconds).answer == Answered(result)
    ensures EndsAs(Run(ClaimedTables(d, ClaimOf(turn, record.provisioningId, actor, leaseSeconds)), turn.during),
                   TurnAnswer(d, turn, record, actor, leaseSeconds).db, record, result)
  {
    var claim := ClaimOf(turn, record.provisioningId, actor, leaseSeconds);
    ClaimedIsIssued(d, record, claim, turn.during);
    OutcomeFits(record, turn.answers);
    AnswerMeans(Run(ClaimedTables(d, claim), turn.during), record, ExecuteEffect(record, turn.answers), actor,
                turn.finalizeNow);
  }

  // A turn's result is the one its row's state stands for.
  lemma ToldMeans(db: Db, g: Setting, b: Batch, k: nat)
    requires SagasInv(db) && k < |b.claims| == |b.results| <= |g.turns| && TurnTold(db, g, b, k)
    ensures EndsAs(FinalizeFound(db, g, b, k), FinalizeLeft(db, g, b, k), b.claims[k], b.results[k])
  {
    var steps := BatchSteps(g, b.picked, b.claims[..k]);
    RunStaysInv(db, steps);
    RunStaysInv(Run(db, steps), g.turns[k].before);
    TurnMeans(Run(TurnStart(db, g, b, k), g.turns[k].before), g.turns[k], b.claims[k], g.actor, g.leaseSeconds,
              b.results[k]);
  }

  predicate MeansStates(result: FinalizeResult, states: set<State>) {
    match result
    case ResultApplied => states == {Applied, Compensated}
    case ResultFailed => states == {Failed}
    case ResultManualReview => states == {Unknown}
    case Superseded => false
  }

  lemma {:induction false} CountsStates(db: Db, g: Setting, b: Batch, n: nat, result: FinalizeResult,
                                        states: set<State>)
    requires SagasInv(db) && n <= |b.claims| == |b.results| <= |g.turns| && AllTold(db, g, b)
    requires MeansStates(result, states)
    ensures Count(b.results[..n], result) == LeftIn(db, g, b, n, states)
  {
    if n > 0 {
      CountsStates(db, g, b, n - 1, result, states);
      CountAppend(b.results[..n - 1], b.results[n - 1], result);
      assert b.results[..n] == b.results[..n - 1] + [b.results[n - 1]];
      ResultIsState(db, g, b, n - 1, result, states);
    }
  }

  lemma ResultIsState(db: Db, g: Setting, b: Batch, k: nat, result: FinalizeResult, states: set<State>)
    requires SagasInv(db) && k < |b.claims| == |b.results| <= |g.turns| && AllTold(db, g, b)
    requires MeansStates(result, states)
    ensures b.results[k] == result <==> TurnLeft(db, g, b, k, states)
  {
    assert TurnTold(db, g, b, k);
    ToldMeans(db, g, b, k);
  }

  // The counters are the numbers of claimed rows that ended applied or compensated, failed, and
  // unknown; manual reviews also count the quarantined sagas.
  predicate CountsRows(db: Db, g: Setting, b: Batch, r: Response) {
    && r.Processed? && r.claimed == |b.claims| <= |g.turns|
    && r.completed == LeftIn(db, g, b, |b.claims|, {Applied, Compensated})
    && r.failed == LeftIn(db, g, b, |b.claims|, {Failed})
    && r.manualReview == |b.picked| + LeftIn(db, g, b, |b.claims|, {Unknown})
  }

  lemma TalliesRows(db: Db, g: Setting, b: Batch, r: Response)
    requires SagasInv(db) && |b.claims| == |b.results| <= |g.turns| && AllTold(db, g, b)
    requires r.Processed? && Tallied(b, r.claimed, r.completed, r.failed, r.manualReview)
    ensures CountsRows(db, g, b, r)
  {
    CountsStates(db, g, b, |b.claims|, ResultApplied, {Applied, Compensated});
    CountsStates(db, g, b, |b.claims|, ResultFailed, {Failed});
    CountsStates(db, g, b, |b.claims|, ResultManualReview, {Unknown});
    assert b.results[..|b.claims|] == b.results;
  }

  lemma ReportsRows(db: Db, d: Db, g: Setting, b: Batch, idle: bool, last: seq<Step>, r: Response, limit: nat,
                    hasMoreNow: Time)
    requires SagasInv(db) && Reports(db, d, g, b, idle, last, r, limit, hasMoreNow)
    ensures CountsRows(db, g, b, r)
  {
    TalliesRows(db, g, b, r);
  }

  // A valid request never fails and is answered as reported, whatever everyone else commits between
  // the batch's transactions.
  method ProcessDue(store: Store, actor: string, limit: int, leaseSeconds: int, quarantineNow: Time,
                    turns: seq<Turn>, last: seq<Step>, hasMoreNow: Time)
    returns (r: Response, ghost b: Batch, ghost idle: bool)
    requires SagasInv(store.Contents()) && FreshTokens(store.Contents(), turns)
    requires limit <= |turns|
    modifies store
    ensures r.InvalidRequest? <==> limit < 1 || limit > 100 || leaseSeconds < 5 || leaseSeconds > 300
    ensures r.InvalidRequest? ==> store.Contents() == old(store.Contents())
    ensures Acceptable(limit, leaseSeconds) ==>
              Reports(old(store.Contents()), store.Contents(), Setting(actor, leaseSeconds, quarantineNow, turns),
                      b, idle, last, r, limit, hasMoreNow)
    ensures Acceptable(limit, leaseSeconds) && Quiet(turns, |turns|) && last == [] ==>
              Achieves(old(store.Contents()), store.Contents(), b, limit, quarantineNow)
    ensures Acceptable(limit, leaseSeconds) ==>
              CountsRows(old(store.Contents()), Setting(actor, leaseSeconds, quarantineNow, turns), b, r)
    ensures SagasInv(store.Contents())
  {
    b, idle := Batch([], [], []), false;
    if !Acceptable(limit, leaseSeconds) {
      return InvalidRequest, b, idle;
    }
    ghost var db := store.Contents();
    r, b, idle := ProcessBatch(store, Setting(actor, leaseSeconds, quarantineNow, turns), limit, last, hasMoreNow);
    ReportsRows(db, store.Contents(), Setting(actor, leaseSeconds, quarantineNow, turns), b, idle, last, r, limit,
                hasMoreNow);
  }

  method QuarantineFirst(store: Store, g: Setting, limit: nat)
    returns (failure: Option<string>, quarantined: nat, ghost picked: seq<Uuid>)
    requires SagasInv(store.Contents()) && FreshTokens(store.Contents(), g.turns)
    modifies store
    ensures failure.None? && quarantined == |picked| <= limit
    ensures BatchInv(old(store.Contents()), store.Contents(), g, Batch(picked, [], []))
    ensures store.Contents() == Run(old(store.Contents()), QuarantineSteps(picked, g.actor, g.quarantineNow))
    ensures quarantined < limit ==> NoneExpired(store.Contents(), g.quarantineNow)
  {
    ghost var db := store.Contents();
    failure, quarantined := None, 0;
    var reply;
    reply, picked := store.QuarantineExpired(g.actor, limit, g.quarantineNow);
    QuarantineNeverBreaks(db, picked, g.actor, g.quarantineNow);
    match reply {
      case QuarantineBroken(detail) =>
        failure := Some(detail);
      case Quarantined(count) =>
        quarantined := count;
        BatchBegins(db, g, picked);
    }
  }

  // The closing read, after whatever everyone else commits before it.
  method ReadHasMore(store: Store, last: seq<Step>, now: Time) returns (more: bool)
    requires SagasInv(store.Contents())
    modifies store
    ensures store.Contents() == Run(old(store.Contents()), last) && SagasInv(store.Contents())
    ensures more <==> Undone(store.Contents(), now)
  {
    RunStaysInv(store.Contents(), last);
    Others(store, last);
    more := store.HasMoreWork(now);
  }

  method ProcessBatch(store: Store, g: Setting, limit: nat, last: seq<Step>, hasMoreNow: Time)
    returns (r: Response, ghost b: Batch, ghost idle: bool)
    requires SagasInv(store.Contents()) && FreshTokens(store.Contents(), g.turns)
    requires 0 < limit <= |g.turns|
    modifies store
    ensures Concludes(old(store.Contents()), store.Contents(), g, b, idle, last, r, limit, hasMoreNow)
  {
    ghost var db := store.Contents();
    b, idle := Batch([], [], []), false;
    var failure, quarantined, picked := QuarantineFirst(store, g, limit);
    match failure {
      case Some(detail) =>
        r := StorageFailure(detail);
      case None =>
        r, b, idle := ProcessRest(store, db, g, picked, quarantined, limit, last, hasMoreNow);
    }
  }

  // The rest of the batch, once its quarantines are committed.
  method ProcessRest(store: Store, ghost db: Db, g: Setting, ghost picked: seq<Uuid>, quarantined: nat, limit: nat,
                     last: seq<Step>, hasMoreNow: Time)
    returns (r: Response, ghost b: Batch, ghost idle: bool)
    requires quarantined == |picked| <= limit && 0 < limit <= |g.turns| && DistinctTokens(g.turns) && SagasInv(db)
    requires BatchInv(db, store.Contents(), g, Batch(picked, [], []))
    requires store.Contents() == Run(db, QuarantineSteps(picked, g.actor, g.quarantineNow))
    requires quarantined < limit ==> NoneExpired(store.Contents(), g.quarantineNow)
    modifies store
    ensures Concludes(db, store.Contents(), g, b, idle, last, r, limit, hasMoreNow)
  {
    var failure, claimed, completed, failed, manualReview;
    failure, claimed, completed, failed, manualReview, b, idle :=
      ProcessTurns(store, db, g, picked, quarantined, limit);
    match failure {
      case Some(detail) =>
        r := StorageFailure(detail);
      case None =>
        ghost var middle := store.Contents();
        var hasMore := ReadHasMore(store, last, hasMoreNow);
        r := Processed(claimed, completed, failed, manualReview, quarantined, hasMore);
        BatchReports(db, middle, store.Contents(), g, b, idle, last, r, limit, hasMoreNow);
    }
  }
}
