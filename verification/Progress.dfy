/** How far the worker can go: a measure for its steps, a bound on claims, and has_more. */
module Progress {
  import opened Keys
  import opened Rows
  import opened Sagas
  import opened Invariant
  import opened Preservation
  import opened Database
  import opened Runs
  import opened Reach
  import opened Histories

  /* ---------- has_more ---------- */

  // has_more ignores effect kinds; claim_next and quarantine_expired do not. They agree all the
  // same, because a phase's rows are the only ones that can be pending or leased.
  lemma SagaHasMoreExact(p: Uuid, s: Saga, now: Time)
    requires SagaInv(p, s)
    ensures SagaHasMore(s, now) <==> Due(s) || HasExpired(s, now)
  {
    var k := CursorOf(p, s);
    DueAtCursor(p, s, k);
    StatusAtCursor(p, s, k);
    if SagaHasMore(s, now) && !Due(s) {
      var i :| 0 <= i < |s.effects| && RowHasMore(s.row.status, s.effects[i], now);
      PickFinds(s.effects, Expired(now), i);
    }
    if k < |s.effects| {
      assert RowHasMore(s.row.status, s.effects[k], now) ==> SagaHasMore(s, now);
    }
  }

  lemma HasMoreAt(db: Db, p: Uuid, now: Time)
    requires SagasInv(db) && p in db.sagas
    ensures SagaHasMore(db.sagas[p], now) <==> DueAt(db, p) || ExpiredAt(db, p, now)
  {
    InvAt(db, p);
    SagaHasMoreExact(p, db.sagas[p], now);
  }

  // Some claim or quarantine would find something to do.
  predicate Undone(db: Db, now: Time) {
    exists p :: p in db.sagas && (DueAt(db, p) || ExpiredAt(db, p, now))
  }

  lemma HasMoreExact(db: Db, now: Time)
    requires SagasInv(db)
    ensures HasMore(db, now) <==> Undone(db, now)
  {
    if HasMore(db, now) {
      var p :| p in db.sagas && SagaHasMore(db.sagas[p], now);
      HasMoreAt(db, p, now);
    }
    if Undone(db, now) {
      var p :| p in db.sagas && (DueAt(db, p) || ExpiredAt(db, p, now));
      HasMoreAt(db, p, now);
    }
  }

  /* ---------- A measure of the work left ---------- */

  function RowWeight(state: State): nat {
    if state == Pending then 2 else if state == InFlight then 1 else 0
  }

  // Twice the pending rows plus the leased ones.
  function Weight(es: seq<Effect>): nat {
    if |es| == 0 then 0 else Weight(es[..|es| - 1]) + RowWeight(es[|es| - 1].state)
  }

  lemma {:induction false} WeightUpdate(es: seq<Effect>, k: nat, e: Effect)
    requires k < |es|
    ensures Weight(es[k := e]) == Weight(es) - RowWeight(es[k].state) + RowWeight(e.state)
  {
    var n := |es| - 1;
    if k == n {
      assert es[k := e][..n] == es[..n];
    } else {
      assert es[k := e][..n] == es[..n][k := e];
      WeightUpdate(es[..n], k, e);
    }
  }

  ghost function Choose(weights: map<Uuid, nat>): (p: Uuid)
    requires |weights| > 0
    ensures p in weights
  {
    var p :| p in weights;
    p
  }

  ghost function Total(weights: map<Uuid, nat>): nat
    decreases |weights|
  {
    if |weights| == 0 then 0 else
    var p := Choose(weights);
    Smaller(weights, p);
    weights[p] + Total(weights - {p})
  }

  lemma Smaller(weights: map<Uuid, nat>, p: Uuid)
    requires p in weights
    ensures |weights - {p}| < |weights|
  {
    assert weights.Keys - {p} == (weights - {p}).Keys;
  }

  lemma {:induction false} TotalWithout(weights: map<Uuid, nat>, p: Uuid)
    requires p in weights
    ensures Total(weights) == weights[p] + Total(weights - {p})
    decreases |weights|
  {
    var q := Choose(weights);
    if q != p {
      Smaller(weights, q);
      Smaller(weights, p);
      var both := weights - {q} - {p};
      assert both == weights - {p} - {q};
      TotalWithout(weights - {q}, p);
      TotalWithout(weights - {p}, q);
    }
  }

  function Weights(sagas: map<Uuid, Saga>): map<Uuid, nat> {
    map p | p in sagas :: Weight(sagas[p].effects)
  }

  // Total weight of all effect rows.
  ghost function TotalWeight(sagas: map<Uuid, Saga>): nat {
    Total(Weights(sagas))
  }

  lemma TotalUpdate(sagas: map<Uuid, Saga>, p: Uuid, t: Saga)
    requires p in sagas
    ensures TotalWeight(sagas[p := t]) == TotalWeight(sagas) - Weight(sagas[p].effects) + Weight(t.effects)
  {
    var before, after := Weights(sagas), Weights(sagas[p := t]);
    assert after == before[p := Weight(t.effects)];
    TotalReplace(before, p, Weight(t.effects));
  }

  lemma TotalReplace(weights: map<Uuid, nat>, p: Uuid, w: nat)
    requires p in weights
    ensures Total(weights[p := w]) == Total(weights) - weights[p] + w
  {
    TotalWithout(weights, p);
    TotalWithout(weights[p := w], p);
    assert weights[p := w] - {p} == weights - {p};
  }

  predicate WorkerStep(step: Step) {
    step.ClaimStep? || step.FinalizeStep? || step.QuarantineStep?
  }

  // The rows a worker's event may write are lighter than the row it found.
  lemma MovedWeight(s: Saga, t: Saga, k: nat)
    requires MovedBy(s, t, k) && !LastRow(t).event.ProvisioningRetried?
    ensures Weight(t.effects) < Weight(s.effects)
  {
    WeightUpdate(s.effects, k, t.effects[k]);
  }

  predicate WorkerEvent(event: Event) {
    !event.ProvisioningRetried? && !event.CleanupRequested?
  }

  lemma WorkerChange(db: Db, step: Step)
    requires WorkerStep(step) && Enabled(db, step) && Next(db, step) != db
    ensures var p, d := Target(step), Next(db, step);
            p in db.sagas && p in d.sagas && d.sagas == db.sagas[p := d.sagas[p]]
            && d.mutations == db.mutations && |d.sagas[p].log| > 0 && WorkerEvent(LastRow(d.sagas[p]).event)
  {
  }

  lemma SteppedWeight(p: Uuid, s: Saga, t: Saga)
    requires Stepped(p, s, t) && |t.log| > 0 && WorkerEvent(LastRow(t).event)
    ensures Weight(t.effects) < Weight(s.effects)
  {
    var k: nat :| Shaped(s, k) && MovedBy(s, t, k);
    MovedWeight(s, t, k);
  }

  // Every claim, finalization and quarantine that changes anything leaves less work.
  lemma WorkerStepDrops(db: Db, step: Step)
    requires TargetInv(db, step) && WorkerStep(step) && Next(db, step) != db
    ensures TotalWeight(Next(db, step).sagas) < TotalWeight(db.sagas)
  {
    var p, d := Target(step), Next(db, step);
    WorkerChange(db, step);
    NextStepped(db, step, p);
    SteppedWeight(p, db.sagas[p], d.sagas[p]);
    TotalUpdate(db.sagas, p, d.sagas[p]);
  }

  // A run of worker steps in which every step changes something.
  predicate BusyWorkers(db: Db, steps: seq<Step>) {
    |steps| == 0 ||
    (var n := |steps| - 1;
     BusyWorkers(db, steps[..n]) && WorkerStep(steps[n]) && Run(db, steps) != Run(db, steps[..n]))
  }

  // Without new requests the workers stop: they can take at most as many steps as the tables
  // weigh.
  lemma {:induction false} WorkersStop(db: Db, steps: seq<Step>)
    requires SagasInv(db) && BusyWorkers(db, steps)
    ensures |steps| + TotalWeight(Run(db, steps).sagas) <= TotalWeight(db.sagas)
  {
    if |steps| > 0 {
      var n := |steps| - 1;
      WorkersStop(db, steps[..n]);
      RunStaysInv(db, steps[..n]);
      TargetFromAll(Run(db, steps[..n]), steps[n]);
      WorkerStepDrops(Run(db, steps[..n]), steps[n]);
    }
  }

  /* ---------- A bound on claims ---------- */

  function PendingRows(es: seq<Effect>): nat {
    if |es| == 0 then 0 else PendingRows(es[..|es| - 1]) + if es[|es| - 1].state == Pending then 1 else 0
  }

  function ClaimRows(log: seq<Activity>): nat {
    if |log| == 0 then 0 else ClaimRows(log[..|log| - 1]) + if log[|log| - 1].event.EffectClaimed? then 1 else 0
  }

  function RetryRows(log: seq<Activity>): nat {
    if |log| == 0 then 0 else RetryRows(log[..|log| - 1]) + if log[|log| - 1].event.ProvisioningRetried? then 1 else 0
  }

  // Every claim used up a pending row; only retries and cleanup's new rows bring pending rows back.
  predicate Budgeted(s: Saga) {
    ClaimRows(s.log) + PendingRows(s.effects) <= |s.effects| + RetryRows(s.log)
  }

  lemma {:induction false} PendingUpdate(es: seq<Effect>, k: nat, e: Effect)
    requires k < |es|
    ensures PendingRows(es[k := e]) ==
            PendingRows(es) - (if es[k].state == Pending then 1 else 0) + if e.state == Pending then 1 else 0
  {
    var n := |es| - 1;
    if k == n {
      assert es[k := e][..n] == es[..n];
    } else {
      assert es[k := e][..n] == es[..n][k := e];
      PendingUpdate(es[..n], k, e);
    }
  }

  // Rows may stop being pending, and r rows may be added.
  lemma {:induction false} PendingGrowth(es: seq<Effect>, fs: seq<Effect>)
    requires |es| <= |fs|
    requires forall i | 0 <= i < |es| :: fs[i].state == Pending ==> es[i].state == Pending
    ensures PendingRows(fs) <= PendingRows(es) + (|fs| - |es|)
    decreases |fs|
  {
    if |fs| > |es| {
      PendingGrowth(es, fs[..|fs| - 1]);
    } else if |fs| > 0 {
      PendingGrowth(es[..|es| - 1], fs[..|fs| - 1]);
    }
  }

  lemma {:induction false} PendingAtMost(es: seq<Effect>)
    ensures PendingRows(es) <= |es|
  {
    if |es| > 0 { PendingAtMost(es[..|es| - 1]); }
  }

  lemma CountsAppend(log: seq<Activity>, a: Activity)
    ensures ClaimRows(log + [a]) == ClaimRows(log) + if a.event.EffectClaimed? then 1 else 0
    ensures RetryRows(log + [a]) == RetryRows(log) + if a.event.ProvisioningRetried? then 1 else 0
  {
    var l := log + [a];
    assert l[..|l| - 1] == log;
  }

  lemma MovedBudget(s: Saga, t: Saga, k: nat)
    requires MovedBy(s, t, k) && Budgeted(s)
    ensures Budgeted(t)
  {
    CountsAppend(s.log, LastRow(t));
    PendingUpdate(s.effects, k, t.effects[k]);
  }

  lemma CleanedBudget(p: Uuid, s: Saga, t: Saga)
    requires Cleans(p, s, t) && Budgeted(s)
    ensures Budgeted(t)
  {
    CountsAppend(s.log, LastRow(t));
    assert t.log == s.log + [LastRow(t)];
    CleanedPending(p, s, t);
  }

  lemma SteppedBudget(p: Uuid, s: Saga, t: Saga)
    requires Stepped(p, s, t) && Budgeted(s)
    ensures Budgeted(t)
  {
    if Moves(s, t) {
      var k: nat :| Shaped(s, k) && MovedBy(s, t, k);
      MovedBudget(s, t, k);
    } else {
      CleanedBudget(p, s, t);
    }
  }

  lemma CleanedPending(p: Uuid, s: Saga, t: Saga)
    requires Cleans(p, s, t)
    ensures |s.effects| <= |t.effects|
    ensures PendingRows(t.effects) <= PendingRows(s.effects) + (|t.effects| - |s.effects|)
  {
    var r, ids, now :| CleanedUp(p, s.effects, t.effects, r, ids, now);
    forall i | 0 <= i < |s.effects| ensures t.effects[i].state == Pending ==> s.effects[i].state == Pending {
      assert t.effects[i] == SkipRow(s.effects[i], now);
    }
    PendingGrowth(s.effects, t.effects);
  }

  ghost predicate BudgetedIn(db: Db) {
    SagasInv(db) && forall p | p in db.sagas :: Budgeted(db.sagas[p])
  }

  lemma NewBudget(t: Saga)
    requires |t.log| == 1 && t.log[0].event.ProvisioningStarted?
    ensures Budgeted(t)
  {
    PendingAtMost(t.effects);
    assert t.log[..0] == [];
  }

  lemma StartedLog(db: Db, step: Step, p: Uuid)
    requires p !in db.sagas && p in Next(db, step).sagas
    ensures |Next(db, step).sagas[p].log| == 1 && Next(db, step).sagas[p].log[0].event.ProvisioningStarted?
  {
  }

  lemma BudgetAt(db: Db, step: Step, p: Uuid)
    requires TargetInv(db, step) && p in Next(db, step).sagas
    requires p in db.sagas ==> Budgeted(db.sagas[p])
    ensures Budgeted(Next(db, step).sagas[p])
  {
    if p in db.sagas {
      NextStepped(db, step, p);
      if Next(db, step).sagas[p] != db.sagas[p] { SteppedBudget(p, db.sagas[p], Next(db, step).sagas[p]); }
    } else {
      StartedLog(db, step, p);
      NewBudget(Next(db, step).sagas[p]);
    }
  }

  lemma NextBudget(db: Db, step: Step)
    requires BudgetedIn(db)
    ensures BudgetedIn(Next(db, step))
  {
    TargetFromAll(db, step);
    NextSagasInv(db, step);
    forall p | p in Next(db, step).sagas ensures Budgeted(Next(db, step).sagas[p]) {
      BudgetAt(db, step, p);
    }
  }

  lemma ReachableBudget(db: Db)
    requires Reachable(db)
    ensures BudgetedIn(db)
  {
    var steps :| db == Run(EMPTY, steps);
    forall d, step | BudgetedIn(d) ensures BudgetedIn(Next(d, step)) {
      NextBudget(d, step);
    }
    RunInduction(EMPTY, steps, d => BudgetedIn(d));
  }

  // Over its whole life a saga with n grants is claimed at most 1 + 2n times more than it is
  // retried.
  lemma ClaimsBounded(db: Db, p: Uuid)
    requires Reachable(db) && p in db.sagas
    ensures Begun(db.sagas[p])
    ensures var s := db.sagas[p];
            ClaimRows(s.log) <= 1 + 2 * s.log[0].event.bootstrapGrants + RetryRows(s.log)
  {
    ReachableBudget(db);
    InvAt(db, p);
  }
}
