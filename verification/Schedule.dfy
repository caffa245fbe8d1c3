/** The documented calling loop: process_due again and again, while it answers has_more. */
module Schedule {
  import opened Options
  import opened Keys
  import opened Rows
  import opened Sagas
  import opened Database
  import opened Runs
  import opened Progress
  import opened Storage
  import opened Worker

  // What one call of process_due meets.
  datatype Call = Call(quarantineNow: Time, turns: seq<Turn>, hasMoreNow: Time)

  // Undisturbed calls, one after the other: clocks never go back, and tokens are never drawn twice.
  predicate Orderly(calls: seq<Call>, limit: int) {
    && (forall i | 0 <= i < |calls| :: limit <= |calls[i].turns| && Quiet(calls[i].turns, |calls[i].turns|))
    && (forall i | 0 <= i < |calls| :: calls[i].quarantineNow <= calls[i].hasMoreNow)
    && (forall i, j | 0 <= i < j < |calls| :: calls[i].hasMoreNow <= calls[j].quarantineNow)
    && (forall i, j | 0 <= i < j < |calls| :: OtherTokens(calls[i].turns, calls[j].turns))
  }

  predicate FreshCalls(db: Db, calls: seq<Call>, n: nat) {
    forall i | n <= i < |calls| :: FreshTokens(db, calls[i].turns)
  }

  predicate OtherTokens(turns: seq<Turn>, later: seq<Turn>) {
    forall i, j | 0 <= i < |turns| && 0 <= j < |later| :: turns[i].fence != later[j].fence
  }

  /* ---------- Time and work between two calls ---------- */

  // Work does not go away by waiting.
  lemma HasMoreLater(db: Db, earlier: Time, later: Time)
    requires HasMore(db, earlier) && earlier <= later
    ensures HasMore(db, later)
  {
    var p :| p in db.sagas && SagaHasMore(db.sagas[p], earlier);
    var i :| 0 <= i < |db.sagas[p].effects| && RowHasMore(db.sagas[p].row.status, db.sagas[p].effects[i], earlier);
    assert RowHasMore(db.sagas[p].row.status, db.sagas[p].effects[i], later);
    assert SagaHasMore(db.sagas[p], later);
  }

  lemma {:induction false} OpenRowWeighs(es: seq<Effect>, i: nat)
    requires i < |es| && es[i].state in {Pending, InFlight}
    ensures Weight(es) > 0
  {
    if i < |es| - 1 { OpenRowWeighs(es[..|es| - 1], i); }
  }

  // Where there is work there is weight.
  lemma HasMoreWeighs(db: Db, now: Time)
    requires HasMore(db, now)
    ensures TotalWeight(db.sagas) > 0
  {
    var p :| p in db.sagas && SagaHasMore(db.sagas[p], now);
    var i :| 0 <= i < |db.sagas[p].effects| && RowHasMore(db.sagas[p].row.status, db.sagas[p].effects[i], now);
    OpenRowWeighs(db.sagas[p].effects, i);
    TotalWithout(Weights(db.sagas), p);
  }

  /* ---------- Tokens between two calls ---------- */

  lemma {:induction false} BatchAvoids(g: Setting, picked: seq<Uuid>, claims: seq<EffectRecord>, fence: Uuid)
    requires |claims| <= |g.turns| && Quiet(g.turns, |g.turns|)
    requires forall i | 0 <= i < |g.turns| :: g.turns[i].fence != fence
    ensures Avoids(BatchSteps(g, picked, claims), fence)
    decreases |claims|
  {
    if |claims| > 0 {
      var n := |claims| - 1;
      BatchAvoids(g, picked, claims[..n], fence);
      TurnAvoids(g.turns[n], Some(claims[n]), g.actor, g.leaseSeconds, fence);
    }
  }

  lemma CallKeepsFresh(db: Db, g: Setting, b: Batch, idle: bool, later: seq<Turn>)
    requires SagasInv(db) && FreshTokens(db, later) && OtherTokens(g.turns, later)
    requires Quiet(g.turns, |g.turns|) && |b.claims| <= |g.turns| && (idle ==> |b.claims| < |g.turns|)
    ensures FreshTokens(Run(db, AllSteps(g, b, idle, [])), later)
  {
    var steps := AllSteps(g, b, idle, []);
    forall j | 0 <= j < |later|
      ensures FreshFence(Run(db, steps), later[j].fence)
    {
      BatchAvoids(g, b.picked, b.claims, later[j].fence);
      assert steps == BatchSteps(g, b.picked, b.claims);
      RunKeepsFresh(db, steps, later[j].fence);
    }
  }

  lemma CallsStayFresh(db: Db, d: Db, g: Setting, b: Batch, idle: bool, r: Response, limit: nat, calls: seq<Call>,
                       n: nat)
    requires SagasInv(db) && n < |calls| && g.turns == calls[n].turns && Quiet(g.turns, |g.turns|)
    requires Reports(db, d, g, b, idle, [], r, limit, calls[n].hasMoreNow)
    requires FreshCalls(db, calls, n + 1)
    requires forall j | n < j < |calls| :: OtherTokens(g.turns, calls[j].turns)
    ensures FreshCalls(d, calls, n + 1)
  {
    forall j | n < j < |calls|
      ensures FreshTokens(d, calls[j].turns)
    {
      CallKeepsFresh(db, g, b, idle, calls[j].turns);
    }
  }

  /* ---------- The loop ---------- */

  // A call leaves no more to do than it found, and less when the call before it left work.
  lemma CallAdvances(db: Db, d: Db, b: Batch, limit: nat, calls: seq<Call>, n: nat)
    requires SagasInv(db) && n < |calls| && Orderly(calls, limit)
    requires Achieves(db, d, b, limit, calls[n].quarantineNow)
    ensures TotalWeight(d.sagas) <= TotalWeight(db.sagas)
    ensures n > 0 && Undone(db, calls[n - 1].hasMoreNow) ==> TotalWeight(d.sagas) < TotalWeight(db.sagas)
  {
    if n > 0 && Undone(db, calls[n - 1].hasMoreNow) {
      HasMoreExact(db, calls[n - 1].hasMoreNow);
      HasMoreLater(db, calls[n - 1].hasMoreNow, calls[n].quarantineNow);
    }
  }

  lemma CallAnswers(db: Db, d: Db, g: Setting, b: Batch, idle: bool, r: Response, limit: nat, now: Time)
    requires Reports(db, d, g, b, idle, [], r, limit, now)
    ensures r.Processed? && (r.hasMore <==> Undone(d, now))
  {
  }

  // What one call does for the loop.
  lemma CallEnds(db: Db, d: Db, g: Setting, b: Batch, idle: bool, r: Response, limit: nat, calls: seq<Call>, n: nat)
    requires SagasInv(db) && Orderly(calls, limit) && n < |calls| && FreshCalls(db, calls, n + 1)
    requires g.turns == calls[n].turns
    requires Reports(db, d, g, b, idle, [], r, limit, calls[n].hasMoreNow)
    requires Achieves(db, d, b, limit, calls[n].quarantineNow)
    ensures FreshCalls(d, calls, n + 1) && r.Processed? && (r.hasMore <==> Undone(d, calls[n].hasMoreNow))
    ensures TotalWeight(d.sagas) <= TotalWeight(db.sagas)
    ensures n > 0 && Undone(db, calls[n - 1].hasMoreNow) ==> TotalWeight(d.sagas) < TotalWeight(db.sagas)
  {
    CallsStayFresh(db, d, g, b, idle, r, limit, calls, n);
    CallAnswers(db, d, g, b, idle, r, limit, calls[n].hasMoreNow);
    CallAdvances(db, d, b, limit, calls, n);
  }

  lemma UndoneWeighs(db: Db, now: Time)
    requires SagasInv(db) && Undone(db, now)
    ensures TotalWeight(db.sagas) > 0
  {
    HasMoreExact(db, now);
    HasMoreWeighs(db, now);
  }

  // Call n of the loop.
  method CallOnce(store: Store, actor: string, limit: int, leaseSeconds: int, calls: seq<Call>, n: nat)
    returns (more: bool)
    requires Acceptable(limit, leaseSeconds) && SagasInv(store.Contents())
    requires Orderly(calls, limit) && n < |calls| && FreshCalls(store.Contents(), calls, n)
    modifies store
    ensures SagasInv(store.Contents()) && FreshCalls(store.Contents(), calls, n + 1)
    ensures more <==> Undone(store.Contents(), calls[n].hasMoreNow)
    ensures TotalWeight(store.sagas) <= TotalWeight(old(store.sagas))
    ensures n > 0 && Undone(old(store.Contents()), calls[n - 1].hasMoreNow) ==>
              TotalWeight(store.sagas) < TotalWeight(old(store.sagas))
  {
    ghost var db := store.Contents();
    var call := calls[n];
    var r, b, idle := ProcessDue(store, actor, limit, leaseSeconds, call.quarantineNow, call.turns, [],
                                 call.hasMoreNow);
    CallEnds(db, store.Contents(), Setting(actor, leaseSeconds, call.quarantineNow, call.turns), b, idle, r, limit,
             calls, n);
    more := r.hasMore;
  }

  // Without interference, calling process_due while it answers has_more comes to an end: after at
  // most one call more than the tables weigh there is nothing left that a claim or a quarantine
  // would find.
  method ProcessUntilDone(store: Store, actor: string, limit: int, leaseSeconds: int, calls: seq<Call>)
    returns (made: nat)
    requires Acceptable(limit, leaseSeconds) && SagasInv(store.Contents())
    requires Orderly(calls, limit) && FreshCalls(store.Contents(), calls, 0)
    requires |calls| > TotalWeight(store.sagas)
    modifies store
    ensures 0 < made <= |calls| && made <= TotalWeight(old(store.sagas)) + 1
    ensures SagasInv(store.Contents()) && !Undone(store.Contents(), calls[made - 1].hasMoreNow)
  {
    var more := CallOnce(store, actor, limit, leaseSeconds, calls, 0);
    made := 1;
    while more
      invariant 0 < made <= |calls| && SagasInv(store.Contents()) && FreshCalls(store.Contents(), calls, made)
      invariant made + TotalWeight(store.sagas) <= TotalWeight(old(store.sagas)) + 1
      invariant more <==> Undone(store.Contents(), calls[made - 1].hasMoreNow)
      decreases |calls| - made
    {
      UndoneWeighs(store.Contents(), calls[made - 1].hasMoreNow);
      more := CallOnce(store, actor, limit, leaseSeconds, calls, made);
      made := made + 1;
    }
  }
}
