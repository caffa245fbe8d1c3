/** What holds of every saga in every reachable state, and why each operation keeps it. */
module Invariant {
  import opened Options
  import opened Keys
  import opened Rows
  import opened Sagas
  import opened Journal

  /* ---------- The invariant ---------- */

  predicate Begun(s: Saga) {
    |s.log| > 0 && s.log[0].event.ProvisioningStarted?
  }

  // Number of create and put rows: one more than the grants recorded when the saga started.
  function Split(s: Saga): nat
    requires Begun(s)
  {
    1 + s.log[0].event.bootstrapGrants
  }

  // Where the rows of the current phase begin.
  function PhaseStart(s: Saga): nat
    requires Begun(s)
  {
    if s.row.cleanupRequested then Split(s) else 0
  }

  // Row i of a saga with m create and put rows: one create, the puts by ordinal, then for the
  // first puts, in order, one revoke carrying that put's ordinal, id, grant and template.
  predicate Placed(p: Uuid, es: seq<Effect>, m: nat, i: nat)
    requires 0 < m <= |es| < 2 * m
    requires i < |es|
  {
    var e := es[i];
    && e.downstreamKey == DownstreamKey(p, e.kind, e.ordinal)
    && if i == 0 then
         e.kind == CreateOrganization && e.ordinal == 0
       else if i < m then
         e.kind == PutEntitlement && e.ordinal == i - 1
       else
         var put := es[1 + (i - m)];
         && e.kind == RevokeEntitlement && e.ordinal == i - m
         && e.sourceEffectId == Some(put.effectId)
         && e.externalId == put.externalId
         && e.subjectKind == put.subjectKind && e.feature == put.feature && e.limit == put.limit
  }

  predicate DistinctIds(es: seq<Effect>) {
    forall i, j {:trigger es[i].effectId, es[j].effectId} | 0 <= i < j < |es| :: es[i].effectId != es[j].effectId
  }

  predicate Layout(p: Uuid, s: Saga) {
    && Begun(s)
    && Split(s) <= |s.effects| < 2 * Split(s)
    && Split(s) <= 1 + MAX_GRANTS
    && (!s.row.cleanupRequested ==> |s.effects| == Split(s))
    && (forall i | 0 <= i < |s.effects| :: Placed(p, s.effects, Split(s), i))
    && DistinctIds(s.effects)
  }

  predicate EffectOk(e: Effect) {
    && EffectCheck(e)
    && (e.state in {Failed, Unknown, Skipped} <==> e.lastError.Some?)
    && (e.state == Applied ==> e.externalId.Some?)
  }

  predicate EffectsOk(s: Saga) {
    forall i {:trigger EffectOk(s.effects[i])} | 0 <= i < |s.effects| :: EffectOk(s.effects[i])
  }

  function DoneState(cleanup: bool): State { if cleanup then Compensated else Applied }

  // The prefix shape with the cursor at k: done rows, then at most one row in progress or
  // blocked, then only pending rows.
  predicate Shaped(s: Saga, k: nat)
    requires Begun(s)
  {
    && PhaseStart(s) <= k <= |s.effects|
    && (forall i | PhaseStart(s) <= i < k :: s.effects[i].state == DoneState(s.row.cleanupRequested))
    && (forall i | k < i < |s.effects| :: s.effects[i].state == Pending)
    && (k < |s.effects| ==> s.effects[k].state in {Pending, InFlight, Failed, Unknown})
  }

  // After cleanup the create and put rows are frozen: exactly the puts with a revoke are applied,
  // the others skipped, and a failed create leaves nothing to revoke.
  predicate Frozen(s: Saga)
    requires Begun(s) && Split(s) <= |s.effects|
  {
    var m := Split(s);
    s.row.cleanupRequested ==>
      && s.effects[0].state in {Applied, Failed}
      && (s.effects[0].state == Failed ==> |s.effects| == m)
      && (forall i | 0 < i < m :: s.effects[i].state == if i <= |s.effects| - m then Applied else Skipped)
  }

  ghost predicate Progress(s: Saga)
    requires Begun(s) && Split(s) <= |s.effects|
  {
    (exists k :: Shaped(s, k)) && Frozen(s)
  }

  // Some row of the phase is in this state.
  predicate Has(es: seq<Effect>, cleanup: bool, state: State) {
    exists i :: 0 <= i < |es| && Relevant(es[i], cleanup) && es[i].state == state
  }

  // The saga's status as a function of its effect rows.
  function DerivedStatus(es: seq<Effect>, cleanup: bool): Status {
    if Has(es, cleanup, InFlight) then RunningStatus(cleanup)
    else if Has(es, cleanup, Unknown) then ManualReview
    else if Has(es, cleanup, Failed) then FailedStatus(cleanup)
    else if Has(es, cleanup, Pending) then PendingStatus(cleanup)
    else CompletedStatus(cleanup)
  }

  predicate Blocked(e: Effect, cleanup: bool) {
    Relevant(e, cleanup) && e.state in {Unknown, Failed}
  }

  // The error is that of the phase's blocked rows, and there is none without one.
  predicate ErrorTold(es: seq<Effect>, cleanup: bool, error: Option<string>) {
    && (forall i | 0 <= i < |es| && Blocked(es[i], cleanup) :: error == es[i].lastError)
    && (error.Some? ==> Has(es, cleanup, Unknown) || Has(es, cleanup, Failed))
  }

  predicate Summary(s: Saga)
    requires |s.effects| > 0
  {
    var r := s.row;
    && r.status == DerivedStatus(s.effects, r.cleanupRequested)
    && ErrorTold(s.effects, r.cleanupRequested, r.lastError)
    && r.organizationResidue == r.organizationId.Some?
    && (r.organizationId.Some? <==> s.effects[0].state == Applied)
    && (r.organizationId.Some? ==> s.effects[0].externalId == r.organizationId)
    && SagaRowCheck(r)
    && r.revision == |s.log|
    && (r.status == SagaCompleted ==> r.completedAt.Some?)
    && (r.status == CleanupCompleted ==> r.cleanupCompletedAt.Some?)
  }

  // The log: revisions 1..n in order, started once, about this saga's effects only, and replaying
  // to exactly the effect rows.
  predicate JournalOk(s: Saga) {
    && (forall j | 0 <= j < |s.log| :: s.log[j].revision == j + 1)
    && (forall j | 0 < j < |s.log| :: !s.log[j].event.ProvisioningStarted?)
    && (s.row.cleanupRequested <==> ReplayCleanup(s.log))
    && (forall j | 0 <= j < |s.log| :: s.log[j].effectId.Some? ==> HasRow(s.effects, s.log[j].effectId.value))
    && (forall i {:trigger Told(s.log, s.effects[i])} | 0 <= i < |s.effects| :: Told(s.log, s.effects[i]))
  }

  predicate HasRow(es: seq<Effect>, id: Uuid) {
    exists i :: 0 <= i < |es| && es[i].effectId == id
  }

  predicate Told(log: seq<Activity>, e: Effect) {
    Replay(log, e.effectId, e.kind) == Recorded(e) && LegalLog(log, e.effectId, e.kind)
  }

  ghost predicate SagaInv(p: Uuid, s: Saga) {
    && Layout(p, s)
    && EffectsOk(s)
    && Progress(s)
    && Summary(s)
    && JournalOk(s)
  }

  lemma KindsByPlace(p: Uuid, s: Saga, i: nat)
    requires Layout(p, s) && i < |s.effects|
    ensures s.effects[i].kind ==
            if i == 0 then CreateOrganization else if i < Split(s) then PutEntitlement else RevokeEntitlement
  {
    assert Placed(p, s.effects, Split(s), i);
  }

  /* ---------- Queries at the cursor ---------- */

  lemma RelevantIffPhase(p: Uuid, s: Saga, i: nat)
    requires Layout(p, s) && i < |s.effects|
    ensures Relevant(s.effects[i], s.row.cleanupRequested) <==> PhaseStart(s) <= i
  {
    assert Placed(p, s.effects, Split(s), i);
  }

  // With nothing running or blocked, claim order and cursor agree.
  lemma ClaimIsCursor(p: Uuid, s: Saga, k: nat)
    requires Layout(p, s) && Shaped(s, k)
    requires k < |s.effects| ==> s.effects[k].state == Pending
    ensures ClaimPick(s) == if k < |s.effects| then Some(k) else None
  {
    var q := Claimable(s.row.cleanupRequested);
    if Pick(s.effects, q).Some? { ClaimFollows(p, s, k, Pick(s.effects, q).value); }
    if k < |s.effects| {
      RelevantIffPhase(p, s, k);
      PickIsFirst(s.effects, q, k);
    }
  }

  // A claimable row is the cursor row or sorts after it.
  lemma ClaimFollows(p: Uuid, s: Saga, k: nat, i: nat)
    requires Layout(p, s) && Shaped(s, k) && i < |s.effects|
    requires Eligible(s.effects[i], Claimable(s.row.cleanupRequested))
    ensures k <= i
    ensures k < i ==>
              var q := Claimable(s.row.cleanupRequested);
              Before(SortKey(s.effects[k], q), SortKey(s.effects[i], q))
  {
    RelevantIffPhase(p, s, i);
    assert Placed(p, s.effects, Split(s), i);
    if k < i { assert Placed(p, s.effects, Split(s), k); }
  }

  // The one row of the phase that is running or blocked, if any, is the cursor row.
  lemma ActiveIsCursor(p: Uuid, s: Saga, k: nat, state: State)
    requires Layout(p, s) && Shaped(s, k) && state in {InFlight, Unknown, Failed}
    ensures Has(s.effects, s.row.cleanupRequested, state) <==> k < |s.effects| && s.effects[k].state == state
  {
    forall i | 0 <= i < |s.effects| && Relevant(s.effects[i], s.row.cleanupRequested) && s.effects[i].state == state
      ensures i == k
    {
      RelevantIffPhase(p, s, i);
    }
    if k < |s.effects| { RelevantIffPhase(p, s, k); }
  }

  lemma PendingAtCursor(p: Uuid, s: Saga, k: nat)
    requires Layout(p, s) && Shaped(s, k)
    ensures k == |s.effects| ==> !Has(s.effects, s.row.cleanupRequested, Pending)
    ensures k < |s.effects| && s.effects[k].state == Pending ==> Has(s.effects, s.row.cleanupRequested, Pending)
  {
    if k < |s.effects| {
      RelevantIffPhase(p, s, k);
    } else {
      forall i | 0 <= i < |s.effects| && Relevant(s.effects[i], s.row.cleanupRequested)
        ensures s.effects[i].state != Pending
      {
        RelevantIffPhase(p, s, i);
      }
    }
  }

  // Each status pins down the cursor row.
  lemma StatusAtCursor(p: Uuid, s: Saga, k: nat)
    requires Layout(p, s) && Shaped(s, k)
    ensures DerivedStatus(s.effects, s.row.cleanupRequested) ==
            var c := s.row.cleanupRequested;
            if k == |s.effects| then CompletedStatus(c) else
            match s.effects[k].state {
              case InFlight => RunningStatus(c)
              case Unknown => ManualReview
              case Failed => FailedStatus(c)
              case _ => PendingStatus(c)
            }
  {
    ActiveIsCursor(p, s, k, InFlight);
    ActiveIsCursor(p, s, k, Unknown);
    ActiveIsCursor(p, s, k, Failed);
    PendingAtCursor(p, s, k);
  }

  function ErrorAt(s: Saga, k: nat): Option<string> {
    if k < |s.effects| && s.effects[k].state in {Unknown, Failed} then s.effects[k].lastError else None
  }

  // The one error a saga may show is that of a blocked cursor row.
  lemma ErrorAtCursor(p: Uuid, s: Saga, k: nat, error: Option<string>)
    requires Layout(p, s) && Shaped(s, k)
    ensures ErrorTold(s.effects, s.row.cleanupRequested, error) <==> error == ErrorAt(s, k)
  {
    ActiveIsCursor(p, s, k, Unknown);
    ActiveIsCursor(p, s, k, Failed);
    forall i | 0 <= i < |s.effects| && Blocked(s.effects[i], s.row.cleanupRequested)
      ensures i == k
    {
      RelevantIffPhase(p, s, i);
    }
    if k < |s.effects| { RelevantIffPhase(p, s, k); }
  }

  /* ---------- The scan ---------- */

  lemma {:induction false} FirstErrorFound(es: seq<Effect>, cleanup: bool, state: State, i: nat)
    requires i < |es| && Relevant(es[i], cleanup) && es[i].state == state && es[i].lastError.Some?
    ensures FirstError(es, cleanup, state).Some?
  {
    if i < |es| - 1 { FirstErrorFound(es[..|es| - 1], cleanup, state, i); }
  }

  lemma {:induction false} FirstErrorSource(es: seq<Effect>, cleanup: bool, state: State) returns (i: nat)
    requires FirstError(es, cleanup, state).Some?
    ensures i < |es| && Relevant(es[i], cleanup) && es[i].state == state
    ensures FirstError(es, cleanup, state) == es[i].lastError
  {
    var n := |es| - 1;
    if FirstError(es[..n], cleanup, state).Some? {
      i := FirstErrorSource(es[..n], cleanup, state);
    } else {
      i := n;
    }
  }

  // The scan goes by recorded errors; because blocked rows always carry one, that is the same as
  // going by states.
  lemma ScanSeesBlocked(es: seq<Effect>, cleanup: bool, state: State)
    requires forall i | 0 <= i < |es| :: EffectOk(es[i])
    requires state in {Failed, Unknown}
    ensures FirstError(es, cleanup, state).Some? <==> Has(es, cleanup, state)
  {
    if Has(es, cleanup, state) {
      var i :| 0 <= i < |es| && Relevant(es[i], cleanup) && es[i].state == state;
      assert EffectOk(es[i]);
      FirstErrorFound(es, cleanup, state, i);
    }
    if FirstError(es, cleanup, state).Some? {
      var i := FirstErrorSource(es, cleanup, state);
    }
  }

  lemma FirstErrorAt(es: seq<Effect>, cleanup: bool, state: State, k: nat)
    requires k < |es| && Relevant(es[k], cleanup) && es[k].state == state && es[k].lastError.Some?
    requires forall i | 0 <= i < |es| && Relevant(es[i], cleanup) && es[i].state == state :: i == k
    ensures FirstError(es, cleanup, state) == es[k].lastError
  {
    FirstErrorFound(es, cleanup, state, k);
    var i := FirstErrorSource(es, cleanup, state);
  }

  // refresh_saga_status computes the derived status whenever nothing is in flight.
  lemma ScanStatusAgrees(p: Uuid, s: Saga, k: nat)
    requires Layout(p, s) && EffectsOk(s) && Shaped(s, k)
    requires k < |s.effects| ==> s.effects[k].state != InFlight
    ensures ScanStatus(s.effects, s.row.cleanupRequested) == DerivedStatus(s.effects, s.row.cleanupRequested)
  {
    var c := s.row.cleanupRequested;
    ScanSeesBlocked(s.effects, c, Unknown);
    ScanSeesBlocked(s.effects, c, Failed);
    ActiveIsCursor(p, s, k, InFlight);
    assert HasOpen(s.effects, c) <==> Has(s.effects, c, Pending) || Has(s.effects, c, InFlight);
  }

  // And the error of the blocked row, if any.
  lemma ScanErrorAgrees(p: Uuid, s: Saga, k: nat)
    requires Layout(p, s) && EffectsOk(s) && Shaped(s, k)
    ensures ScanError(s.effects, s.row.cleanupRequested) == ErrorAt(s, k)
  {
    var c, es := s.row.cleanupRequested, s.effects;
    ScanSeesBlocked(es, c, Unknown);
    ScanSeesBlocked(es, c, Failed);
    ActiveIsCursor(p, s, k, Unknown);
    ActiveIsCursor(p, s, k, Failed);
    if k < |es| && es[k].state in {Unknown, Failed} {
      RelevantIffPhase(p, s, k);
      assert EffectOk(es[k]);
      forall i | 0 <= i < |es| && Relevant(es[i], c) && es[i].state == es[k].state
        ensures i == k
      {
        RelevantIffPhase(p, s, i);
      }
      FirstErrorAt(es, c, es[k].state, k);
    }
  }

  // The rows the scan classifies by "has an error" are the unknown and failed ones, because those
  // always carry one.
  lemma ScanAgrees(p: Uuid, s: Saga, k: nat)
    requires Layout(p, s) && EffectsOk(s) && Shaped(s, k)
    requires k < |s.effects| ==> s.effects[k].state != InFlight
    ensures ScanStatus(s.effects, s.row.cleanupRequested) == DerivedStatus(s.effects, s.row.cleanupRequested)
    ensures ScanError(s.effects, s.row.cleanupRequested) == ErrorAt(s, k)
    ensures ErrorTold(s.effects, s.row.cleanupRequested, ScanError(s.effects, s.row.cleanupRequested))
  {
    ScanStatusAgrees(p, s, k);
    ScanErrorAgrees(p, s, k);
    ErrorAtCursor(p, s, k, ErrorAt(s, k));
  }

  /* ---------- One row moves at the cursor ---------- */

  predicate SameIdentity(e: Effect, f: Effect) {
    && f.effectId == e.effectId && f.kind == e.kind && f.ordinal == e.ordinal
    && f.downstreamKey == e.downstreamKey && f.subjectKind == e.subjectKind && f.feature == e.feature
    && f.limit == e.limit && f.sourceEffectId == e.sourceEffectId && f.createdAt == e.createdAt
    && (e.kind.RevokeEntitlement? ==> f.externalId == e.externalId)
  }

  // Claim, finalize, quarantine and retry all change exactly one effect row, by a legal event
  // that is recorded with the next revision.
  predicate Moved(s: Saga, t: Saga, k: nat, a: Activity) {
    && k < |s.effects| == |t.effects|
    && t.effects == s.effects[k := t.effects[k]]
    && SameIdentity(s.effects[k], t.effects[k])
    && t.log == s.log + [a]
    && a.effectId == Some(s.effects[k].effectId)
    && a.revision == s.row.revision + 1
    && Legal(Recorded(s.effects[k]), s.effects[k].kind, a.event)
    && Recorded(t.effects[k]) == Apply(Recorded(s.effects[k]), s.effects[k].kind, a.event)
    && t.row.cleanupRequested == s.row.cleanupRequested
    && t.row.revision == s.row.revision + 1
  }

  lemma MovedPlaced(p: Uuid, s: Saga, t: Saga, k: nat, a: Activity, i: nat)
    requires Layout(p, s) && Moved(s, t, k, a) && PhaseStart(s) <= k && i < |s.effects|
    ensures Placed(p, t.effects, Split(s), i)
  {
    assert Placed(p, s.effects, Split(s), i);
  }

  lemma MovedDistinct(s: Saga, t: Saga, k: nat, a: Activity)
    requires DistinctIds(s.effects) && Moved(s, t, k, a)
    ensures DistinctIds(t.effects)
  {
    forall i | 0 <= i < |t.effects|
      ensures t.effects[i].effectId == s.effects[i].effectId
    {
    }
  }

  lemma MovedLayout(p: Uuid, s: Saga, t: Saga, k: nat, a: Activity)
    requires Layout(p, s) && Moved(s, t, k, a) && PhaseStart(s) <= k
    ensures Layout(p, t) && Split(t) == Split(s) && PhaseStart(t) == PhaseStart(s)
  {
    MovedDistinct(s, t, k, a);
    assert t.log[0] == s.log[0];
    forall i | 0 <= i < |t.effects|
      ensures Placed(p, t.effects, Split(s), i)
    {
      MovedPlaced(p, s, t, k, a, i);
    }
  }

  // The cursor advances by one when its row is done, and otherwise stays.
  function CursorAfter(t: Saga, k: nat): nat
    requires k < |t.effects|
  {
    if t.effects[k].state in {Applied, Compensated} then k + 1 else k
  }

  lemma MovedShaped(p: Uuid, s: Saga, t: Saga, k: nat, a: Activity)
    requires Begun(s) && Begun(t) && PhaseStart(t) == PhaseStart(s) && Shaped(s, k) && Moved(s, t, k, a)
    requires s.effects[k].kind.RevokeEntitlement? <==> s.row.cleanupRequested
    ensures Shaped(t, CursorAfter(t, k))
  {
    assert forall i | 0 <= i < |s.effects| && i != k :: t.effects[i] == s.effects[i];
  }

  lemma MovedFrozen(s: Saga, t: Saga, k: nat, a: Activity)
    requires Begun(s) && Begun(t) && Split(t) == Split(s) <= |s.effects|
    requires PhaseStart(s) <= k && Frozen(s) && Moved(s, t, k, a)
    ensures Frozen(t)
  {
  }

  lemma MovedProgress(p: Uuid, s: Saga, t: Saga, k: nat, a: Activity)
    requires Layout(p, s) && Frozen(s) && Shaped(s, k) && Moved(s, t, k, a)
    ensures Begun(t) && Split(t) == Split(s) && Shaped(t, CursorAfter(t, k)) && Frozen(t)
  {
    MovedLayout(p, s, t, k, a);
    RelevantIffPhase(p, s, k);
    MovedShaped(p, s, t, k, a);
    MovedFrozen(s, t, k, a);
  }

  lemma MovedMentions(s: Saga, t: Saga, k: nat, a: Activity)
    requires JournalOk(s) && Moved(s, t, k, a)
    ensures forall j | 0 <= j < |t.log| && t.log[j].effectId.Some? :: HasRow(t.effects, t.log[j].effectId.value)
  {
    forall j | 0 <= j < |t.log| && t.log[j].effectId.Some?
      ensures HasRow(t.effects, t.log[j].effectId.value)
    {
      if j < |s.log| {
        var i :| 0 <= i < |s.effects| && s.effects[i].effectId == s.log[j].effectId.value;
        assert t.effects[i].effectId == s.effects[i].effectId;
      } else {
        assert t.effects[k].effectId == a.effectId.value;
      }
    }
  }

  lemma MovedTold(s: Saga, t: Saga, k: nat, a: Activity, i: nat)
    requires DistinctIds(s.effects) && Moved(s, t, k, a) && i < |s.effects| && Told(s.log, s.effects[i])
    ensures Told(t.log, t.effects[i])
  {
    ReplayAppend(s.log, a, s.effects[i].effectId, s.effects[i].kind);
    assert i != k ==> s.effects[i].effectId != s.effects[k].effectId;
  }

  lemma MovedJournal(p: Uuid, s: Saga, t: Saga, k: nat, a: Activity)
    requires Layout(p, s) && JournalOk(s) && Moved(s, t, k, a) && s.row.revision == |s.log|
    ensures JournalOk(t)
  {
    assert forall j | 0 <= j < |s.log| :: t.log[j] == s.log[j];
    MovedMentions(s, t, k, a);
    forall i | 0 <= i < |t.effects|
      ensures Told(t.log, t.effects[i])
    {
      MovedTold(s, t, k, a, i);
    }
  }
}
