/** Reading an effect's history back from the activity rows alone. */
module Journal {
  import opened Options
  import opened Keys
  import opened Rows
  import opened Sagas

  // The part of an effect row that its activity rows determine.
  datatype Replayed = Replayed(state: State, attempts: nat, lastError: Option<string>, leaseToken: Option<Uuid>)

  const FRESH := Replayed(Pending, 0, None, None)

  function Recorded(e: Effect): Replayed {
    Replayed(e.state, e.attempts, e.lastError, e.leaseToken)
  }

  function ErrorOf(reason: UnknownEvidence): string {
    match reason
    case Reported(code) => code
    case LeaseExpired(_, _) => LEASE_EXPIRED
  }

  predicate IsReset(event: Event) {
    event.ProvisioningRetried? && !event.resolution.ConfirmApplied?
  }

  function Apply(v: Replayed, kind: Kind, event: Event): Replayed {
    match event
    case EffectClaimed(_, _, fence) => Replayed(InFlight, v.attempts + 1, None, Some(fence))
    case EffectApplied(_, _) => Replayed(Applied, v.attempts, None, None)
    case EffectCompensated(_) => Replayed(Compensated, v.attempts, None, None)
    case EffectFailed(code) => Replayed(Failed, v.attempts, Some(code), None)
    case EffectOutcomeUnknown(reason) => Replayed(Unknown, v.attempts, Some(ErrorOf(reason)), None)
    case ProvisioningRetried(resolution, _, _) =>
      if resolution.ConfirmApplied?
      then Replayed(if kind.RevokeEntitlement? then Compensated else Applied, v.attempts, None, None)
      else Replayed(Pending, v.attempts, None, None)
    case ProvisioningStarted(_) => v
    case CleanupRequested(_, _, _) => v
  }

  function SkippedByCleanup(v: Replayed, kind: Kind): Replayed {
    if kind.PutEntitlement? && v.state in {Pending, Failed}
    then v.(state := Skipped, lastError := Some(CLEANUP_ERROR))
    else v
  }

  function Advance(v: Replayed, id: Uuid, kind: Kind, a: Activity): Replayed {
    if a.effectId == Some(id) then Apply(v, kind, a.event)
    else if a.event.CleanupRequested? then SkippedByCleanup(v, kind)
    else v
  }

  // Fold of the log for one effect, from the all-pending start.
  function Replay(log: seq<Activity>, id: Uuid, kind: Kind): Replayed {
    if |log| == 0 then FRESH else Advance(Replay(log[..|log| - 1], id, kind), id, kind, log[|log| - 1])
  }

  // The events an effect in a given condition may see next.
  predicate Legal(v: Replayed, kind: Kind, event: Event) {
    match event
    case EffectClaimed(k, attempt, _) => v.state == Pending && k == kind && attempt == v.attempts + 1
    case EffectApplied(_, _) => v.state == InFlight && !kind.RevokeEntitlement?
    case EffectCompensated(_) => v.state == InFlight && kind.RevokeEntitlement?
    case EffectFailed(_) => v.state == InFlight
    case EffectOutcomeUnknown(reason) =>
      && v.state == InFlight
      && (reason.LeaseExpired? ==> reason.expiredKind == kind && v.leaseToken == Some(reason.invalidatedFence))
    case ProvisioningRetried(resolution, _, k) =>
      k == kind && v.state == if resolution.RetryFailed? then Failed else Unknown
    case ProvisioningStarted(_) => false
    case CleanupRequested(_, _, _) => false
  }

  // Every activity row about the effect was legal when it was written.
  predicate LegalLog(log: seq<Activity>, id: Uuid, kind: Kind) {
    |log| == 0 ||
    (var n := |log| - 1;
     LegalLog(log[..n], id, kind) &&
     (log[n].effectId == Some(id) ==> Legal(Replay(log[..n], id, kind), kind, log[n].event)))
  }

  // Whether cleanup was requested, according to the log.
  predicate ReplayCleanup(log: seq<Activity>) {
    exists j :: 0 <= j < |log| && log[j].event.CleanupRequested?
  }

  predicate ClaimOf(a: Activity, id: Uuid) { a.effectId == Some(id) && a.event.EffectClaimed? }
  predicate ResetOf(a: Activity, id: Uuid) { a.effectId == Some(id) && IsReset(a.event) }

  function Resets(log: seq<Activity>, id: Uuid): nat {
    if |log| == 0 then 0 else Resets(log[..|log| - 1], id) + if ResetOf(log[|log| - 1], id) then 1 else 0
  }

  function Claims(log: seq<Activity>, id: Uuid): nat {
    if |log| == 0 then 0 else Claims(log[..|log| - 1], id) + if ClaimOf(log[|log| - 1], id) then 1 else 0
  }

  predicate ClaimedSinceReset(log: seq<Activity>, id: Uuid) {
    |log| != 0 &&
    var last := log[|log| - 1];
    if ClaimOf(last, id) then true
    else if ResetOf(last, id) then false
    else ClaimedSinceReset(log[..|log| - 1], id)
  }

  /* ---------- Appending one row ---------- */

  lemma ReplayAppend(log: seq<Activity>, a: Activity, id: Uuid, kind: Kind)
    ensures Replay(log + [a], id, kind) == Advance(Replay(log, id, kind), id, kind, a)
    ensures LegalLog(log + [a], id, kind) <==>
            LegalLog(log, id, kind) && (a.effectId == Some(id) ==> Legal(Replay(log, id, kind), kind, a.event))
  {
    var l := log + [a];
    assert l[..|l| - 1] == log;
  }

  // An effect the log never mentions is fresh (a revoke, before it is first claimed).
  lemma {:induction false} ReplayUnmentioned(log: seq<Activity>, id: Uuid)
    requires forall j | 0 <= j < |log| :: log[j].effectId != Some(id)
    ensures Replay(log, id, RevokeEntitlement) == FRESH && LegalLog(log, id, RevokeEntitlement)
  {
    if |log| > 0 { ReplayUnmentioned(log[..|log| - 1], id); }
  }

  /* ---------- No automatic replay ---------- */

  lemma {:induction false} ClaimedUnlessPending(log: seq<Activity>, id: Uuid, kind: Kind)
    requires LegalLog(log, id, kind)
    ensures Replay(log, id, kind).state == Pending ==> !ClaimedSinceReset(log, id)
    ensures Replay(log, id, kind).state !in {Pending, Skipped} ==> ClaimedSinceReset(log, id)
  {
    if |log| > 0 { ClaimedUnlessPending(log[..|log| - 1], id, kind); }
  }

  // The attempt counter is the number of claims, and equals the accepted resets plus one exactly
  // when the effect was claimed since the last of them.
  lemma {:induction false} AttemptsAreResets(log: seq<Activity>, id: Uuid, kind: Kind)
    requires LegalLog(log, id, kind)
    ensures Replay(log, id, kind).attempts == Claims(log, id)
    ensures Claims(log, id) == Resets(log, id) + if ClaimedSinceReset(log, id) then 1 else 0
  {
    if |log| > 0 {
      var n := |log| - 1;
      AttemptsAreResets(log[..n], id, kind);
      ClaimedUnlessPending(log[..n], id, kind);
    }
  }

  // From any non-pending condition, an effect claimed again at j went through a reset in between.
  lemma {:induction false} ResetBeforeClaim(log: seq<Activity>, id: Uuid, kind: Kind, i: nat, j: nat) returns (t: nat)
    requires LegalLog(log, id, kind)
    requires i < j < |log|
    requires Replay(log[..i + 1], id, kind).state != Pending
    requires ClaimOf(log[j], id)
    ensures i < t < j && ResetOf(log[t], id)
  {
    LegalPrefix(log, id, kind, j + 1);
    var prefix := log[..j + 1];
    assert prefix[..j] == log[..j];
    assert Replay(log[..j], id, kind).state == Pending;
    t := LastReset(log, id, kind, i, j);
  }

  lemma {:induction false} LegalPrefix(log: seq<Activity>, id: Uuid, kind: Kind, n: nat)
    requires LegalLog(log, id, kind) && n <= |log|
    ensures LegalLog(log[..n], id, kind)
    decreases |log|
  {
    if n < |log| {
      LegalPrefix(log[..|log| - 1], id, kind, n);
      assert log[..|log| - 1][..n] == log[..n];
    } else {
      assert log[..n] == log;
    }
  }

  lemma {:induction false} LastReset(log: seq<Activity>, id: Uuid, kind: Kind, i: nat, j: nat) returns (t: nat)
    requires i < j <= |log|
    requires Replay(log[..i + 1], id, kind).state != Pending
    requires Replay(log[..j], id, kind).state == Pending
    ensures i < t < j && ResetOf(log[t], id)
    decreases j
  {
    assert j != i + 1;
    var n := j - 1;
    assert log[..j][..n] == log[..n] && log[..j][n] == log[n];
    if ResetOf(log[n], id) {
      t := n;
    } else {
      t := LastReset(log, id, kind, i, n);
    }
  }

  // An effect is never claimed twice without an accepted reset of it in between.
  lemma NoAutomaticReplay(log: seq<Activity>, id: Uuid, kind: Kind, i: nat, j: nat) returns (t: nat)
    requires LegalLog(log, id, kind)
    requires i < j < |log| && ClaimOf(log[i], id) && ClaimOf(log[j], id)
    ensures i < t < j && ResetOf(log[t], id)
  {
    assert log[..i + 1][..i] == log[..i] && log[..i + 1][i] == log[i];
    t := ResetBeforeClaim(log, id, kind, i, j);
  }

  // An effect whose outcome became unknown is claimed again only after an operator confirmed
  // that it was not applied.
  lemma UnknownNeedsConfirmation(log: seq<Activity>, id: Uuid, kind: Kind, i: nat, j: nat) returns (t: nat)
    requires LegalLog(log, id, kind)
    requires i < j < |log|
    requires log[i].effectId == Some(id) && log[i].event.EffectOutcomeUnknown? && ClaimOf(log[j], id)
    ensures i < t < j && log[t].effectId == Some(id)
    ensures log[t].event.ProvisioningRetried? && log[t].event.resolution == ConfirmNotApplied
  {
    assert log[..i + 1][..i] == log[..i] && log[..i + 1][i] == log[i];
    t := FirstMention(log, id, kind, i, j);
  }

  // While unknown, the next activity row about the effect is an operator's resolution; only
  // confirm_not_applied leads back to a claim.
  lemma {:induction false} FirstMention(log: seq<Activity>, id: Uuid, kind: Kind, i: nat, j: nat) returns (t: nat)
    requires LegalLog(log, id, kind)
    requires i < j < |log|
    requires Replay(log[..i + 1], id, kind).state == Unknown
    requires ClaimOf(log[j], id)
    ensures i < t < j && log[t].effectId == Some(id)
    ensures log[t].event.ProvisioningRetried? && log[t].event.resolution == ConfirmNotApplied
    decreases j - i
  {
    var n := i + 1;
    UnknownStep(log, id, kind, n);
    if log[n].effectId != Some(id) {
      t := FirstMention(log, id, kind, n, j);
    } else {
      t := n;
      if log[n].event.resolution == ConfirmApplied { SettledIsNotClaimed(log, id, kind, n, j); }
    }
  }

  // What an unknown effect's next activity row can be: a retry, confirming it one way or the other.
  lemma UnknownStep(log: seq<Activity>, id: Uuid, kind: Kind, n: nat)
    requires LegalLog(log, id, kind) && n < |log| && Replay(log[..n], id, kind).state == Unknown
    ensures if log[n].effectId != Some(id) then Replay(log[..n + 1], id, kind).state == Unknown
            else log[n].event.ProvisioningRetried? && !log[n].event.resolution.RetryFailed?
    ensures log[n].effectId == Some(id) && log[n].event.resolution == ConfirmApplied ==>
              Replay(log[..n + 1], id, kind).state in {Applied, Compensated}
  {
    LegalPrefix(log, id, kind, n + 1);
    assert log[..n + 1][..n] == log[..n] && log[..n + 1][n] == log[n];
  }

  lemma SettledIsNotClaimed(log: seq<Activity>, id: Uuid, kind: Kind, n: nat, j: nat)
    requires LegalLog(log, id, kind) && n < j < |log|
    requires Replay(log[..n + 1], id, kind).state in {Applied, Compensated}
    ensures !ClaimOf(log[j], id)
  {
    SettledForever(log, id, kind, n, j + 1);
  }

  // Applied and compensated effects see no further activity rows.
  lemma {:induction false} SettledForever(log: seq<Activity>, id: Uuid, kind: Kind, i: nat, j: nat)
    requires LegalLog(log, id, kind)
    requires i < j <= |log|
    requires Replay(log[..i + 1], id, kind).state in {Applied, Compensated}
    ensures Replay(log[..j], id, kind).state in {Applied, Compensated}
    ensures forall t | i < t < j :: log[t].effectId != Some(id)
    decreases j
  {
    if j > i + 1 {
      SettledForever(log, id, kind, i, j - 1);
      SettledStep(log, id, kind, j - 1);
    }
  }

  lemma SettledStep(log: seq<Activity>, id: Uuid, kind: Kind, n: nat)
    requires LegalLog(log, id, kind) && n < |log|
    requires Replay(log[..n], id, kind).state in {Applied, Compensated}
    ensures log[n].effectId != Some(id) && Replay(log[..n + 1], id, kind).state in {Applied, Compensated}
  {
    LegalPrefix(log, id, kind, n + 1);
    assert log[..n + 1][..n] == log[..n] && log[..n + 1][n] == log[n];
  }
}
