/** The grant templates of a configuration: what validation admits, and what start snapshots. */
module Configuration {
  import opened Options
  import opened Keys
  import opened Rows
  import opened Preservation

  datatype GrantConfig = GrantConfig(subjectKind: string, feature: string, limit: Option<string>)

  const MAX_I64 := 0x7fff_ffff_ffff_ffff

  predicate IsDigit(c: char) {
    '0' <= c <= '9'
  }

  predicate AllDigits(s: string) {
    forall i | 0 <= i < |s| :: IsDigit(s[i])
  }

  function DigitsValue(s: string): nat
    requires AllDigits(s)
  {
    if |s| == 0 then 0 else DigitsValue(s[..|s| - 1]) * 10 + (s[|s| - 1] as nat - '0' as nat)
  }

  // Reading a signed 64-bit number: an optional sign, then digits, within range.
  function ParseI64(s: string): Option<int> {
    var negative := |s| > 0 && s[0] == '-';
    var digits := if |s| > 0 && s[0] in {'+', '-'} then s[1..] else s;
    if |digits| == 0 || !AllDigits(digits) then None else
    var magnitude: int := DigitsValue(digits);
    var value := if negative then -magnitude else magnitude;
    if -MAX_I64 - 1 <= value <= MAX_I64 then Some(value) else None
  }

  predicate IsDimensionByte(c: char) {
    IsDigit(c) || 'a' <= c <= 'z' || 'A' <= c <= 'Z' || c in {'.', '_', '-', ':', '/'}
  }

  predicate ValidDimension(s: string, maximum: nat) {
    0 < |s| <= maximum && forall i | 0 <= i < |s| :: IsDimensionByte(s[i])
  }

  predicate ValidGrant(grant: GrantConfig) {
    && grant.subjectKind in {"organization", "owner"}
    && ValidDimension(grant.feature, 128)
    && (grant.limit.Some? ==> ParseI64(grant.limit.value).Some? && ParseI64(grant.limit.value).value > 0)
  }

  predicate DistinctGrants(grants: seq<GrantConfig>) {
    forall i, j | 0 <= i < j < |grants| ::
      (grants[i].subjectKind, grants[i].feature) != (grants[j].subjectKind, grants[j].feature)
  }

  // Few enough grants, each well formed, no two for the same subject kind and feature.
  predicate ValidGrants(grants: seq<GrantConfig>) {
    |grants| <= 64 && DistinctGrants(grants) && forall i | 0 <= i < |grants| :: ValidGrant(grants[i])
  }

  // The grant part of validate.
  method ValidateGrants(grants: seq<GrantConfig>) returns (ok: bool)
    ensures ok <==> ValidGrants(grants)
  {
    if |grants| > MAX_GRANTS {
      return false;
    }
    var unique: set<(string, string)> := {};
    for i := 0 to |grants|
      invariant unique == set j | 0 <= j < i :: (grants[j].subjectKind, grants[j].feature)
      invariant DistinctGrants(grants[..i])
      invariant forall j | 0 <= j < i :: ValidGrant(grants[j])
    {
      var grant := grants[i];
      var pair := (grant.subjectKind, grant.feature);
      if !ValidGrant(grant) {
        return false;
      }
      if pair in unique {
        var j :| 0 <= j < i && (grants[j].subjectKind, grants[j].feature) == pair;
        assert !DistinctGrants(grants);
        return false;
      }
      unique := unique + {pair};
    }
    assert grants[..|grants|] == grants;
    ok := true;
  }

  // One template's snapshot; None when its limit does not parse.
  function SnapshotOf(grant: GrantConfig): Option<Grant> {
    match grant.limit
    case None => Some(Grant(grant.subjectKind, grant.feature, None))
    case Some(text) =>
      match ParseI64(text)
      case Some(limit) => Some(Grant(grant.subjectKind, grant.feature, Some(limit)))
      case None => None
  }

  // grant_snapshots: all of them, or nothing.
  function Snapshots(grants: seq<GrantConfig>): Option<seq<Grant>> {
    if |grants| == 0 then Some([]) else
    match (Snapshots(grants[..|grants| - 1]), SnapshotOf(grants[|grants| - 1]))
    case (Some(earlier), Some(last)) => Some(earlier + [last])
    case _ => None
  }

  predicate SnapshotFits(grant: GrantConfig, snapshot: Grant) {
    && GrantOk(snapshot) && snapshot.subjectKind == grant.subjectKind && snapshot.feature == grant.feature
    && (snapshot.limit.Some? <==> grant.limit.Some?)
    && (grant.limit.Some? ==> ParseI64(grant.limit.value) == snapshot.limit)
  }

  lemma {:induction false} SnapshotsFit(grants: seq<GrantConfig>)
    requires forall i | 0 <= i < |grants| :: ValidGrant(grants[i])
    ensures Snapshots(grants).Some? && |Snapshots(grants).value| == |grants|
    ensures forall i | 0 <= i < |grants| :: SnapshotFits(grants[i], Snapshots(grants).value[i])
  {
    if |grants| > 0 {
      SnapshotsFit(grants[..|grants| - 1]);
    }
  }

  // Exactly the configurations with a limit that does not parse fail to snapshot, so a validated
  // one never does.
  lemma {:induction false} SnapshotsFailWhen(grants: seq<GrantConfig>)
    ensures Snapshots(grants).None? <==>
            exists i :: 0 <= i < |grants| && grants[i].limit.Some? && ParseI64(grants[i].limit.value).None?
  {
    if |grants| > 0 {
      var n := |grants| - 1;
      SnapshotsFailWhen(grants[..n]);
      forall i | 0 <= i < n ensures grants[..n][i] == grants[i] {
      }
    }
  }

  // A validated configuration gives start everything it relies on: its snapshots succeed, and with
  // a valid request and fresh ids the new saga satisfies every constraint and the saga invariant.
  lemma ConfiguredStartIsOk(grants: seq<GrantConfig>, name: string, slug: string, owner: string, ids: seq<Uuid>)
    requires ValidGrants(grants)
    requires 1 <= |name| <= 200 && 1 <= |slug| <= 100 && 1 <= |owner| <= 256
    requires |ids| == 1 + |grants| && Distinct(ids)
    ensures Snapshots(grants).Some? && StartOk(name, slug, owner, Snapshots(grants).value, ids)
  {
    SnapshotsFit(grants);
  }

  lemma DigitReads(d: nat)
    requires d < 10
    ensures IsDigit(Digit(d)) && Digit(d) as nat - '0' as nat == d
  {
  }

  lemma {:induction false} DecimalReads(n: nat)
    ensures AllDigits(Decimal(n)) && DigitsValue(Decimal(n)) == n
  {
    DigitReads(n % 10);
    if n >= 10 {
      DecimalReads(n / 10);
      var s := Decimal(n);
      assert s[..|s| - 1] == Decimal(n / 10);
    } else {
      var s := Decimal(n);
      assert s[..0] == [];
    }
  }

  // A limit written out for the provider reads back as the same limit.
  lemma LimitRoundTrips(n: int)
    requires -MAX_I64 - 1 <= n <= MAX_I64
    ensures ParseI64(IntText(n)) == Some(n)
  {
    var magnitude := if n < 0 then -n else n;
    DecimalReads(magnitude);
    assert IsDigit(Decimal(magnitude)[0]);
    assert n < 0 ==> IntText(n)[1..] == Decimal(magnitude);
  }
}
