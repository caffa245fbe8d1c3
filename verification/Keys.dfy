/** Identifiers as text, and the three downstream idempotency key formats. */
module Keys {

  function Pow16(n: nat): (r: nat)
    ensures r > 0
  {
    if n == 0 then 1 else 16 * Pow16(n - 1)
  }

  // A UUID is a 128-bit number; PostgreSQL orders UUIDs as such numbers.
  type Uuid = u: nat | u < Pow16(32)

  datatype Kind = CreateOrganization | PutEntitlement | RevokeEntitlement

  function Digit(d: nat): char
    requires d < 16
  {
    if d < 10 then '0' + (d as char) else 'a' + ((d - 10) as char)
  }

  // The low `width` hexadecimal digits of n, most significant first.
  function Hex(n: nat, width: nat): (s: string)
    ensures |s| == width
  {
    if width == 0 then "" else Hex(n / 16, width - 1) + [Digit(n % 16)]
  }

  function UuidText(u: Uuid): (s: string)
    ensures |s| == 36
  {
    var h := Hex(u, 32);
    h[..8] + "-" + h[8..12] + "-" + h[12..16] + "-" + h[16..20] + "-" + h[20..]
  }

  function Decimal(n: nat): (s: string)
    ensures |s| > 0
  {
    if n < 10 then [Digit(n)] else Decimal(n / 10) + [Digit(n % 10)]
  }

  function IntText(n: int): string {
    if n < 0 then "-" + Decimal(-n) else Decimal(n)
  }

  const KEY_PREFIX := "organization-provisioning:"

  // What follows the saga id in a downstream key.
  function KeySuffix(kind: Kind, ordinal: nat): string {
    match kind
    case CreateOrganization => ":create:v1"
    case PutEntitlement => ":entitlement:" + Decimal(ordinal) + ":v1"
    case RevokeEntitlement => ":cleanup:" + Decimal(ordinal) + ":v1"
  }

  function DownstreamKey(provisioningId: Uuid, kind: Kind, ordinal: nat): string {
    KEY_PREFIX + UuidText(provisioningId) + KeySuffix(kind, ordinal)
  }

  lemma {:induction false} HexInjective(a: nat, b: nat, width: nat)
    requires a < Pow16(width) && b < Pow16(width)
    requires Hex(a, width) == Hex(b, width)
    ensures a == b
  {
    if width == 0 {
    } else {
      var n := width - 1;
      assert Hex(a, width)[..n] == Hex(a / 16, n) && Hex(b, width)[..n] == Hex(b / 16, n);
      assert Hex(a, width)[n] == Digit(a % 16) && Hex(b, width)[n] == Digit(b % 16);
      assert a % 16 == b % 16;
      HexInjective(a / 16, b / 16, n);
    }
  }

  lemma UuidTextInjective(a: Uuid, b: Uuid)
    requires UuidText(a) == UuidText(b)
    ensures a == b
  {
    forall u: Uuid | u in {a, b}
      ensures var t := UuidText(u); Hex(u, 32) == t[..8] + t[9..13] + t[14..18] + t[19..23] + t[24..]
    {
      var h, t := Hex(u, 32), UuidText(u);
      assert t[..8] == h[..8] && t[9..13] == h[8..12] && t[14..18] == h[12..16];
      assert t[19..23] == h[16..20] && t[24..] == h[20..];
    }
    HexInjective(a, b, 32);
  }

  lemma {:induction false} DecimalInjective(a: nat, b: nat)
    requires Decimal(a) == Decimal(b)
    ensures a == b
  {
    var n := |Decimal(a)| - 1;
    assert Decimal(a)[n] == Digit(a % 10) && Decimal(b)[n] == Digit(b % 10);
    assert a % 10 == b % 10;
    if a >= 10 && b >= 10 {
      assert Decimal(a)[..n] == Decimal(a / 10) && Decimal(b)[..n] == Decimal(b / 10);
      DecimalInjective(a / 10, b / 10);
    }
  }

  lemma KeySuffixInjective(k: Kind, o: nat, k': Kind, o': nat)
    requires (k.CreateOrganization? ==> o == 0) && (k'.CreateOrganization? ==> o' == 0)
    requires KeySuffix(k, o) == KeySuffix(k', o')
    ensures k == k' && o == o'
  {
    var tail, tail' := KeySuffix(k, o), KeySuffix(k', o');
    assert tail[2] == tail'[2];
    assert k == k';
    if !k.CreateOrganization? {
      var head := if k.PutEntitlement? then |":entitlement:"| else |":cleanup:"|;
      assert tail[head..|tail| - 3] == Decimal(o) && tail'[head..|tail'| - 3] == Decimal(o');
      DecimalInjective(o, o');
    }
  }

  // The three key formats never collide: a key names one saga, kind and ordinal. The create
  // format carries no ordinal, so its ordinal must be the 0 every create row has.
  lemma DownstreamKeyInjective(p: Uuid, k: Kind, o: nat, p': Uuid, k': Kind, o': nat)
    requires (k.CreateOrganization? ==> o == 0) && (k'.CreateOrganization? ==> o' == 0)
    requires DownstreamKey(p, k, o) == DownstreamKey(p', k', o')
    ensures p == p' && k == k' && o == o'
  {
    var key, key' := DownstreamKey(p, k, o), DownstreamKey(p', k', o');
    var n := |KEY_PREFIX|;
    assert key[n..n + 36] == UuidText(p) && key'[n..n + 36] == UuidText(p');
    UuidTextInjective(p, p');
    assert key[n + 36..] == KeySuffix(k, o) && key'[n + 36..] == KeySuffix(k', o');
    KeySuffixInjective(k, o, k', o');
  }
}
