/** The string keys the hub builds: they name what they are meant to name and nothing else. */
module Text {
  /** The canonical text form of a UUID always has 36 characters. */
  type Uuid = s: string | |s| == 36 witness "00000000-0000-0000-0000-000000000000"

  function Digits(n: nat): string {
    if n < 10 then [('0' as int + n) as char] else Digits(n / 10) + [('0' as int + n % 10) as char]
  }

  /** `str` of an integer. */
  function Decimal(n: int): string {
    if n < 0 then "-" + Digits(-n) else Digits(n)
  }

  /** app/domain/services/delivery_service.py: `derived_idempotency_key`. */
  function DerivedKey(clientKey: string, endpoint: Uuid): string {
    clientKey + "::" + endpoint
  }

  /** app/domain/services/idempotency.py: `idempotency_redis_key`. */
  function IdempotencyRedisKey(partner: int, key: string): string {
    "inbound:idempotency:" + Decimal(partner) + ":" + key
  }

  /** app/domain/services/accept_path_cache.py: the three key builders and the invalidation prefix. */
  function PartnerKey(publicId: Uuid): string { "partner:" + publicId }

  function SchemaKey(eventType: string): string { "schema:" + eventType }

  function EndpointsPrefix(partner: int): string { "endpoints:" + Decimal(partner) + ":" }

  function EndpointsKey(partner: int, eventType: string): string { "endpoints:" + Decimal(partner) + ":" + eventType }

  // ---------------------------------------------------------------- decimals

  lemma {:induction false} DigitsOnly(n: nat)
    ensures Digits(n) != []
    ensures forall i :: 0 <= i < |Digits(n)| ==> '0' <= Digits(n)[i] <= '9'
  {
    if n >= 10 {
      DigitsOnly(n / 10);
    }
  }

  /** The number that decimal digits spell, read from the left. */
  function Spelled(s: string): int {
    if s == [] then 0 else 10 * Spelled(s[..|s| - 1]) + (s[|s| - 1] as int - '0' as int)
  }

  /** `str` of an integer reads back as that integer: its sign and the value of its digits, without leading zeros. */
  lemma DecimalReadsBack(n: int)
    ensures n >= 0 ==> Decimal(n) != [] && Spelled(Decimal(n)) == n && (n > 0 ==> Decimal(n)[0] != '0')
    ensures n < 0 ==> |Decimal(n)| > 1 && Decimal(n)[0] == '-' && Spelled(Decimal(n)[1..]) == -n && Decimal(n)[1] != '0'
  {
    DigitsReadBack(if n < 0 then -n else n);
    if n < 0 {
      assert Decimal(n)[1..] == Digits(-n);
    }
  }

  lemma {:induction false} DigitsReadBack(n: nat)
    ensures Digits(n) != [] && Spelled(Digits(n)) == n && (n > 0 ==> Digits(n)[0] != '0')
  {
    DigitsOnly(n);
    if n >= 10 {
      DigitsReadBack(n / 10);
      assert Digits(n)[..|Digits(n)| - 1] == Digits(n / 10);
    } else {
      assert Digits(n)[..0] == [];
    }
  }

  lemma {:induction false} DigitsInjective(m: nat, n: nat)
    requires Digits(m) == Digits(n)
    ensures m == n
  {
    DigitsOnly(m / 10);
    DigitsOnly(n / 10);
    var a, b := Digits(m), Digits(n);
    assert a[|a| - 1] == b[|b| - 1];
    assert (|a| >= 2 <==> m >= 10) && (|b| >= 2 <==> n >= 10);
    if m >= 10 {
      assert a[..|a| - 1] == Digits(m / 10) && b[..|b| - 1] == Digits(n / 10);
      DigitsInjective(m / 10, n / 10);
    }
  }

  lemma DecimalInjective(m: int, n: int)
    requires Decimal(m) == Decimal(n)
    ensures m == n
  {
    var a, b := if m < 0 then -m else m, if n < 0 then -n else n;
    DigitsOnly(a);
    DigitsOnly(b);
    assert Decimal(m)[0] == Decimal(n)[0];
    if m < 0 {
      assert Decimal(m)[1..] == Digits(a) && Decimal(n)[1..] == Digits(b);
    }
    DigitsInjective(a, b);
  }

  lemma DecimalHasNoColon(n: int)
    ensures forall i :: 0 <= i < |Decimal(n)| ==> Decimal(n)[i] != ':'
  {
    DigitsOnly(if n < 0 then -n else n);
  }

  // ---------------------------------------------------------------- splitting at the first colon

  lemma PrefixAt(a: string, b: string, i: nat)
    requires a <= b && i < |a|
    ensures a[i] == b[i]
  {
  }

  lemma Split(head: string, a: string, x: string)
    ensures var s := head + a + ":" + x;
      && s[|head| + |a|] == ':'
      && forall i :: 0 <= i < |a| ==> s[|head| + i] == a[i]
  {
  }

  /** Text up to a first colon can be read back. */
  lemma FirstColon(head: string, a: string, x: string, b: string, y: string)
    requires forall i :: 0 <= i < |a| ==> a[i] != ':'
    requires forall i :: 0 <= i < |b| ==> b[i] != ':'
    requires head + a + ":" + x <= head + b + ":" + y
    ensures a == b
  {
    Split(head, a, x);
    Split(head, b, y);
    var s, t := head + a + ":" + x, head + b + ":" + y;
    var n := if |a| <= |b| then |a| else |b|;
    PrefixAt(s, t, |head| + n);
    assert |a| == |b|;
    forall i | 0 <= i < |a|
      ensures a[i] == b[i]
    {
      PrefixAt(s, t, |head| + i);
    }
  }

  /** Prefix invalidation hits exactly one partner's endpoint keys. */
  lemma PrefixHitsOnePartner(p: int, q: int, eventType: string)
    ensures EndpointsPrefix(p) <= EndpointsKey(q, eventType) <==> p == q
  {
    DecimalHasNoColon(p);
    DecimalHasNoColon(q);
    assert EndpointsKey(q, eventType) == EndpointsPrefix(q) + eventType;
    if EndpointsPrefix(p) <= EndpointsKey(q, eventType) {
      assert EndpointsPrefix(p) == "endpoints:" + Decimal(p) + ":" + "";
      FirstColon("endpoints:", Decimal(p), "", Decimal(q), eventType);
      DecimalInjective(p, q);
    }
  }

  lemma SameTail(a: string, x: string, y: string)
    requires a + x == a + y
    ensures x == y
  {
    assert (a + x)[|a|..] == x && (a + y)[|a|..] == y;
  }

  lemma EndpointsKeyInjective(p: int, e: string, q: int, f: string)
    requires EndpointsKey(p, e) == EndpointsKey(q, f)
    ensures p == q && e == f
  {
    DecimalHasNoColon(p);
    DecimalHasNoColon(q);
    FirstColon("endpoints:", Decimal(p), e, Decimal(q), f);
    DecimalInjective(p, q);
    SameTail(EndpointsPrefix(p), e, f);
  }

  /** Cache keys of different kinds are different strings, and only endpoint keys begin with an endpoint prefix. */
  lemma KindsDiffer(u: Uuid, s: string, p: int, e: string)
    ensures PartnerKey(u) != SchemaKey(s) && PartnerKey(u) != EndpointsKey(p, e) && SchemaKey(s) != EndpointsKey(p, e)
    ensures !(EndpointsPrefix(p) <= PartnerKey(u)) && !(EndpointsPrefix(p) <= SchemaKey(s))
  {
    assert PartnerKey(u)[0] == 'p' && SchemaKey(s)[0] == 's';
    assert EndpointsKey(p, e)[0] == 'e' && EndpointsPrefix(p)[0] == 'e';
  }

  lemma PartnerKeyInjective(u: Uuid, v: Uuid)
    requires PartnerKey(u) == PartnerKey(v)
    ensures u == v
  {
    SameTail("partner:", u, v);
  }

  lemma SchemaKeyInjective(e: string, f: string)
    requires SchemaKey(e) == SchemaKey(f)
    ensures e == f
  {
    SameTail("schema:", e, f);
  }

  /** Redis idempotency keys separate every (partner, key) pair, whatever characters the key has. */
  lemma RedisKeyInjective(p: int, k: string, q: int, l: string)
    ensures IdempotencyRedisKey(p, k) == IdempotencyRedisKey(q, l) <==> p == q && k == l
  {
    if IdempotencyRedisKey(p, k) == IdempotencyRedisKey(q, l) {
      DecimalHasNoColon(p);
      DecimalHasNoColon(q);
      FirstColon("inbound:idempotency:", Decimal(p), k, Decimal(q), l);
      DecimalInjective(p, q);
      SameTail("inbound:idempotency:" + Decimal(p) + ":", k, l);
    }
  }

  /** Derived keys separate every (client key, endpoint) pair, even for client keys containing "::",
      because the endpoint suffix has a fixed length. */
  lemma DerivedKeyInjective(k: string, e: Uuid, l: string, f: Uuid)
    ensures DerivedKey(k, e) == DerivedKey(l, f) <==> k == l && e == f
  {
    var s, t := DerivedKey(k, e), DerivedKey(l, f);
    if s == t {
      assert |k| == |l|;
      assert s[..|k|] == k && t[..|l|] == l;
      assert s[|k| + 2..] == e && t[|l| + 2..] == f;
    }
  }
}
