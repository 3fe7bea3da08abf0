/**
 The text form of a skipped-key entry, `"<hex(dh_public)>-<msg_counter>"`
 (crates/crypto_core/src/ratchet.rs, lines 189-190 and 413-415). It is injective,
 which is what lets the session model key its store by the pair itself.
 */
module SkipKeyText {
  import opened Prelude

  function Digit(d: nat): (c: char)
    requires d < 16
  {
    if d < 10 then '0' + d as char else 'a' + (d - 10) as char
  }

  function HexEncode(bytes: seq<Byte>): (r: string)
    ensures |r| == 2 * |bytes|
  {
    if bytes == [] then [] else [Digit(bytes[0] / 16), Digit(bytes[0] % 16)] + HexEncode(bytes[1..])
  }

  function Decimal(n: nat): (r: string)
    ensures |r| >= 1
  {
    if n < 10 then [Digit(n)] else Decimal(n / 10) + [Digit(n % 10)]
  }

  function SkipMapKey(dhPublic: seq<Byte>, counter: U32): string {
    HexEncode(dhPublic) + "-" + Decimal(counter)
  }

  lemma DigitInjective(d: nat, e: nat)
    requires d < 16 && e < 16 && Digit(d) == Digit(e)
    ensures d == e
  {
  }

  lemma {:induction false} HexEncodeInjective(a: seq<Byte>, b: seq<Byte>)
    requires HexEncode(a) == HexEncode(b)
    ensures a == b
  {
    assert |a| == |b|;
    if a != [] {
      var ha, hb := HexEncode(a), HexEncode(b);
      assert ha[0] == hb[0] && ha[1] == hb[1];
      DigitInjective(a[0] / 16, b[0] / 16);
      DigitInjective(a[0] % 16, b[0] % 16);
      assert ha[2..] == HexEncode(a[1..]) && hb[2..] == HexEncode(b[1..]);
      HexEncodeInjective(a[1..], b[1..]);
      assert a == [a[0]] + a[1..] && b == [b[0]] + b[1..];
    }
  }

  lemma {:induction false} DecimalInjective(m: nat, n: nat)
    requires Decimal(m) == Decimal(n)
    ensures m == n
  {
    var dm, dn := Decimal(m), Decimal(n);
    assert dm[|dm| - 1] == Digit(m % 10);
    assert dn[|dn| - 1] == Digit(n % 10);
    DigitInjective(m % 10, n % 10);
    if m >= 10 && n >= 10 {
      assert dm[..|dm| - 1] == Decimal(m / 10) && dn[..|dn| - 1] == Decimal(n / 10);
      DecimalInjective(m / 10, n / 10);
    }
  }

  /** Two 32-byte keys and two counters share a store entry only when both agree. */
  lemma SkipMapKeyInjective(p: seq<Byte>, m: U32, q: seq<Byte>, n: U32)
    requires |p| == |q| == 32
    requires SkipMapKey(p, m) == SkipMapKey(q, n)
    ensures p == q && m == n
  {
    var x, y := SkipMapKey(p, m), SkipMapKey(q, n);
    assert x[..64] == HexEncode(p) && y[..64] == HexEncode(q);
    assert x[65..] == Decimal(m) && y[65..] == Decimal(n);
    HexEncodeInjective(p, q);
    DecimalInjective(m, n);
  }
}
