/**
 The text of a plaintext. The commands take and return strings
 (apps/desktop/src-tauri/src/lib.rs, lines 412-445), so a decrypted byte string that is
 not well-formed UTF-8 is refused.
 */
module Utf8 {
  import opened Prelude

  predicate Continues(b: Byte) {
    0x80 <= b <= 0xBF
  }

  /** `String::from_utf8` succeeds: the well-formed byte sequences of section 3.9 of the
      Unicode Standard, without overlong forms and surrogates. */
  predicate IsText(s: seq<Byte>) {
    if s == [] then true
    else if s[0] < 0x80 then IsText(s[1..])
    else if 0xC2 <= s[0] <= 0xDF then |s| >= 2 && Continues(s[1]) && IsText(s[2..])
    else if 0xE0 <= s[0] <= 0xEF then
      && |s| >= 3 && Continues(s[1]) && Continues(s[2])
      && (s[0] == 0xE0 ==> 0xA0 <= s[1]) && (s[0] == 0xED ==> s[1] <= 0x9F)
      && IsText(s[3..])
    else if 0xF0 <= s[0] <= 0xF4 then
      && |s| >= 4 && Continues(s[1]) && Continues(s[2]) && Continues(s[3])
      && (s[0] == 0xF0 ==> 0x90 <= s[1]) && (s[0] == 0xF4 ==> s[1] <= 0x8F)
      && IsText(s[4..])
    else false
  }

  /** A Unicode scalar value. */
  predicate Scalar(c: nat) {
    c < 0xD800 || 0xE000 <= c < 0x11_0000
  }

  function EncodeOne(c: nat): seq<Byte>
    requires Scalar(c)
  {
    if c < 0x80 then [c]
    else if c < 0x800 then [0xC0 + c / 0x40, 0x80 + c % 0x40]
    else if c < 0x1_0000 then [0xE0 + c / 0x1000, 0x80 + c / 0x40 % 0x40, 0x80 + c % 0x40]
    else [0xF0 + c / 0x4_0000, 0x80 + c / 0x1000 % 0x40, 0x80 + c / 0x40 % 0x40, 0x80 + c % 0x40]
  }

  /** The bytes of a string. */
  function Encode(cs: seq<nat>): seq<Byte>
    requires forall i :: 0 <= i < |cs| ==> Scalar(cs[i])
  {
    if cs == [] then [] else EncodeOne(cs[0]) + Encode(cs[1..])
  }

  lemma OneMore(c: nat, rest: seq<Byte>)
    requires Scalar(c) && IsText(rest)
    ensures IsText(EncodeOne(c) + rest)
  {
    var s := EncodeOne(c) + rest;
    assert s[|EncodeOne(c)|..] == rest;
  }

  /** The bytes of a string are text, so the command refuses no string that was sealed. */
  lemma {:induction false} StringsAreText(cs: seq<nat>)
    requires forall i :: 0 <= i < |cs| ==> Scalar(cs[i])
    ensures IsText(Encode(cs))
  {
    if cs != [] {
      StringsAreText(cs[1..]);
      OneMore(cs[0], Encode(cs[1..]));
    }
  }
}
