/** UTF-8 well-formedness as `String::from_utf8` checks it: the byte
    sequence matches the `UTF8-octets` rule of section 4 of RFC 3629 (no
    overlong forms, no surrogates, nothing above U+10FFFF). */
module Utf8 {

  /** A continuation byte, 80 to BF. */
  predicate IsTail(b: bv8)
  {
    0x80 <= b <= 0xBF
  }

  /** The length of the character that `s` starts with, or 0 when no
      character of RFC 3629's `UTF8-char` rule starts it. */
  function CharLength(s: seq<bv8>): (n: nat)
    requires |s| > 0
    ensures n <= 4 && n <= |s|
  {
    var b := s[0];
    if b <= 0x7F then 1
    else if 0xC2 <= b <= 0xDF then
      (if |s| >= 2 && IsTail(s[1]) then 2 else 0)
    else if 0xE0 <= b <= 0xEF then
      (if |s| >= 3 && IsTail(s[1]) && IsTail(s[2])
          && (b != 0xE0 || 0xA0 <= s[1])
          && (b != 0xED || s[1] <= 0x9F)
       then 3 else 0)
    else if 0xF0 <= b <= 0xF4 then
      (if |s| >= 4 && IsTail(s[1]) && IsTail(s[2]) && IsTail(s[3])
          && (b != 0xF0 || 0x90 <= s[1])
          && (b != 0xF4 || s[1] <= 0x8F)
       then 4 else 0)
    else 0
  }

  /** `UTF8-octets`: the bytes split into well-formed characters. */
  predicate WellFormed(s: seq<bv8>)
    decreases |s|
  {
    |s| == 0 || (CharLength(s) > 0 && WellFormed(s[CharLength(s)..]))
  }

  /** Bytes below 0x80. */
  predicate IsAscii(s: seq<bv8>)
  {
    forall i :: 0 <= i < |s| ==> s[i] <= 0x7F
  }

  /** ASCII text is well-formed UTF-8. */
  lemma {:induction false} AsciiIsWellFormed(s: seq<bv8>)
    requires IsAscii(s)
    ensures WellFormed(s)
  {
    if |s| > 0 {
      assert CharLength(s) == 1;
      AsciiIsWellFormed(s[1..]);
    }
  }

  /** A byte that can never appear in UTF-8 (C0, C1, F5 to FF), or a
      continuation byte where a character should start, makes the text
      ill-formed. */
  lemma NeverFirst(s: seq<bv8>)
    requires |s| > 0 && (s[0] == 0xC0 || s[0] == 0xC1 || s[0] >= 0xF5 || IsTail(s[0]))
    ensures !WellFormed(s)
  {
  }
}
