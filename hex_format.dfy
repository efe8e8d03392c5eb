/** Upper-case hexadecimal rendering with a minimum width, as Rust's
    `format!("{:0wX}", v)` produces it for an unsigned value: the digits of
    `v` without leading zeros, left-padded with '0' up to `w` characters
    (a value that needs more digits is never truncated). */
module HexFormat {

  const Digits: string := "0123456789ABCDEF"

  /** The upper-case hex digit of a value below 16. */
  function Digit(d: nat): (c: char)
    requires d < 16
    ensures IsHexDigit(c) && DigitValue(c) == d
  {
    Digits[d]
  }

  predicate IsHexDigit(c: char)
  {
    '0' <= c <= '9' || 'A' <= c <= 'F'
  }

  /** A string of upper-case hex digits. */
  predicate IsHex(s: string)
  {
    forall i :: 0 <= i < |s| ==> IsHexDigit(s[i])
  }

  /** The value of an upper-case hex digit. */
  function DigitValue(c: char): (d: nat)
    requires IsHexDigit(c)
    ensures d < 16 && Digits[d] == c
  {
    if c <= '9' then c as int - '0' as int else c as int - 'A' as int + 10
  }

  /** 16 to the power `w`. */
  function Pow16(w: nat): (p: nat)
    ensures p >= 1
  {
    if w == 0 then 1 else 16 * Pow16(w - 1)
  }

  /** The digits of `v` without leading zeros ("0" for zero). */
  function Hex(v: nat): string
  {
    if v < 16 then [Digit(v)] else Hex(v / 16) + [Digit(v % 16)]
  }

  /** `n` copies of '0'. */
  function Zeros(n: nat): (s: string)
    ensures |s| == n
    ensures forall i :: 0 <= i < n ==> s[i] == '0'
  {
    if n == 0 then [] else Zeros(n - 1) + ['0']
  }

  /** `{:0wX}`: the digits of `v`, zero-padded on the left to width `w`. */
  function Format(v: nat, w: nat): string
  {
    var digits := Hex(v);
    if |digits| < w then Zeros(w - |digits|) + digits else digits
  }

  /** Reads a string of hex digits back as a number (most significant
      digit first). */
  function ParseHex(s: string): nat
    requires IsHex(s)
  {
    if |s| == 0 then 0 else ParseHex(s[..|s| - 1]) * 16 + DigitValue(s[|s| - 1])
  }

  // ---------------------------------------------------------------------
  // Properties

  /** Every character of `Hex(v)` is an upper-case hex digit, and the
      rendering has at most `w` digits when `v` is below 16^w. */
  lemma {:induction false} HexShape(v: nat, w: nat)
    ensures IsHex(Hex(v))
    ensures 1 <= |Hex(v)|
    ensures 1 <= w && v < Pow16(w) ==> |Hex(v)| <= w
    ensures v >= Pow16(w) ==> |Hex(v)| > w
  {
    if v >= 16 {
      if w == 0 {
        HexShape(v / 16, 0);
      } else {
        HexShape(v / 16, w - 1);
      }
    }
  }

  /** A value below 16^w is rendered in exactly `w` upper-case hex digits. */
  lemma FormatWidth(v: nat, w: nat)
    requires 1 <= w && v < Pow16(w)
    ensures |Format(v, w)| == w
    ensures IsHex(Format(v, w))
  {
    HexShape(v, w);
    var digits := Hex(v);
    if |digits| < w {
      var z := Zeros(w - |digits|);
      assert Format(v, w) == z + digits;
      forall i | 0 <= i < w
        ensures IsHexDigit(Format(v, w)[i])
      {
        if i < |z| {
          assert Format(v, w)[i] == z[i];
        } else {
          assert Format(v, w)[i] == digits[i - |z|];
        }
      }
    }
  }

  /** A value that needs more than `w` digits is printed in full. */
  lemma FormatNeverTruncates(v: nat, w: nat)
    requires v >= Pow16(w)
    ensures Format(v, w) == Hex(v) && |Format(v, w)| > w
  {
    HexShape(v, w);
  }

  /** Reading the digits back gives the value. */
  lemma {:induction false} ParseHexOfHex(v: nat)
    ensures IsHex(Hex(v))
    ensures ParseHex(Hex(v)) == v
  {
    HexShape(v, 0);
    var s := Hex(v);
    if v < 16 {
      assert s[..0] == [];
    } else {
      ParseHexOfHex(v / 16);
      assert s[..|s| - 1] == Hex(v / 16);
    }
  }

  /** Leading zeros do not change the value read back. */
  lemma {:induction false} ParseHexLeadingZeros(n: nat, s: string)
    requires IsHex(s)
    ensures IsHex(Zeros(n) + s)
    ensures ParseHex(Zeros(n) + s) == ParseHex(s)
  {
    var t := Zeros(n) + s;
    assert IsHex(t) by {
      forall i | 0 <= i < |t|
        ensures IsHexDigit(t[i])
      {
        if i < n {
          assert t[i] == Zeros(n)[i];
        } else {
          assert t[i] == s[i - n];
        }
      }
    }
    if |s| == 0 {
      assert t == Zeros(n);
      ParseHexZeros(n);
    } else {
      ParseHexLeadingZeros(n, s[..|s| - 1]);
      assert t[..|t| - 1] == Zeros(n) + s[..|s| - 1];
    }
  }

  /** A string of zeros reads as zero. */
  lemma {:induction false} ParseHexZeros(n: nat)
    ensures IsHex(Zeros(n))
    ensures ParseHex(Zeros(n)) == 0
  {
    if n > 0 {
      var z := Zeros(n);
      ParseHexZeros(n - 1);
      assert z[..n - 1] == Zeros(n - 1);
      assert DigitValue(z[n - 1]) == 0;
    }
  }

  /** The inverse of `Format`: the value is read back from its padded
      rendering, whatever the width. */
  lemma ParseFormat(v: nat, w: nat)
    ensures IsHex(Format(v, w))
    ensures ParseHex(Format(v, w)) == v
  {
    ParseHexOfHex(v);
    var digits := Hex(v);
    if |digits| < w {
      ParseHexLeadingZeros(w - |digits|, digits);
    }
  }
}
