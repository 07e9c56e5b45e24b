/** Formatting helpers the pages rely on: how a number prints inside a template
    literal, and `String.prototype.toLowerCase` on the ASCII letters. */
module Format {
  import opened Wrappers

  predicate IsDigit(c: char) {
    '0' <= c <= '9'
  }

  function DigitChar(d: nat): (c: char)
    requires d < 10
    ensures IsDigit(c) && (c as int) - ('0' as int) == d
  {
    "0123456789"[d]
  }

  /** The decimal digits of `n`, most significant first, with no leading zero. */
  function NatDigits(n: nat): (s: string)
    ensures |s| >= 1
    ensures forall i :: 0 <= i < |s| ==> IsDigit(s[i])
    ensures |s| > 1 ==> s[0] != '0'
    decreases n
  {
    if n < 10 then [DigitChar(n)] else NatDigits(n / 10) + [DigitChar(n % 10)]
  }

  /** `${n}` for an integer-valued number. */
  function IntString(n: int): (s: string)
    ensures |s| >= 1
    ensures (s[0] == '-') <==> n < 0
  {
    if n < 0 then "-" + NatDigits(-n) else NatDigits(n)
  }

  /** The value a string of decimal digits denotes. */
  function DigitsValue(s: string): nat
    requires forall i :: 0 <= i < |s| ==> IsDigit(s[i])
    decreases |s|
  {
    if s == [] then 0
    else DigitsValue(s[..|s| - 1]) * 10 + DigitValue(s[|s| - 1])
  }

  function DigitValue(c: char): (d: nat)
    requires IsDigit(c)
    ensures d < 10
  {
    (c as int) - ('0' as int)
  }

  /** Reads back an integer written by `IntString`; `None` for any other text. */
  function IntValue(s: string): Option<int> {
    if |s| > 1 && s[0] == '-' && (forall i :: 1 <= i < |s| ==> IsDigit(s[i])) then
      Some(-(DigitsValue(s[1..]) as int))
    else if |s| > 0 && (forall i :: 0 <= i < |s| ==> IsDigit(s[i])) then
      Some(DigitsValue(s))
    else
      None
  }

  lemma {:induction false} NatDigitsValue(n: nat)
    ensures DigitsValue(NatDigits(n)) == n
    decreases n
  {
    if n >= 10 {
      var s := NatDigits(n);
      NatDigitsValue(n / 10);
      assert s[..|s| - 1] == NatDigits(n / 10);
    }
  }

  /** What a number prints as can be read back as that number. */
  lemma IntStringRoundTrip(n: int)
    ensures IntValue(IntString(n)) == Some(n)
  {
    if n < 0 {
      NegativeRoundTrip(n);
    } else {
      var s := NatDigits(n);
      assert s[0] != '-' by { assert IsDigit(s[0]); }
      NatDigitsValue(n);
    }
  }

  lemma NegativeRoundTrip(n: int)
    requires n < 0
    ensures IntValue(IntString(n)) == Some(n)
  {
    var m: nat := -n;
    var d := NatDigits(m);
    assert IntString(n) == "-" + d;
    NegatedValue(d);
    NatDigitsValue(m);
    assert DigitsValue(d) == m;
  }

  /** A minus sign before digits reads as the negated digits. */
  lemma NegatedValue(d: string)
    requires |d| >= 1 && forall i :: 0 <= i < |d| ==> IsDigit(d[i])
    ensures IntValue("-" + d) == Some(-(DigitsValue(d) as int))
  {
    var s := "-" + d;
    assert s[1..] == d;
    forall i | 1 <= i < |s| ensures IsDigit(s[i]) { assert s[i] == d[i - 1]; }
  }

  function LowerChar(c: char): char {
    if 'A' <= c <= 'Z' then ((c as int) + 32) as char else c
  }

  /** `toLowerCase` restricted to ASCII: every upper-case ASCII letter becomes
      its lower-case form, every other character is kept. */
  function AsciiLower(s: string): (r: string)
    ensures |r| == |s|
    ensures forall i :: 0 <= i < |s| ==> !('A' <= r[i] <= 'Z')
    ensures forall i :: 0 <= i < |s| && !('A' <= s[i] <= 'Z') ==> r[i] == s[i]
    ensures forall i :: 0 <= i < |s| && 'A' <= s[i] <= 'Z' ==> r[i] as int == s[i] as int + 32
  {
    seq(|s|, i requires 0 <= i < |s| => LowerChar(s[i]))
  }
}
