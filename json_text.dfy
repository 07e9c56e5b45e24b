/** The part of JSON text the session store relies on: string literals as
    `JSON.stringify` writes them, arrays of such literals, and a decoder for
    both that accepts the escapes of ECMA-404, section 9, except a `\u`
    escape naming a surrogate code unit. */
module JsonText {
  import opened Wrappers

  const Backslash: char := '\\'
  const QuoteMark: char := '"'

  /** `t` is what is left of `s` once a prefix has been consumed. */
  predicate IsSuffix(t: string, s: string) {
    |t| <= |s| && s[|s| - |t|..] == t
  }

  function HexDigit(d: nat): (c: char)
    requires d < 16
  {
    "0123456789abcdef"[d]
  }

  /** The value of one hexadecimal digit, either case. */
  function HexValue(c: char): (r: Option<nat>)
    ensures r.Some? ==> r.value < 16
  {
    if '0' <= c <= '9' then Some((c as int) - ('0' as int))
    else if 'a' <= c <= 'f' then Some((c as int) - ('a' as int) + 10)
    else if 'A' <= c <= 'F' then Some((c as int) - ('A' as int) + 10)
    else None
  }

  lemma HexDigitValue(d: nat)
    requires d < 16
    ensures HexValue(HexDigit(d)) == Some(d)
  {
  }

  /** What `JSON.stringify` writes for one character inside a string literal:
      the quote and the backslash are escaped, the control characters below
      U+0020 use their short escape when they have one and `\u00XX` otherwise. */
  function EscapeChar(c: char): (e: string)
    ensures |e| >= 1
    ensures e[0] != QuoteMark
  {
    if c == QuoteMark then [Backslash, QuoteMark]
    else if c == Backslash then [Backslash, Backslash]
    else if c as int == 0x08 then [Backslash, 'b']
    else if c as int == 0x0C then [Backslash, 'f']
    else if c == '\n' then [Backslash, 'n']
    else if c == '\r' then [Backslash, 'r']
    else if c == '\t' then [Backslash, 't']
    else if (c as int) < 0x20 then
      [Backslash, 'u', '0', '0', HexDigit((c as int) / 16), HexDigit((c as int) % 16)]
    else [c]
  }

  function Escape(s: string): string
    decreases |s|
  {
    if s == [] then [] else EscapeChar(s[0]) + Escape(s[1..])
  }

  /** A string literal: the escaped text between two quote marks. */
  function Quote(s: string): string {
    [QuoteMark] + Escape(s) + [QuoteMark]
  }

  /** The code unit a four-digit `\uXXXX` escape names. */
  function Hex4(s: string): (r: Option<nat>)
    requires |s| == 4
    ensures r.Some? ==> r.value < 0x1_0000
  {
    var a :- HexValue(s[0]);
    var b :- HexValue(s[1]);
    var c :- HexValue(s[2]);
    var d :- HexValue(s[3]);
    Some(((a * 16 + b) * 16 + c) * 16 + d)
  }

  /** Decodes the escape sequence that follows a backslash: the character it
      stands for and how many characters it takes. A `\u` escape naming a
      surrogate code unit is refused (every `char` here is a scalar value). */
  function ReadEscape(s: string): (r: Option<(char, nat)>)
    ensures r.Some? ==> 1 <= r.value.1 <= |s|
  {
    if |s| == 0 then None
    else if s[0] == QuoteMark then Some((QuoteMark, 1))
    else if s[0] == Backslash then Some((Backslash, 1))
    else if s[0] == '/' then Some(('/', 1))
    else if s[0] == 'b' then Some((0x08 as char, 1))
    else if s[0] == 'f' then Some((0x0C as char, 1))
    else if s[0] == 'n' then Some(('\n', 1))
    else if s[0] == 'r' then Some(('\r', 1))
    else if s[0] == 't' then Some(('\t', 1))
    else if s[0] == 'u' && |s| >= 5 then
      var code :- Hex4(s[1..5]);
      if 0xD800 <= code < 0xE000 then None else Some((code as char, 5))
    else None
  }

  /** Decodes the body of a string literal up to its closing quote mark:
      the text it denotes and what follows the quote. An unescaped control
      character, a bad escape or a missing closing quote is a failure. */
  function ReadString(s: string): (r: Option<(string, string)>)
    ensures r.Some? ==> |r.value.1| < |s|
    decreases |s|
  {
    if |s| == 0 then None
    else if s[0] == QuoteMark then Some(([], s[1..]))
    else if s[0] == Backslash then
      match ReadEscape(s[1..])
      case None => None
      case Some((c, n)) =>
        match ReadString(s[1 + n..])
        case None => None
        case Some((t, rest)) => Some(([c] + t, rest))
    else if (s[0] as int) < 0x20 then None
    else
      match ReadString(s[1..])
      case None => None
      case Some((t, rest)) => Some(([s[0]] + t, rest))
  }

  /** Decodes a string literal at the start of `s`. */
  function ReadQuoted(s: string): (r: Option<(string, string)>)
    ensures r.Some? ==> |r.value.1| < |s|
    ensures r.Some? ==> IsSuffix(r.value.1, s)
  {
    if |s| > 0 && s[0] == QuoteMark then
      ReadStringRest(s[1..]);
      ReadString(s[1..])
    else None
  }

  /** The decoder consumes a prefix: what it leaves is the input's tail. */
  lemma {:induction false} ReadStringRest(s: string)
    ensures ReadString(s).Some? ==> IsSuffix(ReadString(s).value.1, s)
    decreases |s|
  {
    if |s| > 0 && s[0] != QuoteMark {
      if s[0] == Backslash {
        match ReadEscape(s[1..])
        case None =>
        case Some((c, n)) =>
          ReadStringRest(s[1 + n..]);
      } else {
        ReadStringRest(s[1..]);
      }
    }
  }

  /** One escaped character, read back, gives that character and leaves the
      rest of the input to the next step. */
  lemma ReadEscapedChar(c: char, t: string)
    requires ReadString(t).Some?
    ensures ReadString(EscapeChar(c) + t) == Some(([c] + ReadString(t).value.0, ReadString(t).value.1))
  {
    var e := EscapeChar(c);
    if |e| == 2 {
      ReadShortEscape(c, t);
    } else if |e| == 6 {
      ReadUnicodeEscape(c, t);
    } else {
      assert (e + t)[1..] == t;
    }
  }

  lemma ReadShortEscape(c: char, t: string)
    requires ReadString(t).Some? && |EscapeChar(c)| == 2
    ensures ReadString(EscapeChar(c) + t) == Some(([c] + ReadString(t).value.0, ReadString(t).value.1))
  {
    var e := EscapeChar(c);
    var s := e + t;
    assert s[0] == Backslash;
    assert ReadEscape(s[1..]) == Some((c, 1)) by {
      assert s[1..][0] == e[1];
    }
    assert s[1 + 1..] == t;
  }

  lemma ReadUnicodeEscape(c: char, t: string)
    requires ReadString(t).Some? && |EscapeChar(c)| == 6
    ensures ReadString(EscapeChar(c) + t) == Some(([c] + ReadString(t).value.0, ReadString(t).value.1))
  {
    var e := EscapeChar(c);
    var code := c as int;
    assert code < 0x20 && e == [Backslash, 'u', '0', '0', HexDigit(code / 16), HexDigit(code % 16)];
    var s := e + t;
    assert s[0] == Backslash;
    assert s[1..][1..5] == e[2..6];
    HexDigitValue(code / 16);
    HexDigitValue(code % 16);
    assert Hex4(e[2..6]) == Some(code);
    assert ReadEscape(s[1..]) == Some((c, 5));
    assert s[1 + 5..] == t;
  }

  /** Reading back an escaped text and its closing quote recovers the text
      and leaves what followed untouched. */
  lemma {:induction false} EscapeRoundTrip(x: string, y: string)
    ensures ReadString(Escape(x) + [QuoteMark] + y) == Some((x, y))
    decreases |x|
  {
    if x == [] {
      assert Escape(x) + [QuoteMark] + y == [QuoteMark] + y;
    } else {
      var t := Escape(x[1..]) + [QuoteMark] + y;
      EscapeRoundTrip(x[1..], y);
      assert Escape(x) + [QuoteMark] + y == EscapeChar(x[0]) + t;
      ReadEscapedChar(x[0], t);
      assert [x[0]] + x[1..] == x;
    }
  }

  lemma QuoteRoundTrip(x: string, y: string)
    ensures ReadQuoted(Quote(x) + y) == Some((x, y))
  {
    var s := Quote(x) + y;
    assert s[1..] == Escape(x) + [QuoteMark] + y;
    EscapeRoundTrip(x, y);
  }

  /** The comma-separated literals of an array, without the brackets. */
  function Items(xs: seq<string>): string
    decreases |xs|
  {
    if xs == [] then []
    else if |xs| == 1 then Quote(xs[0])
    else Quote(xs[0]) + "," + Items(xs[1..])
  }

  /** An array of strings as `JSON.stringify` writes it. */
  function StringArray(xs: seq<string>): string {
    "[" + Items(xs) + "]"
  }

  /** Reads one or more comma-separated literals and the closing bracket. */
  function ReadItems(s: string): (r: Option<(seq<string>, string)>)
    ensures r.Some? ==> |r.value.1| < |s|
    decreases |s|
  {
    match ReadQuoted(s)
    case None => None
    case Some((x, rest)) =>
      if |rest| > 0 && rest[0] == ',' then
        match ReadItems(rest[1..])
        case None => None
        case Some((xs, after)) => Some(([x] + xs, after))
      else if |rest| > 0 && rest[0] == ']' then Some(([x], rest[1..]))
      else None
  }

  /** Decodes an array of string literals at the start of `s`. */
  function ReadStringArray(s: string): (r: Option<(seq<string>, string)>)
    ensures r.Some? ==> |r.value.1| < |s|
    ensures r.Some? ==> IsSuffix(r.value.1, s)
  {
    if |s| > 1 && s[0] == '[' && s[1] == ']' then Some(([], s[2..]))
    else if |s| > 0 && s[0] == '[' then
      ReadItemsRest(s[1..]);
      ReadItems(s[1..])
    else None
  }

  lemma {:induction false} ReadItemsRest(s: string)
    ensures ReadItems(s).Some? ==> IsSuffix(ReadItems(s).value.1, s)
    decreases |s|
  {
    match ReadQuoted(s)
    case None =>
    case Some((x, rest)) =>
      if |rest| > 0 && rest[0] == ',' {
        ReadItemsRest(rest[1..]);
      }
  }

  lemma {:induction false} ItemsRoundTrip(xs: seq<string>, y: string)
    requires xs != []
    ensures ReadItems(Items(xs) + "]" + y) == Some((xs, y))
    decreases |xs|
  {
    if |xs| == 1 {
      var s := Quote(xs[0]) + ("]" + y);
      assert Items(xs) + "]" + y == s;
      QuoteRoundTrip(xs[0], "]" + y);
      assert ("]" + y)[1..] == y;
      assert ReadItems(s) == Some(([xs[0]], y));
      assert [xs[0]] == xs;
    } else {
      var tail := Items(xs[1..]) + "]" + y;
      var s := Quote(xs[0]) + ("," + tail);
      assert Items(xs) + "]" + y == s;
      QuoteRoundTrip(xs[0], "," + tail);
      assert ("," + tail)[1..] == tail;
      ItemsRoundTrip(xs[1..], y);
      assert ReadItems(s) == Some(([xs[0]] + xs[1..], y));
      assert [xs[0]] + xs[1..] == xs;
    }
  }

  lemma ArrayRoundTrip(xs: seq<string>, y: string)
    ensures ReadStringArray(StringArray(xs) + y) == Some((xs, y))
  {
    var s := StringArray(xs) + y;
    if xs == [] {
      assert s == "[]" + y;
      assert s[2..] == y;
    } else {
      assert s[1..] == Items(xs) + "]" + y;
      assert s[1] == Quote(xs[0])[0];
      ItemsRoundTrip(xs, y);
    }
  }
}
