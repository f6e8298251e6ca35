/**
 * The part of Python's `json.dumps(..., indent=2)` the handlers use: a flat
 * object whose values are strings or integers, with the default
 * `ensure_ascii=True` string escaping.  A reader for the same layout is given
 * beside it, so that what a rendered report holds can be read back.
 */
module Json {
  import opened Wrappers
  import opened Text

  /** A JSON value as the tools pass it: a string or an integer. */
  datatype Value = Str(s: string) | Int(i: int)

  /** How an f-string shows a value (Python's `str`). */
  function Display(v: Value): string
  {
    match v
    case Str(s) => s
    case Int(i) => IntToDecimal(i)
  }

  /** Python truthiness: the empty string and zero are false. */
  predicate Truthy(v: Value)
  {
    match v
    case Str(s) => s != []
    case Int(i) => i != 0
  }

  const HexDigits: string := "0123456789abcdef"

  /** The last `width` lower-case hex digits of `n`. */
  function HexDigitsOf(n: nat, width: nat): (r: string)
    ensures |r| == width
    decreases width
  {
    if width == 0 then [] else HexDigitsOf(n / 16, width - 1) + [HexDigits[n % 16]]
  }

  /** Four lower-case hex digits, as in `'\\u{0:04x}'`. */
  function Hex4(n: nat): (r: string)
    requires n < 0x10000
    ensures |r| == 4
  {
    HexDigitsOf(n, 4)
  }

  /** The letter of the two-character escapes `\\`, `\"`, `\b`, `\f`, `\n`, `\r`, `\t`. */
  function ShortEscape(c: char): Option<char>
  {
    if c == '\\' then Some('\\')
    else if c == '"' then Some('"')
    else if c == '\U{8}' then Some('b')
    else if c == '\U{C}' then Some('f')
    else if c == '\n' then Some('n')
    else if c == '\r' then Some('r')
    else if c == '\t' then Some('t')
    else None
  }

  /** The character a high and a low surrogate stand for together. */
  function CombineSurrogates(hi: nat, lo: nat): int
  {
    0x10000 + (hi - 0xD800) * 0x400 + (lo - 0xDC00)
  }

  /** The UTF-16 surrogate pair of a character above U+FFFF. */
  function Surrogates(c: char): (p: (nat, nat))
    requires (c as int) >= 0x10000
    ensures 0xD800 <= p.0 < 0xDC00 && 0xDC00 <= p.1 < 0xE000
    ensures CombineSurrogates(p.0, p.1) == c as int
  {
    var n := c as int - 0x10000;
    (0xD800 + n / 0x400, 0xDC00 + n % 0x400)
  }

  /** Two `\uXXXX` escapes in a row. */
  function PairEscape(hi: nat, lo: nat): string
    requires hi < 0x10000 && lo < 0x10000
  {
    "\\u" + Hex4(hi) + "\\u" + Hex4(lo)
  }

  /** The `\uXXXX` escape of a character, written as a surrogate pair above U+FFFF. */
  function UnicodeEscape(c: char): (r: string)
  {
    if (c as int) < 0x10000 then "\\u" + Hex4(c as int)
    else PairEscape(Surrogates(c).0, Surrogates(c).1)
  }

  /** The escape `json.dumps` writes for one character of a string. */
  function EscapeChar(c: char): (r: string)
    ensures |r| >= 1
  {
    match ShortEscape(c)
    case Some(letter) => ['\\', letter]
    case None => if ' ' <= c <= '~' then [c] else UnicodeEscape(c)
  }

  function QuoteBody(s: string): string
    decreases |s|
  {
    if s == [] then [] else EscapeChar(s[0]) + QuoteBody(s[1..])
  }

  /** `json.dumps(s)` for a string. */
  function Quote(s: string): string
  {
    "\"" + QuoteBody(s) + "\""
  }

  predicate Printable(s: string)
  {
    forall i :: 0 <= i < |s| ==> ' ' <= s[i] <= '~'
  }

  lemma Hex4Printable(n: nat)
    requires n < 0x10000
    ensures Printable(Hex4(n))
  {
    Hex4Digits(n);
    assert forall d :: 0 <= d < 16 ==> ' ' <= HexDigits[d] <= '~';
  }

  lemma PrintableConcat(a: string, b: string)
    requires Printable(a) && Printable(b)
    ensures Printable(a + b)
  {
    forall i | 0 <= i < |a + b| ensures ' ' <= (a + b)[i] <= '~' {
      if i >= |a| {
        assert (a + b)[i] == b[i - |a|];
      }
    }
  }

  lemma PairEscapePrintable(hi: nat, lo: nat)
    requires hi < 0x10000 && lo < 0x10000
    ensures Printable(PairEscape(hi, lo))
  {
    Hex4Printable(hi);
    Hex4Printable(lo);
    PrintableConcat("\\u", Hex4(hi));
    PrintableConcat("\\u" + Hex4(hi), "\\u");
    PrintableConcat("\\u" + Hex4(hi) + "\\u", Hex4(lo));
  }

  lemma UnicodeEscapePrintable(c: char)
    ensures Printable(UnicodeEscape(c))
  {
    if (c as int) < 0x10000 {
      Hex4Printable(c as int);
      PrintableConcat("\\u", Hex4(c as int));
    } else {
      PairEscapePrintable(Surrogates(c).0, Surrogates(c).1);
    }
  }

  lemma EscapeCharPrintable(c: char)
    ensures Printable(EscapeChar(c))
  {
    if ShortEscape(c).None? && !(' ' <= c <= '~') {
      UnicodeEscapePrintable(c);
    }
  }

  /** Everything `json.dumps` writes for a string is printable ASCII (`ensure_ascii`). */
  lemma {:induction false} QuoteIsAscii(s: string)
    ensures Printable(QuoteBody(s))
    decreases |s|
  {
    if s != [] {
      QuoteIsAscii(s[1..]);
      EscapeCharPrintable(s[0]);
      var e := EscapeChar(s[0]);
      var q := QuoteBody(s);
      assert q == e + QuoteBody(s[1..]);
      forall i | 0 <= i < |q| ensures ' ' <= q[i] <= '~' {
        if i >= |e| {
          assert q[i] == QuoteBody(s[1..])[i - |e|];
        } else {
          assert q[i] == e[i];
        }
      }
    }
  }

  /** `json.dumps(v)` for a value. */
  function Encode(v: Value): string
  {
    match v
    case Str(s) => Quote(s)
    case Int(i) => IntToDecimal(i)
  }

  function Member(key: string, v: Value): string
  {
    "  " + Quote(key) + ": " + Encode(v)
  }

  function Members(pairs: seq<(string, Value)>): string
    requires |pairs| >= 1
    decreases |pairs|
  {
    Member(pairs[0].0, pairs[0].1)
      + if |pairs| == 1 then "\n}" else ",\n" + Members(pairs[1..])
  }

  /** `json.dumps(dict(pairs), indent=2)`, keys in insertion order. */
  function Object(pairs: seq<(string, Value)>): string
  {
    if pairs == [] then "{}" else "{\n" + Members(pairs)
  }

  // ---------------------------------------------------------------------
  // Reading back
  // ---------------------------------------------------------------------

  function HexValue(c: char): (r: Option<nat>)
    ensures r.Some? ==> r.value < 16
  {
    if '0' <= c <= '9' then Some(c as int - 48)
    else if 'a' <= c <= 'f' then Some(c as int - 87)
    else if 'A' <= c <= 'F' then Some(c as int - 55)
    else None
  }

  /** The number four hex digits at the start of `t` denote. */
  function ParseHex4(t: string): (r: Option<nat>)
    ensures r.Some? ==> |t| >= 4 && r.value < 0x10000
  {
    if |t| < 4 then None
    else
      var a, b, c, d := HexValue(t[0]), HexValue(t[1]), HexValue(t[2]), HexValue(t[3]);
      if a.None? || b.None? || c.None? || d.None? then None
      else Some(((a.value * 16 + b.value) * 16 + c.value) * 16 + d.value)
  }

  lemma HexDigitValue(d: nat)
    requires d < 16
    ensures HexValue(HexDigits[d]) == Some(d)
  {
  }

  lemma Hex4Digits(n: nat)
    requires n < 0x10000
    ensures n / 16 / 16 / 16 < 16
    ensures Hex4(n) == [HexDigits[n / 16 / 16 / 16], HexDigits[n / 16 / 16 % 16], HexDigits[n / 16 % 16], HexDigits[n % 16]]
  {
    var q1 := n / 16;
    var q2 := q1 / 16;
    var q3 := q2 / 16;
    assert q3 < 16;
    assert HexDigitsOf(q3 / 16, 0) == [];
    assert HexDigitsOf(q3, 1) == [HexDigits[q3 % 16]];
    assert HexDigitsOf(q2, 2) == HexDigitsOf(q3, 1) + [HexDigits[q2 % 16]];
    assert HexDigitsOf(q1, 3) == HexDigitsOf(q2, 2) + [HexDigits[q1 % 16]];
    assert HexDigitsOf(n, 4) == HexDigitsOf(q1, 3) + [HexDigits[n % 16]];
  }

  lemma ParseHexDigits(a: nat, b: nat, c: nat, d: nat, rest: string)
    requires a < 16 && b < 16 && c < 16 && d < 16
    ensures ParseHex4([HexDigits[a], HexDigits[b], HexDigits[c], HexDigits[d]] + rest)
      == Some(((a * 16 + b) * 16 + c) * 16 + d)
  {
    var t := [HexDigits[a], HexDigits[b], HexDigits[c], HexDigits[d]] + rest;
    assert t[0] == HexDigits[a] && t[1] == HexDigits[b] && t[2] == HexDigits[c] && t[3] == HexDigits[d];
    HexDigitValue(a);
    HexDigitValue(b);
    HexDigitValue(c);
    HexDigitValue(d);
  }

  lemma Base16(n: nat)
    ensures ((n / 16 / 16 / 16 * 16 + n / 16 / 16 % 16) * 16 + n / 16 % 16) * 16 + n % 16 == n
  {
    var q1 := n / 16;
    var q2 := q1 / 16;
    var q3 := q2 / 16;
    assert q3 * 16 + q2 % 16 == q2;
    assert q2 * 16 + q1 % 16 == q1;
    assert q1 * 16 + n % 16 == n;
  }

  lemma Hex4RoundTrip(n: nat, rest: string)
    requires n < 0x10000
    ensures ParseHex4(Hex4(n) + rest) == Some(n)
  {
    var a, b, c, d := n / 16 / 16 / 16, n / 16 / 16 % 16, n / 16 % 16, n % 16;
    var h := [HexDigits[a], HexDigits[b], HexDigits[c], HexDigits[d]];
    assert Hex4(n) == h by {
      Hex4Digits(n);
    }
    assert ((a * 16 + b) * 16 + c) * 16 + d == n by {
      Base16(n);
    }
    ParseHexDigits(a, b, c, d, rest);
  }

  /** The character of a `\\uXXXX` escape (or of a surrogate pair of them), `t` starting after the `u`. */
  function ParseUnicodeEscape(t: string): (r: Option<(char, string)>)
    ensures r.Some? ==> |r.value.1| < |t|
  {
    match ParseHex4(t)
    case None => None
    case Some(v) =>
      if 0xDC00 <= v < 0xE000 then None
      else if v < 0xD800 || 0xE000 <= v then Some((v as char, t[4..]))
      else
        // a high surrogate must be followed by an escaped low surrogate
        match ParseLowSurrogate(t[4..])
        case None => None
        case Some((w, u)) => Some((CombineSurrogates(v, w) as char, u))
  }

  /** The `\uXXXX` escape of a low surrogate that must follow a high one, and what follows it. */
  function ParseLowSurrogate(u: string): (r: Option<(nat, string)>)
    ensures r.Some? ==> 0xDC00 <= r.value.0 < 0xE000 && |r.value.1| < |u|
  {
    if |u| < 2 || u[0] != '\\' || u[1] != 'u' then None
    else match ParseHex4(u[2..])
      case None => None
      case Some(w) =>
        if 0xDC00 <= w < 0xE000 then Some((w, u[6..])) else None
  }

  /** One decoded character after a backslash, and what follows it. */
  function ParseEscape(t: string): (r: Option<(char, string)>)
    ensures r.Some? ==> |r.value.1| < |t|
  {
    if t == [] then None
    else if t[0] == '"' || t[0] == '\\' || t[0] == '/' then Some((t[0], t[1..]))
    else if t[0] == 'b' then Some(('\U{8}', t[1..]))
    else if t[0] == 'f' then Some(('\U{C}', t[1..]))
    else if t[0] == 'n' then Some(('\n', t[1..]))
    else if t[0] == 'r' then Some(('\r', t[1..]))
    else if t[0] == 't' then Some(('\t', t[1..]))
    else if t[0] == 'u' then ParseUnicodeEscape(t[1..])
    else None
  }

  /** One character of a string literal: an escape, or a plain character. */
  function ParseChar(t: string): (r: Option<(char, string)>)
    requires t != []
    ensures r.Some? ==> |r.value.1| < |t|
  {
    if t[0] == '\\' then ParseEscape(t[1..])
    else if t[0] == '"' || t[0] < ' ' then None
    else Some((t[0], t[1..]))
  }

  /** The characters of a string literal up to its closing quote, and what follows the quote. */
  function ParseStringBody(t: string): (r: Option<(string, string)>)
    ensures r.Some? ==> |r.value.1| < |t|
    decreases |t|
  {
    if t == [] then None
    else if t[0] == '"' then Some(([], t[1..]))
    else match ParseChar(t)
      case None => None
      case Some((c, t')) =>
        match ParseStringBody(t')
        case None => None
        case Some((s, rest)) => Some(([c] + s, rest))
  }

  /** A string literal at the start of `t`. */
  function ParseString(t: string): (r: Option<(string, string)>)
    ensures r.Some? ==> |r.value.1| < |t|
  {
    if t != [] && t[0] == '"' then ParseStringBody(t[1..]) else None
  }

  /** How many decimal digits `t` starts with. */
  function DigitRun(t: string): (k: nat)
    ensures k <= |t|
    ensures forall i :: 0 <= i < k ==> IsDigit(t[i])
    decreases |t|
  {
    if t != [] && IsDigit(t[0]) then 1 + DigitRun(t[1..]) else 0
  }

  /** The digits `t` starts with, read as a number, and what follows them. */
  function ParseUnsigned(t: string): (r: Option<(nat, string)>)
    ensures r.Some? ==> |r.value.1| < |t|
  {
    var k := DigitRun(t);
    if k == 0 then None else Some((DecimalValue(t[..k]), t[k..]))
  }

  /** A string or an integer at the start of `t`. */
  function ParseValue(t: string): (r: Option<(Value, string)>)
    ensures r.Some? ==> |r.value.1| < |t|
  {
    if t == [] then None
    else if t[0] == '"' then
      match ParseString(t)
      case None => None
      case Some((s, rest)) => Some((Str(s), rest))
    else if t[0] == '-' then
      match ParseUnsigned(t[1..])
      case None => None
      case Some((n, rest)) => Some((Int(-(n as int)), rest))
    else
      match ParseUnsigned(t)
      case None => None
      case Some((n, rest)) => Some((Int(n), rest))
  }

  /** One `  "key": value` line of an object, and what follows it. */
  function ParseMember(t: string): (r: Option<((string, Value), string)>)
    ensures r.Some? ==> |r.value.1| < |t|
  {
    if |t| < 2 || t[..2] != "  " then None
    else match ParseString(t[2..])
      case None => None
      case Some((key, t1)) =>
        if |t1| < 2 || t1[..2] != ": " then None
        else match ParseValue(t1[2..])
          case None => None
          case Some((v, t2)) => Some(((key, v), t2))
  }

  /** The members of an object up to and including its closing brace. */
  function ParseMembers(t: string): (r: Option<seq<(string, Value)>>)
    decreases |t|
  {
    match ParseMember(t)
    case None => None
    case Some((kv, t2)) =>
      if t2 == "\n}" then Some([kv])
      else if |t2| < 2 || t2[..2] != ",\n" then None
      else match ParseMembers(t2[2..])
        case None => None
        case Some(more) => Some([kv] + more)
  }

  /** Reads an object in the layout `json.dumps(..., indent=2)` writes. */
  function ParseObject(t: string): Option<seq<(string, Value)>>
  {
    if t == "{}" then Some([])
    else if |t| < 2 || t[..2] != "{\n" then None
    else ParseMembers(t[2..])
  }

  // ---------------------------------------------------------------------
  // Round trips
  // ---------------------------------------------------------------------

  lemma EscapeShortRoundTrip(c: char, rest: string)
    requires ShortEscape(c).Some?
    ensures ParseEscape([ShortEscape(c).value] + rest) == Some((c, rest))
  {
    assert ([ShortEscape(c).value] + rest)[1..] == rest;
  }

  lemma EscapeBmpRoundTrip(c: char, rest: string)
    requires (c as int) < 0x10000
    ensures ParseUnicodeEscape(Hex4(c as int) + rest) == Some((c, rest))
  {
    Hex4RoundTrip(c as int, rest);
    assert (Hex4(c as int) + rest)[4..] == rest;
  }

  lemma LowSurrogateRoundTrip(lo: nat, rest: string)
    requires 0xDC00 <= lo < 0xE000
    ensures ParseLowSurrogate("\\u" + Hex4(lo) + rest) == Some((lo, rest))
  {
    var u := "\\u" + Hex4(lo) + rest;
    assert u[2..] == Hex4(lo) + rest;
    Hex4RoundTrip(lo, rest);
    assert u[6..] == rest;
  }

  lemma PairUnicodeRoundTrip(hi: nat, lo: nat, rest: string)
    requires 0xD800 <= hi < 0xDC00 && 0xDC00 <= lo < 0xE000
    ensures ParseUnicodeEscape(Hex4(hi) + ("\\u" + Hex4(lo) + rest)) == Some((CombineSurrogates(hi, lo) as char, rest))
  {
    var tail := "\\u" + Hex4(lo) + rest;
    Hex4RoundTrip(hi, tail);
    assert (Hex4(hi) + tail)[4..] == tail;
    LowSurrogateRoundTrip(lo, rest);
  }

  /** After `\u`, a character literal is read as a Unicode escape. */
  lemma ParseCharUnicode(x: string)
    ensures ParseChar("\\u" + x) == ParseUnicodeEscape(x)
  {
    var t := "\\u" + x;
    assert t[1..] == "u" + x;
    assert t[1..][1..] == x;
  }

  lemma PairEscapeShape(h1: string, h2: string, rest: string)
    ensures "\\u" + h1 + "\\u" + h2 + rest == "\\u" + (h1 + ("\\u" + h2 + rest))
  {
  }

  lemma PairEscapeRoundTrip(hi: nat, lo: nat, rest: string)
    requires 0xD800 <= hi < 0xDC00 && 0xDC00 <= lo < 0xE000
    ensures ParseChar(PairEscape(hi, lo) + rest) == Some((CombineSurrogates(hi, lo) as char, rest))
  {
    PairEscapeShape(Hex4(hi), Hex4(lo), rest);
    ParseCharUnicode(Hex4(hi) + ("\\u" + Hex4(lo) + rest));
    PairUnicodeRoundTrip(hi, lo, rest);
  }

  lemma BmpEscapeRoundTrip(c: char, rest: string)
    requires (c as int) < 0x10000
    ensures ParseChar(UnicodeEscape(c) + rest) == Some((c, rest))
  {
    var h := Hex4(c as int);
    assert UnicodeEscape(c) + rest == "\\u" + (h + rest);
    ParseCharUnicode(h + rest);
    EscapeBmpRoundTrip(c, rest);
  }

  lemma AstralEscapeRoundTrip(c: char, rest: string)
    requires (c as int) >= 0x10000
    ensures ParseChar(UnicodeEscape(c) + rest) == Some((c, rest))
  {
    var p := Surrogates(c);
    PairEscapeRoundTrip(p.0, p.1, rest);
  }

  /** Every escape reads back as the character it stands for. */
  lemma EscapeCharRoundTrip(c: char, rest: string)
    ensures ParseChar(EscapeChar(c) + rest) == Some((c, rest))
  {
    var t := EscapeChar(c) + rest;
    match ShortEscape(c)
    case Some(letter) =>
      EscapeShortRoundTrip(c, rest);
      assert t[1..] == [letter] + rest;
    case None =>
      if ' ' <= c <= '~' {
        assert t[1..] == rest;
      } else if (c as int) < 0x10000 {
        BmpEscapeRoundTrip(c, rest);
      } else {
        AstralEscapeRoundTrip(c, rest);
      }
  }

  /** No escape starts with a quote, so the closing quote is never confused with content. */
  lemma EscapeCharNotQuote(c: char)
    ensures EscapeChar(c)[0] != '"'
  {
  }

  lemma {:induction false} QuoteBodyRoundTrip(s: string, rest: string)
    ensures ParseStringBody(QuoteBody(s) + "\"" + rest) == Some((s, rest))
    decreases |s|
  {
    var t := QuoteBody(s) + "\"" + rest;
    if s == [] {
      assert t == "\"" + rest;
      assert t[1..] == rest;
    } else {
      var e := EscapeChar(s[0]);
      var t' := QuoteBody(s[1..]) + "\"" + rest;
      assert t == e + t';
      EscapeCharNotQuote(s[0]);
      EscapeCharRoundTrip(s[0], t');
      QuoteBodyRoundTrip(s[1..], rest);
      assert [s[0]] + s[1..] == s;
    }
  }

  /** `json.loads(json.dumps(s)) == s`, whatever follows the literal. */
  lemma QuoteRoundTrip(s: string, rest: string)
    ensures ParseString(Quote(s) + rest) == Some((s, rest))
  {
    var t := Quote(s) + rest;
    assert t[1..] == QuoteBody(s) + "\"" + rest;
    QuoteBodyRoundTrip(s, rest);
  }

  lemma {:induction false} DigitRunOfDigits(d: string, rest: string)
    requires forall i :: 0 <= i < |d| ==> IsDigit(d[i])
    requires rest == [] || !IsDigit(rest[0])
    ensures DigitRun(d + rest) == |d|
    decreases |d|
  {
    if d != [] {
      assert (d + rest)[1..] == d[1..] + rest;
      DigitRunOfDigits(d[1..], rest);
    } else {
      assert d + rest == rest;
    }
  }

  lemma UnsignedRoundTrip(n: nat, rest: string)
    requires rest == [] || !IsDigit(rest[0])
    ensures ParseUnsigned(NatToDecimal(n) + rest) == Some((n, rest))
  {
    var d := NatToDecimal(n);
    DecimalRoundTrip(n);
    DigitRunOfDigits(d, rest);
    assert (d + rest)[..|d|] == d;
    assert (d + rest)[|d|..] == rest;
  }

  lemma NegativeRoundTrip(n: nat, rest: string)
    requires n > 0
    requires rest == [] || !IsDigit(rest[0])
    ensures ParseValue("-" + (NatToDecimal(n) + rest)) == Some((Int(-(n as int)), rest))
  {
    var t := "-" + (NatToDecimal(n) + rest);
    assert t[1..] == NatToDecimal(n) + rest;
    UnsignedRoundTrip(n, rest);
  }

  lemma NonNegativeRoundTrip(n: nat, rest: string)
    requires rest == [] || !IsDigit(rest[0])
    ensures ParseValue(NatToDecimal(n) + rest) == Some((Int(n), rest))
  {
    UnsignedRoundTrip(n, rest);
    assert IsDigit(NatToDecimal(n)[0]);
  }

  lemma IntRoundTrip(i: int, rest: string)
    requires rest == [] || !IsDigit(rest[0])
    ensures ParseValue(IntToDecimal(i) + rest) == Some((Int(i), rest))
  {
    if i < 0 {
      NegativeRoundTrip(-i, rest);
      assert IntToDecimal(i) + rest == "-" + (NatToDecimal(-i) + rest);
    } else {
      NonNegativeRoundTrip(i, rest);
    }
  }

  /** A value reads back from its encoding, when what follows cannot extend a number. */
  lemma EncodeRoundTrip(v: Value, rest: string)
    requires rest == [] || !IsDigit(rest[0])
    ensures ParseValue(Encode(v) + rest) == Some((v, rest))
  {
    match v
    case Str(s) =>
      QuoteRoundTrip(s, rest);
    case Int(i) =>
      IntRoundTrip(i, rest);
  }

  /** A two-character tag in front of some text is found and skipped. */
  lemma TagThen(tag: string, body: string)
    requires |tag| == 2
    ensures |tag + body| >= 2 && (tag + body)[..2] == tag && (tag + body)[2..] == body
  {
  }

  lemma MemberRoundTrip(key: string, v: Value, tail: string)
    requires tail == [] || !IsDigit(tail[0])
    ensures ParseMember(Member(key, v) + tail) == Some(((key, v), tail))
  {
    var q, e := Quote(key), Encode(v);
    var t1 := ": " + (e + tail);
    var t := "  " + (q + t1);
    assert Member(key, v) + tail == t;
    TagThen("  ", q + t1);
    QuoteRoundTrip(key, t1);
    TagThen(": ", e + tail);
    EncodeRoundTrip(v, tail);
  }

  lemma ParseLastMember(m: string, kv: (string, Value))
    requires ParseMember(m + "\n}") == Some((kv, "\n}"))
    ensures ParseMembers(m + "\n}") == Some([kv])
  {
  }

  lemma ParseNextMembers(m: string, more: string, kv: (string, Value), others: seq<(string, Value)>)
    requires ParseMember(m + (",\n" + more)) == Some((kv, ",\n" + more))
    requires ParseMembers(more) == Some(others)
    ensures ParseMembers(m + (",\n" + more)) == Some([kv] + others)
  {
    TagThen(",\n", more);
  }

  lemma {:induction false} MembersRoundTrip(pairs: seq<(string, Value)>)
    requires |pairs| >= 1
    ensures ParseMembers(Members(pairs)) == Some(pairs)
    decreases |pairs|
  {
    var key, v := pairs[0].0, pairs[0].1;
    var m := Member(key, v);
    if |pairs| == 1 {
      assert Members(pairs) == m + "\n}";
      MemberRoundTrip(key, v, "\n}");
      ParseLastMember(m, (key, v));
      assert pairs == [(key, v)];
    } else {
      var more := Members(pairs[1..]);
      assert Members(pairs) == m + (",\n" + more);
      MemberRoundTrip(key, v, ",\n" + more);
      MembersRoundTrip(pairs[1..]);
      ParseNextMembers(m, more, (key, v), pairs[1..]);
      assert [(key, v)] + pairs[1..] == pairs;
    }
  }

  /** `json.loads(json.dumps(dict(pairs), indent=2))` gives back the pairs, in order. */
  lemma ObjectRoundTrip(pairs: seq<(string, Value)>)
    ensures ParseObject(Object(pairs)) == Some(pairs)
  {
    if pairs != [] {
      var t := Object(pairs);
      assert t[..2] == "{\n" && t[2..] == Members(pairs);
      MembersRoundTrip(pairs);
    }
  }
}
