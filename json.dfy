/**
 * `JSON.stringify` of an array of strings, as used for the CMD and
 * ENTRYPOINT instructions (src/index.js:255, 258), with string escaping as
 * in section 7 of RFC 8259 and ECMAScript 2019's QuoteJSONString: `"` and
 * `\` are escaped, the control characters below U+0020 take their short or
 * `\u00xx` form, and a lone surrogate is written as `\udxxx`; a surrogate
 * pair is copied. A parser for the same subset of JSON is the partner that
 * shows nothing is lost.
 */
module Json {
  import opened Wrappers
  import opened JsStrings

  const LOWER_B: CodeUnit := 0x62
  const LOWER_F: CodeUnit := 0x66
  const LOWER_N: CodeUnit := 0x6E
  const LOWER_R: CodeUnit := 0x72
  const LOWER_T: CodeUnit := 0x74
  const LOWER_U: CodeUnit := 0x75

  /** Lower-case hexadecimal digit, as QuoteJSONString writes them. */
  function HexDigit(d: int): CodeUnit
    requires 0 <= d < 16
  {
    if d < 10 then (0x30 + d) as CodeUnit else (0x61 + d - 10) as CodeUnit
  }

  /** `\u` followed by the four hex digits of `c`. */
  function UnicodeEscape(c: CodeUnit): (r: Str)
    ensures |r| == 6
  {
    var n := c as int;
    [BACKSLASH, LOWER_U, HexDigit(n / 0x1000), HexDigit(n / 0x100 % 0x10), HexDigit(n / 0x10 % 0x10), HexDigit(n % 0x10)]
  }

  /** The escape of one unit that is not the first half of a surrogate pair. */
  function EscapeUnit(c: CodeUnit): (r: Str)
    ensures |r| > 0
  {
    if c == QUOTE then [BACKSLASH, QUOTE]
    else if c == BACKSLASH then [BACKSLASH, BACKSLASH]
    else if c == 0x08 then [BACKSLASH, LOWER_B]
    else if c == 0x09 then [BACKSLASH, LOWER_T]
    else if c == 0x0A then [BACKSLASH, LOWER_N]
    else if c == 0x0C then [BACKSLASH, LOWER_F]
    else if c == 0x0D then [BACKSLASH, LOWER_R]
    else if c < 0x20 || IsSurrogate(c) then UnicodeEscape(c)
    else [c]
  }

  /** A high surrogate followed by a low one: one code point, copied as it is. */
  predicate StartsPair(s: Str) {
    |s| >= 2 && IsHighSurrogate(s[0]) && IsLowSurrogate(s[1])
  }

  /** The text between the quotes of QuoteJSONString(s). */
  function QuoteBody(s: Str): Str
    decreases |s|
  {
    if s == [] then []
    else if StartsPair(s) then s[..2] + QuoteBody(s[2..])
    else EscapeUnit(s[0]) + QuoteBody(s[1..])
  }

  function Quote(s: Str): Str {
    [QUOTE] + QuoteBody(s) + [QUOTE]
  }

  /** The quoted elements joined by `,`. */
  function QuoteAll(xs: seq<Str>): Str
    decreases |xs|
  {
    if xs == [] then []
    else if |xs| == 1 then Quote(xs[0])
    else Quote(xs[0]) + [COMMA] + QuoteAll(xs[1..])
  }

  /** `JSON.stringify(xs)` for an array of strings: no white space is written. */
  function StringifyArray(xs: seq<Str>): Str {
    [LBRACKET] + QuoteAll(xs) + [RBRACKET]
  }

  // ---- The partner: a parser for a JSON array of strings ----

  function HexValue(c: CodeUnit): Option<int> {
    if 0x30 <= c <= 0x39 then Some(c as int - 0x30)
    else if 0x61 <= c <= 0x66 then Some(c as int - 0x61 + 10)
    else if 0x41 <= c <= 0x46 then Some(c as int - 0x41 + 10)
    else None
  }

  function ParseHex4(a: CodeUnit, b: CodeUnit, c: CodeUnit, d: CodeUnit): Option<CodeUnit> {
    match (HexValue(a), HexValue(b), HexValue(c), HexValue(d))
    case (Some(w), Some(x), Some(y), Some(z)) =>
      var v := ((w * 16 + x) * 16 + y) * 16 + z;
      if 0 <= v < 0x1_0000 then Some(v as CodeUnit) else None
    case _ => None
  }

  /** The unit an escape at the head of `s` (which starts with `\`) stands for, and its length. */
  function ReadEscape(s: Str): (r: Option<(CodeUnit, nat)>)
    requires |s| >= 2 && s[0] == BACKSLASH
    ensures r.Some? ==> 2 <= r.value.1 <= |s|
  {
    var e := s[1];
    if e == QUOTE || e == BACKSLASH || e == SLASH then Some((e, 2))
    else if e == LOWER_B then Some((0x08, 2))
    else if e == LOWER_F then Some((0x0C, 2))
    else if e == LOWER_N then Some((0x0A, 2))
    else if e == LOWER_R then Some((0x0D, 2))
    else if e == LOWER_T then Some((0x09, 2))
    else if e == LOWER_U && |s| >= 6 then
      match ParseHex4(s[2], s[3], s[4], s[5])
      case Some(c) => Some((c, 6))
      case None => None
    else None
  }

  /**
   * Reads the body of a JSON string up to its closing quote: the decoded
   * units and what follows the quote.
   */
  function Unquote(s: Str): (r: Option<(Str, Str)>)
    ensures r.Some? ==> |r.value.1| < |s|
    decreases |s|
  {
    if s == [] then None
    else if s[0] == QUOTE then Some(([], s[1..]))
    else if s[0] == BACKSLASH then
      if |s| < 2 then None
      else match ReadEscape(s)
        case None => None
        case Some((c, n)) => Prefix([c], Unquote(s[n..]))
    else if s[0] < 0x20 then None
    else Prefix([s[0]], Unquote(s[1..]))
  }

  function Prefix(p: Str, r: Option<(Str, Str)>): Option<(Str, Str)> {
    match r
    case None => None
    case Some((body, rest)) => Some((p + body, rest))
  }

  /** The elements of `s`, which must be one or more quoted strings separated by `,` and then `]`. */
  function ParseElements(s: Str): Option<seq<Str>>
    decreases |s|
  {
    if s == [] || s[0] != QUOTE then None
    else match Unquote(s[1..])
      case None => None
      case Some((x, rest)) =>
        if rest == [] then None
        else if rest[0] == RBRACKET then (if |rest| == 1 then Some([x]) else None)
        else if rest[0] == COMMA then
          match ParseElements(rest[1..])
          case None => None
          case Some(xs) => Some([x] + xs)
        else None
  }

  /** A JSON array of strings without white space. */
  function ParseArray(s: Str): Option<seq<Str>> {
    if |s| < 2 || s[0] != LBRACKET then None
    else if s[1] == RBRACKET then (if |s| == 2 then Some([]) else None)
    else ParseElements(s[1..])
  }

  // ---- Round trip ----

  lemma HexDigitValue(d: int)
    requires 0 <= d < 16
    ensures HexValue(HexDigit(d)) == Some(d)
  {
  }

  /** The four hexadecimal digits of a 16-bit number give the number back. */
  lemma HexDigitsOf(n: int)
    requires 0 <= n < 0x1_0000
    ensures ((n / 0x1000 * 16 + n / 0x100 % 0x10) * 16 + n / 0x10 % 0x10) * 16 + n % 0x10 == n
  {
    var a := n / 0x10;
    var b := a / 0x10;
    assert n == a * 0x10 + n % 0x10;
    assert a == b * 0x10 + a % 0x10;
    assert b == b / 0x10 * 0x10 + b % 0x10;
    assert b == n / 0x100 && b / 0x10 == n / 0x1000;
  }

  lemma UnicodeEscapeRoundTrip(c: CodeUnit)
    ensures var e := UnicodeEscape(c); ParseHex4(e[2], e[3], e[4], e[5]) == Some(c)
  {
    var n := c as int;
    HexDigitValue(n / 0x1000);
    HexDigitValue(n / 0x100 % 0x10);
    HexDigitValue(n / 0x10 % 0x10);
    HexDigitValue(n % 0x10);
    HexDigitsOf(n);
  }

  /** A unit that needs no escape is read as itself. */
  lemma UnquotePlain(c: CodeUnit, t: Str)
    requires c != QUOTE && c != BACKSLASH && c >= 0x20
    ensures Unquote([c] + t) == Prefix([c], Unquote(t))
  {
    assert ([c] + t)[1..] == t;
  }

  /** A two-unit escape `\x` is read back as the unit it stands for. */
  lemma UnquoteShortEscape(c: CodeUnit, t: Str)
    requires c == QUOTE || c == BACKSLASH || c == 0x08 || c == 0x09 || c == 0x0A || c == 0x0C || c == 0x0D
    ensures Unquote(EscapeUnit(c) + t) == Prefix([c], Unquote(t))
  {
    var s := EscapeUnit(c) + t;
    assert s[0] == BACKSLASH && |EscapeUnit(c)| == 2 && s[2..] == t;
    assert ReadEscape(s) == Some((c, 2));
  }

  /** A `\uxxxx` escape is read back as the unit it stands for. */
  lemma UnquoteUnicodeEscape(c: CodeUnit, t: Str)
    ensures Unquote(UnicodeEscape(c) + t) == Prefix([c], Unquote(t))
  {
    var e := UnicodeEscape(c);
    var s := e + t;
    UnicodeEscapeRoundTrip(c);
    assert s[0] == BACKSLASH && s[1] == LOWER_U && s[6..] == t;
    assert s[2] == e[2] && s[3] == e[3] && s[4] == e[4] && s[5] == e[5];
    assert ReadEscape(s) == Some((c, 6));
  }

  /** Reading one escaped unit and then the rest. */
  lemma UnquoteEscapeUnit(c: CodeUnit, t: Str)
    ensures Unquote(EscapeUnit(c) + t) == Prefix([c], Unquote(t))
  {
    if c == QUOTE || c == BACKSLASH || c == 0x08 || c == 0x09 || c == 0x0A || c == 0x0C || c == 0x0D {
      UnquoteShortEscape(c, t);
    } else if c < 0x20 || IsSurrogate(c) {
      assert EscapeUnit(c) == UnicodeEscape(c);
      UnquoteUnicodeEscape(c, t);
    } else {
      assert EscapeUnit(c) == [c];
      UnquotePlain(c, t);
    }
  }

  lemma PrefixAssoc(p: Str, q: Str, r: Option<(Str, Str)>)
    ensures Prefix(p, Prefix(q, r)) == Prefix(p + q, r)
  {
    if r.Some? {
      assert p + (q + r.value.0) == (p + q) + r.value.0;
    }
  }

  /** A surrogate pair is copied, so reading it back takes two plain units. */
  lemma UnquotePairStep(x: Str, t: Str)
    requires StartsPair(x)
    requires Unquote(QuoteBody(x[2..]) + [QUOTE] + t) == Some((x[2..], t))
    ensures Unquote(QuoteBody(x) + [QUOTE] + t) == Some((x, t))
  {
    var tail := QuoteBody(x[2..]) + [QUOTE] + t;
    assert QuoteBody(x) == x[..2] + QuoteBody(x[2..]);
    assert QuoteBody(x) + [QUOTE] + t == [x[0]] + ([x[1]] + tail);
    UnquotePlain(x[1], tail);
    UnquotePlain(x[0], [x[1]] + tail);
    PrefixAssoc([x[0]], [x[1]], Unquote(tail));
    assert [x[0]] + [x[1]] + x[2..] == x;
  }

  /** Any other unit is escaped on its own. */
  lemma UnquoteUnitStep(x: Str, t: Str)
    requires x != [] && !StartsPair(x)
    requires Unquote(QuoteBody(x[1..]) + [QUOTE] + t) == Some((x[1..], t))
    ensures Unquote(QuoteBody(x) + [QUOTE] + t) == Some((x, t))
  {
    var tail := QuoteBody(x[1..]) + [QUOTE] + t;
    assert QuoteBody(x) == EscapeUnit(x[0]) + QuoteBody(x[1..]);
    assert QuoteBody(x) + [QUOTE] + t == EscapeUnit(x[0]) + tail;
    UnquoteEscapeUnit(x[0], tail);
    assert [x[0]] + x[1..] == x;
  }

  lemma {:induction false} UnquoteQuoteBody(x: Str, t: Str)
    ensures Unquote(QuoteBody(x) + [QUOTE] + t) == Some((x, t))
    decreases |x|
  {
    if x == [] {
      assert QuoteBody(x) + [QUOTE] + t == [QUOTE] + t;
    } else if StartsPair(x) {
      UnquoteQuoteBody(x[2..], t);
      UnquotePairStep(x, t);
    } else {
      UnquoteQuoteBody(x[1..], t);
      UnquoteUnitStep(x, t);
    }
  }

  /** The last quoted element, followed by `]`. */
  lemma ParseLastElement(x: Str)
    ensures ParseElements(Quote(x) + [RBRACKET]) == Some([x])
  {
    var s := Quote(x) + [RBRACKET];
    assert s[0] == QUOTE;
    assert s[1..] == QuoteBody(x) + [QUOTE] + [RBRACKET];
    UnquoteQuoteBody(x, [RBRACKET]);
  }

  /** A quoted element followed by `,` and further elements. */
  lemma ParseNextElement(x: Str, more: Str, xs: seq<Str>)
    requires ParseElements(more) == Some(xs)
    ensures ParseElements(Quote(x) + [COMMA] + more) == Some([x] + xs)
  {
    var s := Quote(x) + [COMMA] + more;
    assert s[0] == QUOTE;
    assert s[1..] == QuoteBody(x) + [QUOTE] + ([COMMA] + more);
    UnquoteQuoteBody(x, [COMMA] + more);
    assert ([COMMA] + more)[1..] == more;
  }

  lemma {:induction false} ParseQuoteAll(xs: seq<Str>)
    requires xs != []
    ensures ParseElements(QuoteAll(xs) + [RBRACKET]) == Some(xs)
    decreases |xs|
  {
    if |xs| == 1 {
      ParseLastElement(xs[0]);
      assert xs == [xs[0]];
    } else {
      ParseQuoteAll(xs[1..]);
      ParseNextElement(xs[0], QuoteAll(xs[1..]) + [RBRACKET], xs[1..]);
      assert QuoteAll(xs) + [RBRACKET] == Quote(xs[0]) + [COMMA] + (QuoteAll(xs[1..]) + [RBRACKET]);
      assert [xs[0]] + xs[1..] == xs;
    }
  }

  /** Parsing what `JSON.stringify` wrote gives back the array. */
  lemma StringifyArrayRoundTrip(xs: seq<Str>)
    ensures ParseArray(StringifyArray(xs)) == Some(xs)
  {
    var s := StringifyArray(xs);
    if xs == [] {
      assert s == [LBRACKET, RBRACKET];
    } else {
      assert QuoteAll(xs)[0] == QUOTE;
      assert s[1..] == QuoteAll(xs) + [RBRACKET];
      ParseQuoteAll(xs);
    }
  }

  /** Different arrays are written differently. */
  lemma StringifyArrayInjective(xs: seq<Str>, ys: seq<Str>)
    requires StringifyArray(xs) == StringifyArray(ys)
    ensures xs == ys
  {
    StringifyArrayRoundTrip(xs);
    StringifyArrayRoundTrip(ys);
  }
}
