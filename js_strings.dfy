/**
 * JavaScript strings as sequences of UTF-16 code units, the unit on which
 * `String.prototype.replace`, `slice`, `split` and `indexOf` work when a
 * regular expression carries no `u` flag.
 */
module JsStrings {
  import opened Wrappers

  newtype CodeUnit = u: int | 0 <= u < 0x1_0000

  type Str = seq<CodeUnit>

  const NEWLINE: CodeUnit := 0x0A
  const SPACE: CodeUnit := 0x20
  const BANG: CodeUnit := 0x21
  const QUOTE: CodeUnit := 0x22
  const COMMA: CodeUnit := 0x2C
  const DASH: CodeUnit := 0x2D
  const DOT: CodeUnit := 0x2E
  const SLASH: CodeUnit := 0x2F
  const COLON: CodeUnit := 0x3A
  const EQUALS: CodeUnit := 0x3D
  const LBRACKET: CodeUnit := 0x5B
  const BACKSLASH: CodeUnit := 0x5C
  const RBRACKET: CodeUnit := 0x5D
  const UNDERSCORE: CodeUnit := 0x5F

  /**
   * The code units of a string literal of the Basic Multilingual Plane (all
   * literals of the source are ASCII); a character beyond it, which no
   * literal here contains, would read as U+FFFD.
   */
  function Lit(s: string): (r: Str)
    ensures |r| == |s|
  {
    seq(|s|, i requires 0 <= i < |s| => if s[i] as int < 0x1_0000 then s[i] as int as CodeUnit else 0xFFFD)
  }

  predicate IsHighSurrogate(c: CodeUnit) { 0xD800 <= c <= 0xDBFF }

  predicate IsLowSurrogate(c: CodeUnit) { 0xDC00 <= c <= 0xDFFF }

  predicate IsSurrogate(c: CodeUnit) { 0xD800 <= c <= 0xDFFF }

  /** `s.indexOf(c) >= 0` */
  predicate Contains(s: Str, c: CodeUnit) { c in s }

  /** The text before the first `sep`, or all of `s` when there is none: piece 0 of `s.split(sep)`. */
  function Before(s: Str, sep: CodeUnit): (r: Str)
    ensures sep !in r
    ensures r <= s
    ensures sep in s ==> |r| < |s| && s[|r|] == sep
    ensures sep !in s ==> r == s
  {
    if s == [] || s[0] == sep then [] else [s[0]] + Before(s[1..], sep)
  }

  /** The text after the first `sep`, if `s` contains one. */
  function After(s: Str, sep: CodeUnit): (r: Option<Str>)
    ensures r.Some? <==> sep in s
    ensures r.Some? ==> s == Before(s, sep) + [sep] + r.value
  {
    if sep in s then Some(s[|Before(s, sep)| + 1..]) else None
  }

  /** `parts.join(sep)` for a one-unit separator; an absent part is the empty string. */
  function JoinWith(parts: seq<Str>, sep: CodeUnit): Str {
    if |parts| == 0 then []
    else if |parts| == 1 then parts[0]
    else parts[0] + [sep] + JoinWith(parts[1..], sep)
  }

  /** `s.split(sep)` for a one-unit separator: never empty, more than one piece exactly when `sep` occurs, and no piece holds `sep`. */
  function Split(s: Str, sep: CodeUnit): (r: seq<Str>)
    ensures |r| >= 1
    ensures |r| >= 2 <==> sep in s
    ensures forall i :: 0 <= i < |r| ==> sep !in r[i]
    decreases |s|
  {
    if sep in s then [Before(s, sep)] + Split(After(s, sep).value, sep) else [s]
  }

  /**
   * When `sep` occurs, the first two pieces of `s.split(sep)` are the text
   * before the first `sep` and the text after it up to the next `sep` or
   * the end.
   */
  lemma SplitFirstTwo(s: Str, sep: CodeUnit)
    requires sep in s
    ensures var k := Split(s, sep)[0];
            var v := Split(s, sep)[1];
            && |k| + 1 + |v| <= |s|
            && s[..|k| + 1 + |v|] == k + [sep] + v
            && (|k| + 1 + |v| == |s| || s[|k| + 1 + |v|] == sep)
  {
    var k := Before(s, sep);
    var rest := After(s, sep).value;
    var v := Before(rest, sep);
    assert Split(s, sep)[0] == k && Split(s, sep)[1] == v by {
      assert Split(s, sep) == [k] + Split(rest, sep);
    }
    ConcatSlice(k, sep, rest, v);
  }

  /** Cutting `a + [x] + c` after a prefix `p` of `c`. */
  lemma ConcatSlice(a: Str, x: CodeUnit, c: Str, p: Str)
    requires p <= c
    ensures (a + [x] + c)[..|a| + 1 + |p|] == a + [x] + p
    ensures |p| < |c| ==> (a + [x] + c)[|a| + 1 + |p|] == c[|p|]
  {
  }

  /** Joining the pieces back gives the string that was split. */
  lemma {:induction false} SplitThenJoin(s: Str, sep: CodeUnit)
    ensures JoinWith(Split(s, sep), sep) == s
    decreases |s|
  {
    if sep in s {
      var rest := After(s, sep).value;
      SplitThenJoin(rest, sep);
    }
  }

  /** Splitting a join of pieces free of the separator gives the pieces back. */
  lemma {:induction false} JoinThenSplit(parts: seq<Str>, sep: CodeUnit)
    requires |parts| >= 1
    requires forall i :: 0 <= i < |parts| ==> sep !in parts[i]
    ensures Split(JoinWith(parts, sep), sep) == parts
    decreases |parts|
  {
    if |parts| > 1 {
      SplitJoinStep(parts[0], JoinWith(parts[1..], sep), sep);
      assert forall i :: 0 <= i < |parts| - 1 ==> parts[1..][i] == parts[i + 1];
      JoinThenSplit(parts[1..], sep);
      assert [parts[0]] + parts[1..] == parts;
    }
  }

  /** Splitting `p + [sep] + t`, when `p` holds no `sep`, gives `p` and then the pieces of `t`. */
  lemma SplitJoinStep(p: Str, t: Str, sep: CodeUnit)
    requires sep !in p
    ensures Split(p + [sep] + t, sep) == [p] + Split(t, sep)
  {
    BeforeAfterPrefix(p, sep, t);
  }

  /** The first `sep` of `p + [sep] + t`, when `p` holds none, is the one after `p`. */
  lemma {:induction false} BeforeAfterPrefix(p: Str, sep: CodeUnit, t: Str)
    requires sep !in p
    ensures Before(p + [sep] + t, sep) == p
    ensures After(p + [sep] + t, sep) == Some(t)
    decreases |p|
  {
    if p != [] {
      assert (p + [sep] + t)[1..] == p[1..] + [sep] + t;
      BeforeAfterPrefix(p[1..], sep, t);
    }
  }
}
