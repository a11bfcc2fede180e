/**
 * `sanitizeTag` (src/index.js:379-388): turns any text into a legal Docker
 * tag by a chain of `replace` calls followed by `slice(0, 128)`.
 */
module Sanitize {
  import opened JsStrings

  const MAX_TAG_LENGTH: nat := 128

  /**
   * Membership in `[\w_\-\.]`. Without the `u` flag `\w` is the ASCII class
   * `[A-Za-z0-9_]`, and the `i` flag cannot pull a non-ASCII unit into an
   * ASCII class, so the allowed units are exactly `[A-Za-z0-9_.-]`.
   */
  predicate IsTagUnit(c: CodeUnit) {
    || 0x41 <= c <= 0x5A
    || 0x61 <= c <= 0x7A
    || 0x30 <= c <= 0x39
    || c == UNDERSCORE || c == DOT || c == DASH
  }

  /** A tag Docker accepts: allowed units only, not led by `.` or `-`, at most 128 long. */
  predicate IsDockerTag(s: Str) {
    && |s| <= MAX_TAG_LENGTH
    && (forall i :: 0 <= i < |s| ==> IsTagUnit(s[i]))
    && (|s| > 0 ==> s[0] != DOT && s[0] != DASH)
  }

  /** What position `i` of the input becomes: itself when allowed there, `_` otherwise. */
  function SanitizedUnit(c: CodeUnit, leading: bool): CodeUnit {
    if IsTagUnit(c) && !(leading && (c == DOT || c == DASH)) then c else UNDERSCORE
  }

  /** `.replace(/[^\w_\-\.]/gi, '_')` */
  function ReplaceInvalid(s: Str): Str {
    seq(|s|, i requires 0 <= i < |s| => if IsTagUnit(s[i]) then s[i] else UNDERSCORE)
  }

  /** `.replace(/^(\.|-)/, '_')` */
  function ReplaceLeading(s: Str): Str {
    if |s| > 0 && (s[0] == DOT || s[0] == DASH) then [UNDERSCORE] + s[1..] else s
  }

  /** `.replace(from, to)` with a one-unit string pattern: only the first occurrence. */
  function ReplaceFirst(s: Str, from: CodeUnit, to: CodeUnit): (r: Str)
    ensures |r| == |s|
  {
    if s == [] then []
    else if s[0] == from then [to] + s[1..]
    else [s[0]] + ReplaceFirst(s[1..], from, to)
  }

  /** `.slice(0, n)` */
  function Slice(s: Str, n: nat): Str {
    if |s| <= n then s else s[..n]
  }

  function Min(a: nat, b: nat): nat { if a <= b then a else b }

  /**
   * `sanitizeTag`. A missing tag is the empty sequence (`tag || ''`).
   * Every rewrite is one unit for one unit, so the result is the input
   * position by position, cut at 128 units.
   */
  function SanitizeTag(tag: Str): (r: Str)
    ensures |r| == Min(|tag|, MAX_TAG_LENGTH)
    ensures forall i :: 0 <= i < |r| ==> r[i] == SanitizedUnit(tag[i], i == 0)
    ensures IsDockerTag(r)
  {
    SanitizeTagSteps(tag);
    Slice(ReplaceFirst(ReplaceLeading(ReplaceInvalid(tag)), SLASH, UNDERSCORE), MAX_TAG_LENGTH)
  }

  lemma {:induction false} ReplaceFirstAbsent(s: Str, from: CodeUnit, to: CodeUnit)
    requires from !in s
    ensures ReplaceFirst(s, from, to) == s
  {
    if s != [] {
      ReplaceFirstAbsent(s[1..], from, to);
    }
  }

  /**
   * The `'/'` replacement of line 386 cannot change anything: line 384 has
   * already turned every `/` into `_`.
   */
  lemma SlashReplacementNeverFires(tag: Str)
    ensures SLASH !in ReplaceLeading(ReplaceInvalid(tag))
    ensures ReplaceFirst(ReplaceLeading(ReplaceInvalid(tag)), SLASH, UNDERSCORE)
         == ReplaceLeading(ReplaceInvalid(tag))
  {
    var cleaned := ReplaceLeading(ReplaceInvalid(tag));
    assert forall i :: 0 <= i < |cleaned| ==> IsTagUnit(cleaned[i]);
    ReplaceFirstAbsent(cleaned, SLASH, UNDERSCORE);
  }

  /** The chain of `sanitizeTag` works position by position. */
  lemma SanitizeTagSteps(tag: Str)
    ensures var r := Slice(ReplaceFirst(ReplaceLeading(ReplaceInvalid(tag)), SLASH, UNDERSCORE), MAX_TAG_LENGTH);
      && |r| == Min(|tag|, MAX_TAG_LENGTH)
      && (forall i :: 0 <= i < |r| ==> r[i] == SanitizedUnit(tag[i], i == 0))
  {
    var cleaned := ReplaceLeading(ReplaceInvalid(tag));
    SlashReplacementNeverFires(tag);
    var r := Slice(cleaned, MAX_TAG_LENGTH);
    forall i | 0 <= i < |r| ensures r[i] == SanitizedUnit(tag[i], i == 0) {
      assert r[i] == cleaned[i];
    }
  }

  /** Sanitizing a sanitized tag changes nothing. */
  lemma SanitizeTagIdempotent(tag: Str)
    ensures SanitizeTag(SanitizeTag(tag)) == SanitizeTag(tag)
  {
    var once := SanitizeTag(tag);
    var twice := SanitizeTag(once);
    assert |twice| == |once|;
    forall i | 0 <= i < |once| ensures twice[i] == once[i] {
      assert IsTagUnit(once[i]);
    }
  }

  /** A tag that is already legal is left as it is. */
  lemma SanitizeTagKeepsLegalTags(tag: Str)
    requires IsDockerTag(tag)
    ensures SanitizeTag(tag) == tag
  {
    var r := SanitizeTag(tag);
    forall i | 0 <= i < |tag| ensures r[i] == tag[i] {
      assert IsTagUnit(tag[i]);
    }
  }

  /** A legal tag with one illegal unit past its head: only that unit changes. */
  lemma SanitizeTagOneIllegal(tag: Str, k: nat)
    requires 0 < k < |tag| && !IsTagUnit(tag[k])
    requires IsDockerTag(tag[k := UNDERSCORE])
    ensures SanitizeTag(tag) == tag[k := UNDERSCORE]
  {
    var r, want := SanitizeTag(tag), tag[k := UNDERSCORE];
    forall i | 0 <= i < |tag| ensures r[i] == want[i] {
      assert i != k ==> want[i] == tag[i];
    }
  }

  /** `"feature/foo"` becomes `"feature_foo"`. */
  lemma SanitizeTagSlashExample()
    ensures SanitizeTag(Lit("feature/foo")) == Lit("feature_foo")
  {
    var a: Str := [0x66, 0x65, 0x61, 0x74, 0x75, 0x72, 0x65, 0x2F, 0x66, 0x6F, 0x6F];
    assert Lit("feature/foo") == a;
    var b: Str := [0x66, 0x65, 0x61, 0x74, 0x75, 0x72, 0x65, 0x5F, 0x66, 0x6F, 0x6F];
    assert Lit("feature_foo") == b == a[7 := UNDERSCORE];
    assert forall i :: 0 <= i < |b| ==> IsTagUnit(b[i]);
    SanitizeTagOneIllegal(a, 7);
  }

  /** `".bad"` and `"-bad"` both become `"_bad"`. */
  lemma SanitizeTagLeadingExamples()
    ensures SanitizeTag(Lit(".bad")) == Lit("_bad")
    ensures SanitizeTag(Lit("-bad")) == Lit("_bad")
  {
    var dot, dash, b := Lit(".bad"), Lit("-bad"), Lit("_bad");
    assert dot == [0x2E, 0x62, 0x61, 0x64];
    assert dash == [0x2D, 0x62, 0x61, 0x64];
    assert b == [0x5F, 0x62, 0x61, 0x64];
    var r, q := SanitizeTag(dot), SanitizeTag(dash);
    forall i | 0 <= i < 4 ensures r[i] == b[i] && q[i] == b[i] {
      assert r[i] == SanitizedUnit(dot[i], i == 0);
      assert q[i] == SanitizedUnit(dash[i], i == 0);
    }
  }

  /** A 200-unit alphanumeric name keeps its first 128 units. */
  lemma SanitizeTagTruncates(tag: Str)
    requires |tag| == 200
    requires forall i :: 0 <= i < |tag| ==> 0x30 <= tag[i] <= 0x39 || 0x41 <= tag[i] <= 0x5A || 0x61 <= tag[i] <= 0x7A
    ensures SanitizeTag(tag) == tag[..128]
  {
  }
}
