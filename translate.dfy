/**
 * `getChangesForImport` (src/index.js:220-263) without its `docker.inspect`
 * call: the inspected image configuration becomes the ordered list of
 * commit instructions that `docker import --change` re-applies to the
 * flattened image, plus the image size, which is carried beside the list.
 */
module Translate {
  import opened Wrappers
  import opened JsStrings
  import Json

  /**
   * The parts of the inspection record the translator reads. An absent
   * `User`, `WorkingDir`, `Env`, `ExposedPorts`, `Cmd` or `Entrypoint` is
   * the empty value, as `|| []` and the truthiness tests treat it;
   * `exposedPorts` holds `Object.keys(ExposedPorts)` in the engine's order.
   */
  datatype Inspected = Inspected(
    user: Str,
    workingDir: Str,
    env: seq<Str>,
    exposedPorts: seq<Str>,
    cmd: seq<Str>,
    entrypoint: seq<Str>,
    size: nat)

  /** The `changes` array, and the `size` property attached to it. */
  datatype Changes = Changes(instructions: seq<Str>, size: nat)

  /** `e.split('=')` of an entry without `=` leaves `v` undefined, and `v.indexOf` throws. */
  datatype TranslateError = EnvWithoutEquals(entry: Str)

  const USER: Str := Lit("USER")
  const WORKDIR: Str := Lit("WORKDIR")
  const ENV: Str := Lit("ENV")
  const EXPOSE: Str := Lit("EXPOSE")
  const CMD: Str := Lit("CMD")
  const ENTRYPOINT: Str := Lit("ENTRYPOINT")

  /** The instruction keywords in the order the translator emits them. */
  const KEYWORDS: seq<Str> := [USER, WORKDIR, ENV, EXPOSE, CMD, ENTRYPOINT]

  /** The template `${word} ${argument}`. */
  function Instruction(word: Str, argument: Str): Str {
    word + [SPACE] + argument
  }

  /** One unit of `.replace(/\n/g, ' ').replace(/"/g, '\\"').replace(/!/g, '\\!')`. */
  function EscapeEnvUnit(c: CodeUnit): Str {
    if c == NEWLINE then [SPACE]
    else if c == QUOTE then [BACKSLASH, QUOTE]
    else if c == BANG then [BACKSLASH, BANG]
    else [c]
  }

  function EscapeEnvValue(v: Str): Str
    decreases |v|
  {
    if v == [] then [] else EscapeEnvUnit(v[0]) + EscapeEnvValue(v[1..])
  }

  /** A value with a space is escaped and wrapped in `"`; any other value is kept. */
  function EnvValue(v: Str): Str {
    if Contains(v, SPACE) then [QUOTE] + EscapeEnvValue(v) + [QUOTE] else v
  }

  /** `ENV ${k}=${v}` */
  function EnvInstruction(key: Str, value: Str): Str {
    Instruction(ENV, key + [EQUALS] + EnvValue(value))
  }

  predicate AllHaveEquals(env: seq<Str>) {
    forall k :: 0 <= k < |env| ==> EQUALS in env[k]
  }

  function OptionalInstruction(word: Str, argument: Str): seq<Str> {
    if argument != [] then [Instruction(word, argument)] else []
  }

  /**
   * `xs.forEach(x => out.push(f(x)))` with a callback that may throw: the
   * results in order, or the error of the first element the callback
   * rejects.
   */
  function MapUntilError<E>(xs: seq<Str>, f: Str -> Result<Str, E>): Result<seq<Str>, E>
    decreases |xs|
  {
    if xs == [] then Ok([])
    else match f(xs[0])
      case Err(e) => Err(e)
      case Ok(line) =>
        match MapUntilError(xs[1..], f)
        case Err(e) => Err(e)
        case Ok(rest) => Ok([line] + rest)
  }

  /**
   * The callback of the environment `forEach`: `[k, v] = e.split('=')`,
   * where `v` is undefined, and `v.indexOf` throws, when there is no `=`.
   */
  function EnvEntry(e: Str): (r: Result<Str, TranslateError>)
    ensures r.Ok? <==> EQUALS in e
  {
    var parts := Split(e, EQUALS);
    if |parts| < 2 then Err(EnvWithoutEquals(e)) else Ok(EnvInstruction(parts[0], parts[1]))
  }

  /** One `ENV` line per entry, in order; the `forEach` throws at the first entry without `=`. */
  function EnvLines(env: seq<Str>): Result<seq<Str>, TranslateError> {
    MapUntilError(env, EnvEntry)
  }

  /** One `EXPOSE` line per port, in order. */
  function ExposeInstructions(ports: seq<Str>): seq<Str>
    decreases |ports|
  {
    if ports == [] then [] else [Instruction(EXPOSE, ports[0])] + ExposeInstructions(ports[1..])
  }

  /** `CMD ${JSON.stringify(cmd)}` when the array is non-empty; likewise ENTRYPOINT. */
  function ArrayInstruction(word: Str, xs: seq<Str>): seq<Str> {
    if xs != [] then [Instruction(word, Json.StringifyArray(xs))] else []
  }

  /** The whole list, given the `ENV` lines the environment translated to. */
  function Instructions(cfg: Inspected, envLines: seq<Str>): seq<Str> {
    OptionalInstruction(USER, cfg.user)
    + OptionalInstruction(WORKDIR, cfg.workingDir)
    + envLines
    + ExposeInstructions(cfg.exposedPorts)
    + ArrayInstruction(CMD, cfg.cmd)
    + ArrayInstruction(ENTRYPOINT, cfg.entrypoint)
  }

  /** What the promise returned by `getChangesForImport` settles to once `inspect` has answered. */
  function Translation(cfg: Inspected): Result<Changes, TranslateError> {
    match EnvLines(cfg.env)
    case Err(e) => Err(e)
    case Ok(envLines) => Ok(Changes(Instructions(cfg, envLines), cfg.size))
  }

  /**
   * The body of the `then` callback: `changes` grows by `push`, the
   * optional USER and WORKDIR first, then one `forEach` over the environment
   * and one over the exposed ports, then CMD and ENTRYPOINT.
   */
  method GetChangesForImport(cfg: Inspected) returns (r: Result<Changes, TranslateError>)
    ensures r == Translation(cfg)
  {
    var changes: seq<Str> := [];
    if cfg.user != [] {
      changes := changes + [Instruction(USER, cfg.user)];
    }
    if cfg.workingDir != [] {
      changes := changes + [Instruction(WORKDIR, cfg.workingDir)];
    }
    ghost var head := changes;
    assert head == OptionalInstruction(USER, cfg.user) + OptionalInstruction(WORKDIR, cfg.workingDir);
    var env := PushEnvInstructions(changes, cfg.env);
    if env.Err? {
      return Err(env.error);
    }
    changes := PushExposeInstructions(env.value, cfg.exposedPorts);
    if cfg.cmd != [] {
      changes := changes + [Instruction(CMD, Json.StringifyArray(cfg.cmd))];
    }
    if cfg.entrypoint != [] {
      changes := changes + [Instruction(ENTRYPOINT, Json.StringifyArray(cfg.entrypoint))];
    }
    assert changes == Instructions(cfg, EnvLines(cfg.env).value);
    r := Ok(Changes(changes, cfg.size));
  }

  /** `env.forEach(e => { ...; changes.push(`ENV ${k}=${v}`) })`, which throws at the first entry without `=`. */
  method PushEnvInstructions(changes: seq<Str>, env: seq<Str>) returns (r: Result<seq<Str>, TranslateError>)
    ensures r == match EnvLines(env)
                 case Err(e) => Err(e)
                 case Ok(lines) => Ok(changes + lines)
  {
    var acc := changes;
    var i := 0;
    while i < |env|
      invariant 0 <= i <= |env|
      invariant EnvLines(env[..i]).Ok?
      invariant acc == changes + EnvLines(env[..i]).value
    {
      var entry := EnvEntry(env[i]);
      EnvLinesStep(env, i);
      if entry.Err? {
        return Err(entry.error);
      }
      ghost var lines := EnvLines(env[..i]).value;
      assert changes + lines + [entry.value] == changes + (lines + [entry.value]);
      acc := acc + [entry.value];
      i := i + 1;
    }
    assert env[..i] == env;
    r := Ok(acc);
  }

  /** `ports.forEach(p => changes.push(`EXPOSE ${p}`))` */
  method PushExposeInstructions(changes: seq<Str>, ports: seq<Str>) returns (r: seq<Str>)
    ensures r == changes + ExposeInstructions(ports)
  {
    r := changes;
    var j := 0;
    while j < |ports|
      invariant 0 <= j <= |ports|
      invariant r == changes + ExposeInstructions(ports[..j])
    {
      r := r + [Instruction(EXPOSE, ports[j])];
      ExposeInstructionsConcat(ports[..j], [ports[j]]);
      assert ports[..j + 1] == ports[..j] + [ports[j]];
      j := j + 1;
    }
    assert ports[..j] == ports;
  }

  /** Mapping two runs one after the other is mapping them together. */
  lemma {:induction false} MapUntilErrorConcat<E>(a: seq<Str>, b: seq<Str>, f: Str -> Result<Str, E>)
    ensures MapUntilError(a + b, f) == match MapUntilError(a, f)
                                       case Err(e) => Err(e)
                                       case Ok(x) => match MapUntilError(b, f)
                                         case Err(e) => Err(e)
                                         case Ok(y) => Ok(x + y)
    decreases |a|
  {
    if a == [] {
      assert a + b == b;
      if MapUntilError(b, f).Ok? {
        assert [] + MapUntilError(b, f).value == MapUntilError(b, f).value;
      }
    } else {
      assert (a + b)[0] == a[0];
      assert (a + b)[1..] == a[1..] + b;
      MapUntilErrorConcat(a[1..], b, f);
      if f(a[0]).Ok? && MapUntilError(a[1..], f).Ok? && MapUntilError(b, f).Ok? {
        assert [f(a[0]).value] + (MapUntilError(a[1..], f).value + MapUntilError(b, f).value)
            == [f(a[0]).value] + MapUntilError(a[1..], f).value + MapUntilError(b, f).value;
      }
    }
  }

  lemma MapUntilErrorSingle<E>(x: Str, f: Str -> Result<Str, E>)
    ensures MapUntilError([x], f) == match f(x) case Err(e) => Err(e) case Ok(line) => Ok([line])
  {
    assert [x][1..] == [];
    if f(x).Ok? {
      assert [f(x).value] + [] == [f(x).value];
    }
  }

  /** Mapping one more element after a run that succeeded. */
  lemma MapUntilErrorSnoc<E>(xs: seq<Str>, x: Str, f: Str -> Result<Str, E>)
    requires MapUntilError(xs, f).Ok?
    ensures MapUntilError(xs + [x], f)
         == match f(x) case Err(e) => Err(e) case Ok(line) => Ok(MapUntilError(xs, f).value + [line])
  {
    MapUntilErrorConcat(xs, [x], f);
    MapUntilErrorSingle(x, f);
  }

  /** Once a prefix is rejected, the whole run is rejected with the same error. */
  lemma MapUntilErrorStops<E>(xs: seq<Str>, k: nat, f: Str -> Result<Str, E>)
    requires k <= |xs| && MapUntilError(xs[..k], f).Err?
    ensures MapUntilError(xs, f) == MapUntilError(xs[..k], f)
  {
    MapUntilErrorConcat(xs[..k], xs[k..], f);
    assert xs[..k] + xs[k..] == xs;
  }

  /** One turn of the environment loop: the next line, or the error of the whole. */
  lemma EnvLinesStep(env: seq<Str>, i: nat)
    requires i < |env| && EnvLines(env[..i]).Ok?
    ensures EnvEntry(env[i]).Ok? ==>
              EnvLines(env[..i + 1]) == Ok(EnvLines(env[..i]).value + [EnvEntry(env[i]).value])
    ensures EnvEntry(env[i]).Err? ==> EnvLines(env) == Err(EnvEntry(env[i]).error)
  {
    assert env[..i + 1] == env[..i] + [env[i]];
    MapUntilErrorSnoc(env[..i], env[i], EnvEntry);
    if EnvEntry(env[i]).Err? {
      MapUntilErrorStops(env, i + 1, EnvEntry);
    }
  }

  lemma {:induction false} ExposeInstructionsConcat(a: seq<Str>, b: seq<Str>)
    ensures ExposeInstructions(a + b) == ExposeInstructions(a) + ExposeInstructions(b)
    decreases |a|
  {
    if a == [] {
      assert a + b == b;
    } else {
      assert (a + b)[0] == a[0];
      assert (a + b)[1..] == a[1..] + b;
      ExposeInstructionsConcat(a[1..], b);
    }
  }

  // ---- What the translation means ----

  /**
   * The map succeeds exactly when the callback accepts every element, with
   * the callback's results in order; otherwise it fails with the error of
   * the first element the callback rejects.
   */
  lemma {:induction false} MapUntilErrorMeaning<E>(xs: seq<Str>, f: Str -> Result<Str, E>)
    ensures MapUntilError(xs, f).Ok? <==> forall k :: 0 <= k < |xs| ==> f(xs[k]).Ok?
    ensures MapUntilError(xs, f).Err? ==>
      exists k :: 0 <= k < |xs| && f(xs[k]).Err? && MapUntilError(xs, f).error == f(xs[k]).error
        && forall j :: 0 <= j < k ==> f(xs[j]).Ok?
    ensures MapUntilError(xs, f).Ok? ==>
      && |MapUntilError(xs, f).value| == |xs|
      && forall k :: 0 <= k < |xs| ==> f(xs[k]).Ok? && MapUntilError(xs, f).value[k] == f(xs[k]).value
    decreases |xs|
  {
    if xs != [] {
      MapUntilErrorMeaning(xs[1..], f);
      assert forall k :: 1 <= k < |xs| ==> xs[k] == xs[1..][k - 1];
      if f(xs[0]).Ok? && MapUntilError(xs[1..], f).Err? {
        var k :| 0 <= k < |xs[1..]| && f(xs[1..][k]).Err? && MapUntilError(xs[1..], f).error == f(xs[1..][k]).error
                 && forall j :: 0 <= j < k ==> f(xs[1..][j]).Ok?;
        assert xs[k + 1] == xs[1..][k];
        assert forall j :: 1 <= j < k + 1 ==> xs[j] == xs[1..][j - 1];
      }
    }
  }

  /**
   * The environment translates exactly when every entry has an `=`, to one
   * line per entry in order; otherwise the error names the first entry
   * without one.
   */
  lemma EnvLinesMeaning(env: seq<Str>)
    ensures EnvLines(env).Ok? <==> AllHaveEquals(env)
    ensures EnvLines(env).Err? ==>
      exists k :: 0 <= k < |env| && EnvLines(env).error == EnvWithoutEquals(env[k])
        && EQUALS !in env[k] && AllHaveEquals(env[..k])
    ensures EnvLines(env).Ok? ==>
      && |EnvLines(env).value| == |env|
      && forall k :: 0 <= k < |env| ==>
           EQUALS in env[k] && EnvLines(env).value[k] == EnvInstruction(Split(env[k], EQUALS)[0], Split(env[k], EQUALS)[1])
  {
    MapUntilErrorMeaning(env, EnvEntry);
    if EnvLines(env).Err? {
      var k :| 0 <= k < |env| && EnvEntry(env[k]).Err? && EnvLines(env).error == EnvEntry(env[k]).error
               && forall j :: 0 <= j < k ==> EnvEntry(env[j]).Ok?;
      assert forall j :: 0 <= j < k ==> env[..k][j] == env[j];
    }
  }

  /** The translation fails exactly when some environment entry has no `=`, and then names the first one. */
  lemma TranslationFailsOnlyOnEnv(cfg: Inspected)
    ensures Translation(cfg).Ok? <==> forall k :: 0 <= k < |cfg.env| ==> EQUALS in cfg.env[k]
    ensures Translation(cfg).Err? ==>
      exists k :: 0 <= k < |cfg.env| && Translation(cfg).error == EnvWithoutEquals(cfg.env[k])
        && EQUALS !in cfg.env[k] && forall j :: 0 <= j < k ==> EQUALS in cfg.env[j]
    ensures Translation(cfg).Ok? ==> Translation(cfg).value.size == cfg.size
  {
    EnvLinesMeaning(cfg.env);
    if EnvLines(cfg.env).Err? {
      var k :| 0 <= k < |cfg.env| && EnvLines(cfg.env).error == EnvWithoutEquals(cfg.env[k])
               && EQUALS !in cfg.env[k] && AllHaveEquals(cfg.env[..k]);
      forall j | 0 <= j < k ensures EQUALS in cfg.env[j] {
        assert cfg.env[..k][j] == cfg.env[j];
      }
    }
  }

  /** One `EXPOSE` line per port, in the ports' order. */
  lemma {:induction false} ExposeInstructionsMeaning(ports: seq<Str>)
    ensures |ExposeInstructions(ports)| == |ports|
    ensures forall k :: 0 <= k < |ports| ==> ExposeInstructions(ports)[k] == Instruction(EXPOSE, ports[k])
    decreases |ports|
  {
    if ports != [] {
      ExposeInstructionsMeaning(ports[1..]);
      assert forall k :: 1 <= k < |ports| ==> ports[k] == ports[1..][k - 1];
    }
  }

  /**
   * The key is the text before the first `=`, the value the text up to the
   * next `=` or the end; what follows a second `=` is dropped.
   */
  lemma EnvInstructionSplit(e: Str)
    requires EQUALS in e
    ensures var k := Split(e, EQUALS)[0];
            var v := Split(e, EQUALS)[1];
            && EQUALS !in k && EQUALS !in v
            && |k| + 1 + |v| <= |e|
            && e[..|k| + 1 + |v|] == k + [EQUALS] + v
            && (|k| + 1 + |v| == |e| || e[|k| + 1 + |v|] == EQUALS)
            && EnvEntry(e) == Ok(Instruction(ENV, k + [EQUALS] + EnvValue(v)))
  {
    SplitFirstTwo(e, EQUALS);
  }

  /** Undoes the `\"` and `\!` escapes: a backslash before `"` or `!` is dropped. */
  function UnescapeEnvValue(s: Str): Str
    decreases |s|
  {
    if s == [] then []
    else if |s| >= 2 && s[0] == BACKSLASH && (s[1] == QUOTE || s[1] == BANG) then [s[1]] + UnescapeEnvValue(s[2..])
    else [s[0]] + UnescapeEnvValue(s[1..])
  }

  /** `v.replace(/\n/g, ' ')` */
  function NewlinesToSpaces(v: Str): Str {
    seq(|v|, i requires 0 <= i < |v| => if v[i] == NEWLINE then SPACE else v[i])
  }

  /** The escaped text never starts with a bare `"` or `!`: those always come after a backslash. */
  lemma EscapeEnvValueHead(v: Str)
    ensures EscapeEnvValue(v) == [] || (EscapeEnvValue(v)[0] != QUOTE && EscapeEnvValue(v)[0] != BANG)
  {
  }

  /** Escaping loses nothing but the line breaks, which become spaces. */
  lemma {:induction false} EnvEscapeRoundTrip(v: Str)
    ensures UnescapeEnvValue(EscapeEnvValue(v)) == NewlinesToSpaces(v)
    decreases |v|
  {
    if v != [] {
      var c, rest := v[0], EscapeEnvValue(v[1..]);
      EnvEscapeRoundTrip(v[1..]);
      EscapeEnvValueHead(v[1..]);
      assert EscapeEnvValue(v) == EscapeEnvUnit(c) + rest;
      if c == QUOTE || c == BANG {
        assert (EscapeEnvUnit(c) + rest)[2..] == rest;
      } else {
        assert (EscapeEnvUnit(c) + rest)[1..] == rest;
      }
      assert NewlinesToSpaces(v) == [if c == NEWLINE then SPACE else c] + NewlinesToSpaces(v[1..]);
    }
  }

  /** A value is quoted exactly when it holds a space; what lies inside the quotes reads back as the value. */
  lemma EnvValueQuoting(v: Str)
    ensures SPACE !in v ==> EnvValue(v) == v
    ensures SPACE in v ==>
              && |EnvValue(v)| >= 2
              && EnvValue(v)[0] == QUOTE && EnvValue(v)[|EnvValue(v)| - 1] == QUOTE
              && UnescapeEnvValue(EnvValue(v)[1..|EnvValue(v)| - 1]) == NewlinesToSpaces(v)
  {
    if SPACE in v {
      var e := EscapeEnvValue(v);
      assert EnvValue(v)[1..|EnvValue(v)| - 1] == e;
      EnvEscapeRoundTrip(v);
    }
  }

  /**
   * A backslash is not escaped. So a quoted value that ends in a backslash
   * puts that backslash right before the closing quote: `a \` is written
   * as `"a \"`, whose closing quote reads as an escaped one.
   */
  lemma TrailingBackslashMeetsClosingQuote(v: Str)
    requires |v| > 0 && SPACE in v && v[|v| - 1] == BACKSLASH
    ensures var q := EnvValue(v);
            |q| >= 3 && q[0] == QUOTE && q[|q| - 2] == BACKSLASH && q[|q| - 1] == QUOTE
  {
    var front := v[..|v| - 1];
    assert v == front + [BACKSLASH];
    EscapeEnvValueSnoc(front, BACKSLASH);
  }

  /** Escaping works unit by unit, so it can be extended at the end. */
  lemma {:induction false} EscapeEnvValueSnoc(v: Str, c: CodeUnit)
    ensures EscapeEnvValue(v + [c]) == EscapeEnvValue(v) + EscapeEnvUnit(c)
    decreases |v|
  {
    if v == [] {
      assert EscapeEnvValue([c]) == EscapeEnvUnit(c) + EscapeEnvValue([]);
    } else {
      assert (v + [c])[1..] == v[1..] + [c];
      EscapeEnvValueSnoc(v[1..], c);
    }
  }

  /** The CMD and ENTRYPOINT arguments read back, as JSON, as the arrays they came from. */
  lemma ArrayInstructionRoundTrip(word: Str, xs: seq<Str>)
    requires xs != []
    ensures |ArrayInstruction(word, xs)| == 1
    ensures var line := ArrayInstruction(word, xs)[0];
            |line| > |word| && line[..|word| + 1] == word + [SPACE]
            && Json.ParseArray(line[|word| + 1..]) == Some(xs)
  {
    var line := Instruction(word, Json.StringifyArray(xs));
    assert line[|word| + 1..] == Json.StringifyArray(xs);
    Json.StringifyArrayRoundTrip(xs);
  }

  // ---- Layout of the instruction list ----

  /** The keyword a Dockerfile line starts with: the text before its first space. */
  function Keyword(line: Str): Str {
    Before(line, SPACE)
  }

  /** Where a line's keyword stands in USER, WORKDIR, ENV, EXPOSE, CMD, ENTRYPOINT; 6 for any other. */
  function Rank(line: Str): nat {
    var w := Keyword(line);
    if w == USER then 0 else if w == WORKDIR then 1 else if w == ENV then 2
    else if w == EXPOSE then 3 else if w == CMD then 4 else if w == ENTRYPOINT then 5 else 6
  }

  /** The lines whose keyword is `word`, in their order. */
  function WithKeyword(lines: seq<Str>, word: Str): seq<Str> {
    if lines == [] then []
    else (if Keyword(lines[0]) == word then [lines[0]] else []) + WithKeyword(lines[1..], word)
  }

  /** The six groups the list is made of, one per keyword, in the order of KEYWORDS. */
  function Parts(cfg: Inspected, envLines: seq<Str>): (r: seq<seq<Str>>)
    ensures |r| == |KEYWORDS|
  {
    [ OptionalInstruction(USER, cfg.user), OptionalInstruction(WORKDIR, cfg.workingDir),
      envLines, ExposeInstructions(cfg.exposedPorts),
      ArrayInstruction(CMD, cfg.cmd), ArrayInstruction(ENTRYPOINT, cfg.entrypoint) ]
  }

  lemma KeywordsAreDistinct()
    ensures forall p, q :: 0 <= p < q < |KEYWORDS| ==> KEYWORDS[p] != KEYWORDS[q]
    ensures forall q :: 0 <= q < |KEYWORDS| ==> SPACE !in KEYWORDS[q]
  {
    assert ENV[0] != CMD[0];
  }

  lemma {:induction false} KeywordOfInstruction(word: Str, argument: Str)
    requires SPACE !in word
    ensures Keyword(Instruction(word, argument)) == word
    decreases |word|
  {
    if word == [] {
    } else {
      assert Instruction(word, argument)[1..] == Instruction(word[1..], argument);
      KeywordOfInstruction(word[1..], argument);
    }
  }

  predicate AllKeyword(group: seq<Str>, word: Str) {
    forall line :: line in group ==> Keyword(line) == word
  }

  lemma OptionalKeyword(word: Str, argument: Str)
    requires SPACE !in word
    ensures AllKeyword(OptionalInstruction(word, argument), word)
  {
    KeywordOfInstruction(word, argument);
  }

  lemma ArrayKeyword(word: Str, xs: seq<Str>)
    requires SPACE !in word
    ensures AllKeyword(ArrayInstruction(word, xs), word)
  {
    KeywordOfInstruction(word, Json.StringifyArray(xs));
  }

  lemma EnvKeyword(env: seq<Str>)
    requires EnvLines(env).Ok? && SPACE !in ENV
    ensures AllKeyword(EnvLines(env).value, ENV)
  {
    EnvLinesMeaning(env);
    forall k | 0 <= k < |env| ensures Keyword(EnvLines(env).value[k]) == ENV {
      var parts := Split(env[k], EQUALS);
      KeywordOfInstruction(ENV, parts[0] + [EQUALS] + EnvValue(parts[1]));
    }
  }

  lemma ExposeKeyword(ports: seq<Str>)
    requires SPACE !in EXPOSE
    ensures AllKeyword(ExposeInstructions(ports), EXPOSE)
  {
    ExposeInstructionsMeaning(ports);
    forall k | 0 <= k < |ports| ensures Keyword(ExposeInstructions(ports)[k]) == EXPOSE {
      KeywordOfInstruction(EXPOSE, ports[k]);
    }
  }

  /** Every line of group q starts with keyword q. */
  lemma PartKeywords(cfg: Inspected)
    requires EnvLines(cfg.env).Ok?
    ensures forall q :: 0 <= q < |KEYWORDS| ==> AllKeyword(Parts(cfg, EnvLines(cfg.env).value)[q], KEYWORDS[q])
  {
    KeywordsAreDistinct();
    OptionalKeyword(USER, cfg.user);
    OptionalKeyword(WORKDIR, cfg.workingDir);
    EnvKeyword(cfg.env);
    ExposeKeyword(cfg.exposedPorts);
    ArrayKeyword(CMD, cfg.cmd);
    ArrayKeyword(ENTRYPOINT, cfg.entrypoint);
  }

  lemma {:induction false} WithKeywordConcat(a: seq<Str>, b: seq<Str>, word: Str)
    ensures WithKeyword(a + b, word) == WithKeyword(a, word) + WithKeyword(b, word)
    decreases |a|
  {
    if a == [] {
      assert a + b == b;
    } else {
      var head := if Keyword(a[0]) == word then [a[0]] else [];
      assert (a + b)[0] == a[0];
      assert (a + b)[1..] == a[1..] + b;
      WithKeywordConcat(a[1..], b, word);
      assert WithKeyword(a + b, word) == head + (WithKeyword(a[1..], word) + WithKeyword(b, word));
      assert WithKeyword(a, word) == head + WithKeyword(a[1..], word);
    }
  }

  lemma {:induction false} WithKeywordOfGroup(group: seq<Str>, groupWord: Str, word: Str)
    requires AllKeyword(group, groupWord)
    ensures WithKeyword(group, word) == if groupWord == word then group else []
    decreases |group|
  {
    if group != [] {
      assert forall line :: line in group[1..] ==> line in group;
      WithKeywordOfGroup(group[1..], groupWord, word);
      assert Keyword(group[0]) == groupWord;
      assert group == [group[0]] + group[1..];
    }
  }

  function Join(groups: seq<seq<Str>>): seq<Str>
    requires |groups| == 6
  {
    groups[0] + groups[1] + groups[2] + groups[3] + groups[4] + groups[5]
  }

  lemma InstructionsAreParts(cfg: Inspected, envLines: seq<Str>)
    ensures Instructions(cfg, envLines) == Join(Parts(cfg, envLines))
  {
  }

  /** Joining six groups of which all but one are empty gives that one. */
  lemma JoinOfOne(groups: seq<seq<Str>>, q: nat)
    requires |groups| == 6 && q < 6
    requires forall p :: 0 <= p < 6 && p != q ==> groups[p] == []
    ensures Join(groups) == groups[q]
  {
    var G := groups;
    if q == 0 {
      assert Join(G) == G[0] + [] + [] + [] + [] + [];
    } else if q == 1 {
      assert Join(G) == [] + G[1] + [] + [] + [] + [];
    } else if q == 2 {
      assert Join(G) == [] + [] + G[2] + [] + [] + [];
    } else if q == 3 {
      assert Join(G) == [] + [] + [] + G[3] + [] + [];
    } else if q == 4 {
      assert Join(G) == [] + [] + [] + [] + G[4] + [];
    } else {
      assert Join(G) == [] + [] + [] + [] + [] + G[5];
    }
  }

  lemma SelectGroup(groups: seq<seq<Str>>, words: seq<Str>, q: nat)
    requires |groups| == 6 && |words| == 6 && q < 6
    requires forall p :: 0 <= p < 6 ==> AllKeyword(groups[p], words[p])
    requires forall p :: 0 <= p < 6 && p != q ==> words[p] != words[q]
    ensures WithKeyword(Join(groups), words[q]) == groups[q]
  {
    var G, w := groups, words[q];
    var selected := seq(6, p requires 0 <= p < 6 => WithKeyword(G[p], w));
    forall p | 0 <= p < 6 && p != q
      ensures selected[p] == []
    {
      WithKeywordOfGroup(G[p], words[p], w);
    }
    WithKeywordOfGroup(G[q], words[q], w);
    WithKeywordConcat(G[0] + G[1] + G[2] + G[3] + G[4], G[5], w);
    WithKeywordConcat(G[0] + G[1] + G[2] + G[3], G[4], w);
    WithKeywordConcat(G[0] + G[1] + G[2], G[3], w);
    WithKeywordConcat(G[0] + G[1], G[2], w);
    WithKeywordConcat(G[0], G[1], w);
    assert WithKeyword(Join(G), w) == Join(selected);
    JoinOfOne(selected, q);
  }


  /**
   * Selecting the lines of one keyword gives back exactly that group:
   * the USER or WORKDIR line when set, one ENV line per entry in order,
   * one EXPOSE line per port in order, the CMD and ENTRYPOINT lines when set.
   */
  lemma InstructionsWithKeyword(cfg: Inspected, q: nat)
    requires Translation(cfg).Ok? && q < |KEYWORDS|
    ensures WithKeyword(Translation(cfg).value.instructions, KEYWORDS[q]) == Parts(cfg, EnvLines(cfg.env).value)[q]
  {
    var envLines := EnvLines(cfg.env).value;
    PartKeywords(cfg);
    KeywordsAreDistinct();
    InstructionsAreParts(cfg, envLines);
    SelectGroup(Parts(cfg, envLines), KEYWORDS, q);
  }

  predicate KeywordOrdered(lines: seq<Str>) {
    forall i, j :: 0 <= i < j < |lines| ==> Rank(lines[i]) <= Rank(lines[j])
  }

  predicate AllRank(group: seq<Str>, r: nat) {
    forall line :: line in group ==> Rank(line) == r
  }

  /** A group of keyword q has rank q. */
  lemma GroupRank(group: seq<Str>, q: nat)
    requires q < |KEYWORDS| && AllKeyword(group, KEYWORDS[q])
    ensures AllRank(group, q)
  {
    KeywordsAreDistinct();
  }

  predicate RanksWithin(lines: seq<Str>, low: nat, high: nat) {
    forall line :: line in lines ==> low <= Rank(line) < high
  }

  lemma RanksWiden(lines: seq<Str>, low: nat, low': nat, high: nat)
    requires RanksWithin(lines, low, high) && low' <= low
    ensures RanksWithin(lines, low', high)
  {
  }

  lemma PrependGroup(group: seq<Str>, r: nat, rest: seq<Str>, high: nat)
    requires AllRank(group, r) && r < high
    requires KeywordOrdered(rest) && RanksWithin(rest, r, high)
    ensures KeywordOrdered(group + rest) && RanksWithin(group + rest, r, high)
  {
    var s := group + rest;
    forall i, j | 0 <= i < j < |s| ensures Rank(s[i]) <= Rank(s[j]) {
      if j < |group| {
        assert s[i] in group && s[j] in group;
      } else if i < |group| {
        assert s[i] in group && s[j] in rest;
      } else {
        assert s[i] == rest[i - |group|] && s[j] == rest[j - |group|];
      }
    }
  }

  lemma JoinOrdered(groups: seq<seq<Str>>)
    requires |groups| == 6
    requires forall p :: 0 <= p < 6 ==> AllRank(groups[p], p)
    ensures KeywordOrdered(Join(groups)) && RanksWithin(Join(groups), 0, 6)
  {
    var G := groups;
    var tail := G[5];
    assert KeywordOrdered(tail) && RanksWithin(tail, 5, 6);
    RanksWiden(tail, 5, 4, 6);
    PrependGroup(G[4], 4, tail, 6);
    tail := G[4] + tail;
    RanksWiden(tail, 4, 3, 6);
    PrependGroup(G[3], 3, tail, 6);
    tail := G[3] + tail;
    RanksWiden(tail, 3, 2, 6);
    PrependGroup(G[2], 2, tail, 6);
    tail := G[2] + tail;
    RanksWiden(tail, 2, 1, 6);
    PrependGroup(G[1], 1, tail, 6);
    tail := G[1] + tail;
    RanksWiden(tail, 1, 0, 6);
    PrependGroup(G[0], 0, tail, 6);
    assert Join(G) == G[0] + tail;
  }

  /** The lines come in keyword order: USER, WORKDIR, ENV, EXPOSE, CMD, ENTRYPOINT. */
  lemma InstructionsInKeywordOrder(cfg: Inspected)
    requires Translation(cfg).Ok?
    ensures KeywordOrdered(Translation(cfg).value.instructions)
    ensures RanksWithin(Translation(cfg).value.instructions, 0, |KEYWORDS|)
  {
    var envLines := EnvLines(cfg.env).value;
    var P := Parts(cfg, envLines);
    PartKeywords(cfg);
    GroupRank(P[0], 0);
    GroupRank(P[1], 1);
    GroupRank(P[2], 2);
    GroupRank(P[3], 3);
    GroupRank(P[4], 4);
    GroupRank(P[5], 5);
    JoinOrdered(P);
    InstructionsAreParts(cfg, envLines);
  }
}
