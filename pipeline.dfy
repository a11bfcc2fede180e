/**
 * `buildImage` and the steps it chains: name the image, pull a cache image,
 * build, optionally flatten, resolve and record the build information, tag,
 * push and write the image file. Any step that throws ends the process with
 * exit code 100; the tag, push and file steps skip themselves when the
 * build information says not to continue.
 */
module Pipeline {
  import opened Wrappers
  import opened JsStrings
  import opened Engine
  import Sanitize
  import Flatten
  import Translate

  const DEFAULT_REGISTRY: Str := Lit("https://hub.docker.com")

  /** The image built first when flattening. */
  const TEMPORARY: Str := Lit("temp")

  const DEFAULT_OUTPUT: Str := Lit(".image.json")

  /** The code `exitOnError` passes to `process.exit`. */
  const EXIT_CODE: int := 100

  /** What the caller knows before building: whether the Node version is LTS, the branch, the CI facts. */
  datatype DefaultInfo = DefaultInfo(isLTS: bool, branch: Str, ci: Option<Ci>)

  /** The two defaults `buildImage` asks its settings for. */
  datatype Settings = Settings(
    defaultDockerfile: Str,
    defaultTagSpecs: (seq<Str>, DefaultInfo) -> seq<Str>)

  /** The options of `buildImage`; an absent string option is the empty string. */
  datatype Options = Options(
    repo: Str,
    name: Str,
    namePrefix: Str,
    namePostfix: Str,
    registry: Str,
    workingPath: Str,
    dockerFile: Str,
    tags: seq<Str>,
    alwaysBuild: bool,
    buildBranches: Str,
    output: Str,
    skipPRs: bool,
    ltsOnly: bool,
    noPush: bool,
    buildArgs: map<Str, Str>,
    flatten: bool,
    cacheFromLatest: bool,
    cacheFrom: Str,
    defaultInfo: DefaultInfo)

  /** How the promise `buildImage` returns ends: resolved with `{}`, resolved with the info, or the process exits. */
  datatype Outcome = Skipped | Done(info: BuildInfo) | Fatal(code: int)

  datatype Run = Run(calls: seq<Call>, outcome: Outcome)

  // ---- Names and settings ----

  /** `[namePrefix, sanitizeTag(name), namePostfix].join('')` */
  function BaseImage(o: Options): Str {
    o.namePrefix + Sanitize.SanitizeTag(o.name) + o.namePostfix
  }

  /** `registry !== DEFAULT_REGISTRY && registry` */
  predicate UsesRegistry(registry: Str) {
    registry != DEFAULT_REGISTRY && registry != []
  }

  function ImageParts(o: Options): seq<Str> {
    (if UsesRegistry(o.registry) then [o.registry] else []) + [o.repo, BaseImage(o)]
  }

  /** The name the image is published under: the image parts joined by `/`. */
  function FinalName(o: Options): Str {
    JoinWith(ImageParts(o), SLASH)
  }

  /** The image `docker.build` produces: `temp` when flattening, the final name otherwise. */
  function BuildTarget(o: Options): Str {
    if o.flatten then TEMPORARY else FinalName(o)
  }

  function WorkingPath(o: Options, s: Settings): Str {
    if o.workingPath != [] then o.workingPath else s.defaultDockerfile
  }

  function DockerFile(o: Options, s: Settings): Str {
    if o.dockerFile != [] then o.dockerFile else s.defaultDockerfile
  }

  /** The branches handed to the settings: the default branch alone, or the comma-separated list. */
  function BuildBranches(o: Options): seq<Str> {
    if o.alwaysBuild then [o.defaultInfo.branch] else Split(o.buildBranches, COMMA)
  }

  function TagSpecs(o: Options, s: Settings): seq<Str> {
    if |o.tags| > 0 then o.tags else s.defaultTagSpecs(BuildBranches(o), o.defaultInfo)
  }

  function ImageFile(o: Options, s: Settings): Path {
    Path(WorkingPath(o, s), if o.output != [] then o.output else DEFAULT_OUTPUT)
  }

  /** The image to pull as a cache baseline: `final:latest` first, then the `cacheFrom` option. */
  function CacheFrom(o: Options): Option<Str> {
    if o.cacheFromLatest then Some(Flatten.LatestTag(FinalName(o)))
    else if o.cacheFrom != [] then Some(o.cacheFrom)
    else None
  }

  // ---- The steps ----

  /** `preBuild`: the pull of the cache image, whose failure only clears `cacheFrom`. */
  function PreBuild(cacheFrom: Option<Str>, w: World): (seq<Call>, Option<Str>) {
    match cacheFrom
    case None => ([], None)
    case Some(image) => ([Pull(image)], if Pull(image) in w.failing then None else Some(image))
  }

  /**
   * The `reduce` of `writeBuildInfo`, with the cleaning of one tag passed
   * in: each non-empty tag is cleaned and pushed onto the accumulator.
   */
  function ReduceTags(raw: seq<Str>, clean: Str -> Str): seq<Str> {
    if raw == [] then []
    else
      var t := raw[|raw| - 1];
      ReduceTags(raw[..|raw| - 1], clean) + (if |t| > 0 then [clean(t)] else [])
  }

  /** The tag reduction: the non-empty tags, each sanitized, in order. */
  function SanitizedTags(raw: seq<Str>): seq<Str> {
    ReduceTags(raw, Sanitize.SanitizeTag)
  }

  /**
   * The resolver's answer once `writeBuildInfo` has reduced its tags and set
   * `continue`; the branch is carried over as it came.
   */
  function Resolved(raw: RawInfo): BuildInfo {
    var tags := match raw.tag
      case None => None
      case Some(ts) => Some(SanitizedTags(ts));
    Info(tags, raw.branch, raw.ci, tags.Some? && tags.value != [], None)
  }

  /**
   * `writeBuildInfo`. With tag specifications: ask the resolver, reduce the
   * tags, and record the result; the log line of an empty tag set reads
   * `defaultInfo.ci.pullRequest`, which throws when `ci` is absent. Without:
   * `{ continue: false }`, after a log line that reads `defaultInfo.ci` too.
   */
  function WriteBuildInfoRun(workingPath: Str, tagSpecs: seq<Str>, d: DefaultInfo, w: World): Effect<BuildInfo> {
    if |tagSpecs| > 0 then
      var get := GetInfo(workingPath, tagSpecs);
      if get in w.failing then Effect([get], None)
      else
        var info := Resolved(w.resolved);
        if !info.cont && d.ci.None? then Effect([get], None)
        else
          var save := WriteBuildInfoJson(info);
          Effect([get, save], if save in w.failing then None else Some(info))
    else Effect([], if d.ci.None? then None else Some(Halt))
  }

  /** `tagImage` skips a pull request when asked to, and anything that is not to continue. */
  predicate TagSkips(skipPRs: bool, info: BuildInfo) {
    (skipPRs && info.Info? && info.ci.Some? && info.ci.value.pullRequest) || !Continues(info)
  }

  function TagImageRun(skipPRs: bool, image: Str, info: BuildInfo, w: World): Effect<BuildInfo> {
    if TagSkips(skipPRs, info) then Effect([], Some(Halt))
    else Effect([DockerTag(image)], if DockerTag(image) in w.failing then None else Some(info))
  }

  predicate PushSkips(noPush: bool, info: BuildInfo) {
    !Continues(info) || noPush
  }

  function PushImageRun(noPush: bool, image: Str, info: BuildInfo, w: World): Effect<BuildInfo> {
    if PushSkips(noPush, info) then Effect([], Some(info))
    else Effect([DockerPush(image)], if DockerPush(image) in w.failing then None else Some(info))
  }

  predicate WriteSkips(info: BuildInfo) {
    !Continues(info)
  }

  /** `writeImageFile`: records the image name in the info and writes `{ image, tags }`. */
  function WriteImageFileRun(file: Path, image: Str, info: BuildInfo, w: World): Effect<BuildInfo> {
    if WriteSkips(info) then Effect([], Some(info))
    else
      var write := WriteImageJson(file, image, info.tag);
      Effect([write], if write in w.failing then None else Some(info.(imageName := Some(image))))
  }

  // ---- The whole chain ----

  /** The constants `buildImage` computes before its first call. */
  datatype Plan = Plan(
    final: Str,
    imageName: Str,
    workingPath: Str,
    dockerFile: Str,
    buildArgs: map<Str, Str>,
    tagSpecs: seq<Str>,
    imageFile: Path,
    cacheFrom: Option<Str>,
    flatten: bool,
    skipPRs: bool,
    ltsOnly: bool,
    noPush: bool,
    defaultInfo: DefaultInfo)

  function Prepare(o: Options, s: Settings): Plan {
    Plan(FinalName(o), BuildTarget(o), WorkingPath(o, s), DockerFile(o, s), o.buildArgs, TagSpecs(o, s),
         ImageFile(o, s), CacheFrom(o), o.flatten, o.skipPRs, o.ltsOnly, o.noPush, o.defaultInfo)
  }

  function BuildCall(p: Plan, cacheFrom: Option<Str>): Call {
    Build(p.imageName, p.workingPath, p.dockerFile, p.buildArgs, cacheFrom)
  }

  /** The process exits after `calls`. */
  function Stop(calls: seq<Call>): Run {
    Run(calls, Fatal(EXIT_CODE))
  }

  function Prepend(calls: seq<Call>, r: Run): Run {
    Run(calls + r.calls, r.outcome)
  }

  /** `buildImage`, from the options, the settings and the world to the calls made and the outcome. */
  function BuildImageRun(o: Options, s: Settings, w: World): Run {
    Execute(Prepare(o, s), w)
  }

  /**
   * The chain up to `docker.build`: the LTS gate, the pull of the cache
   * image and the build, with the outcome when the run ends there.
   */
  function Start(p: Plan, w: World): (seq<Call>, Option<Outcome>) {
    if p.ltsOnly && !p.defaultInfo.isLTS then ([], Some(Skipped))
    else
      var (pulls, cacheFrom) := PreBuild(p.cacheFrom, w);
      var build := BuildCall(p, cacheFrom);
      (pulls + [build], if build in w.failing then Some(Fatal(EXIT_CODE)) else None)
  }

  function Execute(p: Plan, w: World): Run {
    var (calls, stop) := Start(p, w);
    if stop.Some? then Run(calls, stop.value) else Prepend(calls, AfterBuild(p, w))
  }

  function AfterBuild(p: Plan, w: World): Run {
    if p.flatten then
      var flattened := Flatten.FlattenRun(p.imageName, p.final, w);
      if flattened.value.None? then Stop(flattened.calls)
      else Prepend(flattened.calls, Publish(p, w))
    else Publish(p, w)
  }

  function Publish(p: Plan, w: World): Run {
    var written := WriteBuildInfoRun(p.workingPath, p.tagSpecs, p.defaultInfo, w);
    if written.value.None? then Stop(written.calls)
    else Prepend(written.calls, FromTag(p, w, written.value.value))
  }

  function FromTag(p: Plan, w: World, info: BuildInfo): Run {
    var tagged := TagImageRun(p.skipPRs, p.final, info, w);
    if tagged.value.None? then Stop(tagged.calls)
    else Prepend(tagged.calls, FromPush(p, w, tagged.value.value))
  }

  function FromPush(p: Plan, w: World, info: BuildInfo): Run {
    var pushed := PushImageRun(p.noPush, p.final, info, w);
    if pushed.value.None? then Stop(pushed.calls)
    else Prepend(pushed.calls, FromWrite(p, w, pushed.value.value))
  }

  function FromWrite(p: Plan, w: World, info: BuildInfo): Run {
    var written := WriteImageFileRun(p.imageFile, p.final, info, w);
    if written.value.None? then Stop(written.calls)
    else Run(written.calls, Done(written.value.value))
  }

  // ---- Names ----

  /**
   * The final name always holds a `/`, between the repository and the
   * image; so the image built is `temp` exactly when flattening.
   */
  lemma BuildTargetIsTemporary(o: Options)
    ensures SLASH in FinalName(o)
    ensures BuildTarget(o) == TEMPORARY <==> o.flatten
  {
    var parts := ImageParts(o);
    assert FinalName(o) == parts[0] + [SLASH] + JoinWith(parts[1..], SLASH);
    assert FinalName(o)[|parts[0]|] == SLASH;
    assert TEMPORARY == [0x74, 0x65, 0x6D, 0x70];
  }

  /**
   * The sanitized name never holds a `/`; so when the registry (if used),
   * the repository and the affixes hold none either, splitting the final
   * name at `/` gives back the registry, the repository and the image.
   */
  lemma FinalNameSplits(o: Options)
    requires UsesRegistry(o.registry) ==> SLASH !in o.registry
    requires SLASH !in o.repo && SLASH !in o.namePrefix && SLASH !in o.namePostfix
    ensures SLASH !in Sanitize.SanitizeTag(o.name)
    ensures Split(FinalName(o), SLASH) == ImageParts(o)
  {
    assert SLASH !in BaseImage(o);
    JoinThenSplit(ImageParts(o), SLASH);
  }

  // ---- The tag reduction ----

  /** The tags that are not empty, in order. */
  function NonEmpty(raw: seq<Str>): seq<Str> {
    if raw == [] then [] else (if |raw[0]| > 0 then [raw[0]] else []) + NonEmpty(raw[1..])
  }

  /** Each tag cleaned, in order. */
  function MapTags(tags: seq<Str>, clean: Str -> Str): seq<Str> {
    seq(|tags|, i requires 0 <= i < |tags| => clean(tags[i]))
  }

  /** Reducing two runs of tags one after the other is reducing them together: the order is kept. */
  lemma {:induction false} ReduceTagsConcat(a: seq<Str>, b: seq<Str>, clean: Str -> Str)
    ensures ReduceTags(a + b, clean) == ReduceTags(a, clean) + ReduceTags(b, clean)
    decreases |b|
  {
    if b == [] {
      assert a + b == a;
    } else {
      var b' := b[..|b| - 1];
      assert (a + b)[..|a + b| - 1] == a + b';
      assert (a + b)[|a + b| - 1] == b[|b| - 1];
      ReduceTagsConcat(a, b', clean);
    }
  }

  /** The reduction is: drop the empty tags, then clean each one. */
  lemma {:induction false} ReduceTagsAreFilterThenMap(raw: seq<Str>, clean: Str -> Str)
    ensures ReduceTags(raw, clean) == MapTags(NonEmpty(raw), clean)
    decreases |raw|
  {
    if raw != [] {
      assert raw == [raw[0]] + raw[1..];
      ReduceTagsConcat([raw[0]], raw[1..], clean);
      assert [raw[0]][..0] == [];
      ReduceTagsAreFilterThenMap(raw[1..], clean);
      var head := if |raw[0]| > 0 then [raw[0]] else [];
      assert NonEmpty(raw) == head + NonEmpty(raw[1..]);
      assert MapTags(head + NonEmpty(raw[1..]), clean) == MapTags(head, clean) + MapTags(NonEmpty(raw[1..]), clean);
    }
  }

  /** Every reduced tag is a non-empty input tag, cleaned. */
  lemma {:induction false} ReduceTagsOrigin(raw: seq<Str>, clean: Str -> Str)
    ensures forall t :: t in ReduceTags(raw, clean) ==>
              exists i :: 0 <= i < |raw| && |raw[i]| > 0 && t == clean(raw[i])
    decreases |raw|
  {
    if raw != [] {
      var init := raw[..|raw| - 1];
      ReduceTagsOrigin(init, clean);
      assert forall i :: 0 <= i < |init| ==> init[i] == raw[i];
    }
  }

  /** The reduction is empty exactly when every input tag is empty. */
  lemma {:induction false} ReduceTagsEmpty(raw: seq<Str>, clean: Str -> Str)
    ensures ReduceTags(raw, clean) == [] <==> forall i :: 0 <= i < |raw| ==> raw[i] == []
    decreases |raw|
  {
    if raw != [] {
      var init := raw[..|raw| - 1];
      ReduceTagsEmpty(init, clean);
      assert forall i :: 0 <= i < |init| ==> init[i] == raw[i];
    }
  }

  /** With a cleaning that keeps tags non-empty and is idempotent, so is the reduction. */
  lemma {:induction false} ReduceTagsIdempotent(raw: seq<Str>, clean: Str -> Str)
    requires forall i :: 0 <= i < |raw| && |raw[i]| > 0 ==>
               |clean(raw[i])| > 0 && clean(clean(raw[i])) == clean(raw[i])
    ensures ReduceTags(ReduceTags(raw, clean), clean) == ReduceTags(raw, clean)
    decreases |raw|
  {
    if raw != [] {
      var init, t := raw[..|raw| - 1], raw[|raw| - 1];
      var last := if |t| > 0 then [clean(t)] else [];
      assert forall i :: 0 <= i < |init| ==> init[i] == raw[i];
      ReduceTagsIdempotent(init, clean);
      ReduceTagsConcat(ReduceTags(init, clean), last, clean);
      if |t| > 0 {
        assert last[..0] == [];
        assert ReduceTags(last, clean) == [] + [clean(clean(t))];
      } else {
        assert ReduceTags(init, clean) + last == ReduceTags(init, clean);
      }
    }
  }

  /** Tags that are non-empty and that the cleaning keeps come through unchanged. */
  lemma {:induction false} ReduceTagsKeep(raw: seq<Str>, clean: Str -> Str)
    requires forall i :: 0 <= i < |raw| ==> |raw[i]| > 0 && clean(raw[i]) == raw[i]
    ensures ReduceTags(raw, clean) == raw
    decreases |raw|
  {
    if raw != [] {
      var init, t := raw[..|raw| - 1], raw[|raw| - 1];
      assert forall i :: 0 <= i < |init| ==> init[i] == raw[i];
      ReduceTagsKeep(init, clean);
      assert |t| > 0 && clean(t) == t;
      assert raw == init + [t];
    }
  }

  /** The tag reduction of `writeBuildInfo` drops the empty tags and sanitizes the rest, in order. */
  lemma SanitizedTagsAreFilterThenMap(raw: seq<Str>)
    ensures SanitizedTags(raw) == MapTags(NonEmpty(raw), Sanitize.SanitizeTag)
  {
    ReduceTagsAreFilterThenMap(raw, Sanitize.SanitizeTag);
  }

  /** Every reduced tag is a non-empty legal Docker tag. */
  lemma SanitizedTagsAreDockerTags(raw: seq<Str>)
    ensures forall t :: t in SanitizedTags(raw) ==> Sanitize.IsDockerTag(t) && |t| > 0
  {
    ReduceTagsOrigin(raw, Sanitize.SanitizeTag);
  }

  /** The reduced set is empty exactly when every resolved tag was empty. */
  lemma SanitizedTagsEmpty(raw: seq<Str>)
    ensures SanitizedTags(raw) == [] <==> forall i :: 0 <= i < |raw| ==> raw[i] == []
  {
    ReduceTagsEmpty(raw, Sanitize.SanitizeTag);
  }

  /** Reducing reduced tags changes nothing. */
  lemma SanitizedTagsIdempotent(raw: seq<Str>)
    ensures SanitizedTags(SanitizedTags(raw)) == SanitizedTags(raw)
  {
    forall i | 0 <= i < |raw| && |raw[i]| > 0
      ensures |Sanitize.SanitizeTag(raw[i])| > 0
      ensures Sanitize.SanitizeTag(Sanitize.SanitizeTag(raw[i])) == Sanitize.SanitizeTag(raw[i])
    {
      Sanitize.SanitizeTagIdempotent(raw[i]);
    }
    ReduceTagsIdempotent(raw, Sanitize.SanitizeTag);
  }

  /** Legal, non-empty tags come through unchanged. */
  lemma SanitizedTagsKeepLegalTags(raw: seq<Str>)
    requires forall i :: 0 <= i < |raw| ==> Sanitize.IsDockerTag(raw[i]) && |raw[i]| > 0
    ensures SanitizedTags(raw) == raw
  {
    forall i | 0 <= i < |raw|
      ensures Sanitize.SanitizeTag(raw[i]) == raw[i]
    {
      Sanitize.SanitizeTagKeepsLegalTags(raw[i]);
    }
    ReduceTagsKeep(raw, Sanitize.SanitizeTag);
  }

  // ---- What the chain guarantees: failures ----

  /**
   * The run stops at its first failure: a failing call other than the
   * cache pull is the last call made, and the process then exits with
   * code 100; every exit is with that code.
   */
  predicate StopsAtFailure(r: Run, failing: set<Call>) {
    && (forall i :: 0 <= i < |r.calls| && r.calls[i] in failing && !r.calls[i].Pull? ==>
          i == |r.calls| - 1 && r.outcome == Fatal(EXIT_CODE))
    && (r.outcome.Fatal? ==> r.outcome.code == EXIT_CODE)
  }

  lemma StopAfter<T>(e: Effect<T>, failing: set<Call>)
    requires Halts(e, failing)
    ensures StopsAtFailure(Stop(e.calls), failing)
  {
  }

  lemma PrependSucceeded<T>(e: Effect<T>, r: Run, failing: set<Call>)
    requires Halts(e, failing) && e.value.Some? && StopsAtFailure(r, failing)
    ensures StopsAtFailure(Prepend(e.calls, r), failing)
  {
    var all := Prepend(e.calls, r).calls;
    forall i | 0 <= i < |all| && all[i] in failing && !all[i].Pull?
      ensures i == |all| - 1 && Prepend(e.calls, r).outcome == Fatal(EXIT_CODE)
    {
      assert i >= |e.calls|;
      assert all[i] == r.calls[i - |e.calls|];
    }
  }

  lemma FromWriteStops(p: Plan, w: World, info: BuildInfo)
    ensures StopsAtFailure(FromWrite(p, w, info), w.failing)
  {
  }

  lemma FromPushStops(p: Plan, w: World, info: BuildInfo)
    ensures StopsAtFailure(FromPush(p, w, info), w.failing)
  {
    var pushed := PushImageRun(p.noPush, p.final, info, w);
    if pushed.value.None? {
      StopAfter(pushed, w.failing);
    } else {
      FromWriteStops(p, w, pushed.value.value);
      PrependSucceeded(pushed, FromWrite(p, w, pushed.value.value), w.failing);
    }
  }

  lemma FromTagStops(p: Plan, w: World, info: BuildInfo)
    ensures StopsAtFailure(FromTag(p, w, info), w.failing)
  {
    var tagged := TagImageRun(p.skipPRs, p.final, info, w);
    if tagged.value.None? {
      StopAfter(tagged, w.failing);
    } else {
      FromPushStops(p, w, tagged.value.value);
      PrependSucceeded(tagged, FromPush(p, w, tagged.value.value), w.failing);
    }
  }

  lemma PublishStops(p: Plan, w: World)
    ensures StopsAtFailure(Publish(p, w), w.failing)
  {
    var written := WriteBuildInfoRun(p.workingPath, p.tagSpecs, p.defaultInfo, w);
    assert Halts(written, w.failing);
    if written.value.None? {
      StopAfter(written, w.failing);
    } else {
      FromTagStops(p, w, written.value.value);
      PrependSucceeded(written, FromTag(p, w, written.value.value), w.failing);
    }
  }

  lemma AfterBuildStops(p: Plan, w: World)
    ensures StopsAtFailure(AfterBuild(p, w), w.failing)
  {
    PublishStops(p, w);
    if p.flatten {
      var flattened := Flatten.FlattenRun(p.imageName, p.final, w);
      Flatten.FlattenHalts(p.imageName, p.final, w);
      if flattened.value.None? {
        StopAfter(flattened, w.failing);
      } else {
        PrependSucceeded(flattened, Publish(p, w), w.failing);
      }
    }
  }

  lemma ExecuteStops(p: Plan, w: World)
    ensures StopsAtFailure(Execute(p, w), w.failing)
  {
    var (calls, stop) := Start(p, w);
    if stop.None? {
      AfterBuildStops(p, w);
      var r := AfterBuild(p, w);
      var all := Prepend(calls, r).calls;
      forall i | 0 <= i < |all| && all[i] in w.failing && !all[i].Pull?
        ensures i == |all| - 1 && Prepend(calls, r).outcome == Fatal(EXIT_CODE)
      {
        assert i >= |calls|;
        assert all[i] == r.calls[i - |calls|];
      }
    }
  }

  /**
   * `buildImage` never goes on after a failure it does not tolerate: only
   * the cache pull may fail without ending the run; any other failing call
   * is the last one and the process exits with code 100. A run that
   * resolves with the build information made no failing call but the pull.
   */
  lemma ExitsOnFirstFailure(o: Options, s: Settings, w: World)
    ensures StopsAtFailure(BuildImageRun(o, s, w), w.failing)
    ensures var r := BuildImageRun(o, s, w);
            r.outcome.Done? ==> forall c :: c in r.calls && c in w.failing ==> c.Pull?
  {
    ExecuteStops(Prepare(o, s), w);
  }

  /**
   * The converse of `ExitsOnFirstFailure`: when no call fails but possibly
   * the cache pull, when a flattened image's ENV entries all hold `=`, and
   * when the CI facts are there for the log lines that read them, the run
   * is skipped by the LTS gate or resolves with the build information; it
   * never exits.
   */
  lemma NoFailureSucceeds(o: Options, s: Settings, w: World)
    requires forall c :: c in w.failing ==> c.Pull?
    requires o.flatten ==> Translate.Translation(w.inspected).Ok?
    requires o.defaultInfo.ci.Some?
    ensures BuildImageRun(o, s, w).outcome.Done? <==> !(o.ltsOnly && !o.defaultInfo.isLTS)
    ensures BuildImageRun(o, s, w).outcome.Skipped? <==> o.ltsOnly && !o.defaultInfo.isLTS
  {
    var p := Prepare(o, s);
    if !(o.ltsOnly && !o.defaultInfo.isLTS) {
      AfterBuildSucceeds(p, w);
    }
  }

  /**
   * A cache image that cannot be pulled costs only the cache: in a run the
   * LTS gate does not skip, the build is made without it, and with nothing
   * else failing the run resolves.
   */
  lemma CacheMissStillSucceeds(o: Options, s: Settings, w: World)
    requires CacheFrom(o).Some? && w.failing == {Pull(CacheFrom(o).value)}
    requires !(o.ltsOnly && !o.defaultInfo.isLTS)
    requires o.flatten ==> Translate.Translation(w.inspected).Ok?
    requires o.defaultInfo.ci.Some?
    ensures var r := BuildImageRun(o, s, w);
            && |r.calls| >= 2 && r.calls[0] == Pull(CacheFrom(o).value)
            && r.calls[1] == Build(BuildTarget(o), WorkingPath(o, s), DockerFile(o, s), o.buildArgs, None)
            && r.outcome.Done?
  {
    AfterBuildSucceeds(Prepare(o, s), w);
  }

  /** After a build that succeeded, with nothing failing but pulls, the rest of the chain resolves. */
  lemma AfterBuildSucceeds(p: Plan, w: World)
    requires forall c :: c in w.failing ==> c.Pull?
    requires p.flatten ==> Translate.Translation(w.inspected).Ok?
    requires p.defaultInfo.ci.Some?
    ensures AfterBuild(p, w).outcome.Done?
  {
    if p.flatten {
      Flatten.FlattenSucceeds(p.imageName, p.final, w);
    }
  }

  /**
   * The main-branch publish scenario: tags `["main"]` given and handed
   * back by the resolver, a branch that is no pull request, pushing allowed,
   * no flattening, no cache image, no LTS gate and nothing failing. The run
   * builds, asks the resolver, records the answer, tags and pushes once
   * each, and writes `.image.json` with the final name and `["main"]`.
   */
  lemma PublishesMain(o: Options, s: Settings, w: World)
    requires o.tags == [Lit("main")] && !o.noPush && !o.flatten && !o.ltsOnly && CacheFrom(o).None?
    requires w.failing == {}
    requires w.resolved.tag == Some([Lit("main")])
    requires w.resolved.ci.Some? && !w.resolved.ci.value.pullRequest
    ensures var final := FinalName(o);
            var info := Info(Some([Lit("main")]), w.resolved.branch, w.resolved.ci, true, None);
            var r := BuildImageRun(o, s, w);
            && r.calls == [
                 Build(final, WorkingPath(o, s), DockerFile(o, s), o.buildArgs, None),
                 GetInfo(WorkingPath(o, s), [Lit("main")]),
                 WriteBuildInfoJson(info),
                 DockerTag(final),
                 DockerPush(final),
                 WriteImageJson(ImageFile(o, s), final, Some([Lit("main")]))]
            && r.outcome == Done(info.(imageName := Some(final)))
  {
    var main := Lit("main");
    assert Sanitize.IsDockerTag(main) by {
      assert main == [0x6D, 0x61, 0x69, 0x6E];
    }
    PublishesOneTag(o, s, w, main);
  }

  /** The same walk for any one legal tag that the resolver hands back as it was given. */
  lemma PublishesOneTag(o: Options, s: Settings, w: World, t: Str)
    requires Sanitize.IsDockerTag(t) && |t| > 0
    requires o.tags == [t] && !o.noPush && !o.flatten && !o.ltsOnly && CacheFrom(o).None?
    requires w.failing == {}
    requires w.resolved.tag == Some([t])
    requires w.resolved.ci.Some? && !w.resolved.ci.value.pullRequest
    ensures var final := FinalName(o);
            var info := Info(Some([t]), w.resolved.branch, w.resolved.ci, true, None);
            var r := BuildImageRun(o, s, w);
            && r.calls == [
                 Build(final, WorkingPath(o, s), DockerFile(o, s), o.buildArgs, None),
                 GetInfo(WorkingPath(o, s), [t]),
                 WriteBuildInfoJson(info),
                 DockerTag(final),
                 DockerPush(final),
                 WriteImageJson(ImageFile(o, s), final, Some([t]))]
            && r.outcome == Done(info.(imageName := Some(final)))
  {
    var p := Prepare(o, s);
    assert p.imageName == p.final == FinalName(o) && p.tagSpecs == [t];
    assert p.cacheFrom == None && !p.ltsOnly && !p.flatten;
    assert BuildCall(p, None) !in w.failing;
    assert Start(p, w).0 == [BuildCall(p, None)];
    assert Start(p, w).1 == None;
    PublishOneTagPlan(p, w, t);
    assert Execute(p, w) == Prepend([BuildCall(p, None)], Publish(p, w));
  }

  /** The publishing half of `PublishesOneTag`, for any plan with those settings. */
  lemma PublishOneTagPlan(p: Plan, w: World, t: Str)
    requires Sanitize.IsDockerTag(t) && |t| > 0
    requires p.tagSpecs == [t] && !p.noPush && w.failing == {}
    requires w.resolved.tag == Some([t])
    requires w.resolved.ci.Some? && !w.resolved.ci.value.pullRequest
    ensures var info := Info(Some([t]), w.resolved.branch, w.resolved.ci, true, None);
            Publish(p, w) == Run(
              [GetInfo(p.workingPath, [t]), WriteBuildInfoJson(info), DockerTag(p.final), DockerPush(p.final),
               WriteImageJson(p.imageFile, p.final, Some([t]))],
              Done(info.(imageName := Some(p.final))))
  {
    var info := Info(Some([t]), w.resolved.branch, w.resolved.ci, true, None);
    SanitizedTagsKeepLegalTags([t]);
    assert Resolved(w.resolved) == info;
    assert WriteBuildInfoRun(p.workingPath, p.tagSpecs, p.defaultInfo, w)
      == Effect([GetInfo(p.workingPath, [t]), WriteBuildInfoJson(info)], Some(info));
    PublishesInOrder(p, w, info);
  }

  // ---- What the chain guarantees: the start ----

  /** The run is skipped, with no call at all, exactly when an LTS-only build runs on a Node version that is not LTS. */
  lemma SkippedOnlyOffLts(o: Options, s: Settings, w: World)
    ensures BuildImageRun(o, s, w).outcome == Skipped <==> o.ltsOnly && !o.defaultInfo.isLTS
    ensures BuildImageRun(o, s, w).outcome == Skipped ==> BuildImageRun(o, s, w).calls == []
  {
    var p := Prepare(o, s);
    if !(o.ltsOnly && !o.defaultInfo.isLTS) {
      var (calls, stop) := Start(p, w);
      if stop.None? {
        AfterBuildOutcome(p, w);
      }
    }
  }

  /** After the build, the run never ends as skipped. */
  lemma AfterBuildOutcome(p: Plan, w: World)
    ensures AfterBuild(p, w).outcome != Skipped
  {
  }

  /**
   * The run opens with the pull of the cache image, when there is one, and
   * then the build, which uses the cache image only if the pull succeeded;
   * the image built is `temp` when flattening and the final name otherwise.
   */
  lemma PullThenBuild(o: Options, s: Settings, w: World)
    requires !(o.ltsOnly && !o.defaultInfo.isLTS)
    ensures var calls := BuildImageRun(o, s, w).calls;
            match CacheFrom(o)
            case None => |calls| >= 1 && calls[0] == Build(BuildTarget(o), WorkingPath(o, s), DockerFile(o, s), o.buildArgs, None)
            case Some(image) =>
              |calls| >= 2 && calls[0] == Pull(image)
              && calls[1] == Build(BuildTarget(o), WorkingPath(o, s), DockerFile(o, s), o.buildArgs,
                                   if Pull(image) in w.failing then None else Some(image))
  {
  }

  // ---- What the chain guarantees: the build information ----

  /**
   * `writeBuildInfo`. Without tag specifications it makes no call and
   * resolves with `{ continue: false }` (or throws reading the absent `ci`).
   * With them it asks the resolver first; when it resolves, it has recorded
   * the answer, whose branch and CI facts are the resolver's, whose tags
   * are the reduced ones, and which continues exactly when some resolved tag
   * is non-empty. It throws exactly when the resolver or the recording
   * fails, or when nothing continues and the CI facts are absent.
   */
  lemma WriteBuildInfoMeaning(workingPath: Str, tagSpecs: seq<Str>, d: DefaultInfo, w: World)
    ensures var e := WriteBuildInfoRun(workingPath, tagSpecs, d, w);
            |tagSpecs| == 0 ==> e.calls == [] && e.value == (if d.ci.None? then None else Some(Halt))
    ensures var e := WriteBuildInfoRun(workingPath, tagSpecs, d, w);
            |tagSpecs| > 0 ==>
              && |e.calls| >= 1 && e.calls[0] == GetInfo(workingPath, tagSpecs)
              && (e.value.None? <==>
                    || GetInfo(workingPath, tagSpecs) in w.failing
                    || (!Resolved(w.resolved).cont && d.ci.None?)
                    || WriteBuildInfoJson(Resolved(w.resolved)) in w.failing)
    ensures var e := WriteBuildInfoRun(workingPath, tagSpecs, d, w);
            |tagSpecs| > 0 && e.value.Some? ==>
              var info := e.value.value;
              && e.calls == [GetInfo(workingPath, tagSpecs), WriteBuildInfoJson(info)]
              && info.Info? && info.branch == w.resolved.branch && info.ci == w.resolved.ci && info.imageName.None?
              && info.tag == (match w.resolved.tag case None => None case Some(ts) => Some(SanitizedTags(ts)))
              && (info.cont <==> w.resolved.tag.Some? && exists i :: 0 <= i < |w.resolved.tag.value| && w.resolved.tag.value[i] != [])
  {
    if w.resolved.tag.Some? {
      SanitizedTagsEmpty(w.resolved.tag.value);
    }
  }

  // ---- What the chain guarantees: tag, push and write ----

  /** The calls of the tag, push and write steps. */
  predicate Publishes(c: Call) {
    c.DockerTag? || c.DockerPush? || c.WriteImageJson?
  }

  /**
   * When `tagImage` skips (a pull request with `skipPRs`, or nothing to
   * continue), so do the push and the file: no call is made and the chain
   * resolves with `{ continue: false }`.
   */
  lemma TagSkipSkipsTheRest(p: Plan, w: World, info: BuildInfo)
    requires TagSkips(p.skipPRs, info)
    ensures FromTag(p, w, info) == Run([], Done(Halt))
  {
  }

  /**
   * With `noPush` the image is still tagged and its file still written,
   * with the tags of the build information; only the push is left out.
   */
  lemma NoPushStillTagsAndWrites(p: Plan, w: World, info: BuildInfo)
    requires !TagSkips(p.skipPRs, info) && p.noPush
    ensures var r := FromTag(p, w, info);
            && r.calls != [] && r.calls[0] == DockerTag(p.final)
            && (DockerTag(p.final) !in w.failing ==>
                  r.calls == [DockerTag(p.final), WriteImageJson(p.imageFile, p.final, info.tag)])
            && (r.outcome.Done? ==> r.outcome.info == info.(imageName := Some(p.final)))
  {
  }

  /**
   * Otherwise the image is tagged, pushed and its file written, in that
   * order, and the chain resolves with the build information naming the
   * final image.
   */
  lemma PublishesInOrder(p: Plan, w: World, info: BuildInfo)
    requires !TagSkips(p.skipPRs, info) && !p.noPush
    requires DockerTag(p.final) !in w.failing && DockerPush(p.final) !in w.failing
    requires WriteImageJson(p.imageFile, p.final, info.tag) !in w.failing
    ensures FromTag(p, w, info)
         == Run([DockerTag(p.final), DockerPush(p.final), WriteImageJson(p.imageFile, p.final, info.tag)],
                Done(info.(imageName := Some(p.final))))
  {
  }

  lemma FromTagCalls(p: Plan, w: World, info: BuildInfo)
    ensures forall c :: c in FromTag(p, w, info).calls ==> Publishes(c) && (p.noPush ==> !c.DockerPush?)
  {
  }

  /** Every call of the chain from `writeBuildInfo` on records the build information or publishes. */
  lemma PublishCalls(p: Plan, w: World)
    ensures var written := WriteBuildInfoRun(p.workingPath, p.tagSpecs, p.defaultInfo, w);
            forall c :: c in Publish(p, w).calls ==>
              || ((c.GetInfo? || c.WriteBuildInfoJson?) && |p.tagSpecs| > 0)
              || (written.value.Some? && c in FromTag(p, w, written.value.value).calls)
  {
  }

  /**
   * Every call of the chain is the pull, the build, a flattening call (only
   * when flattening) or a call from `writeBuildInfo` on; and a run that
   * resolves resolves as that last part does.
   */
  lemma ExecuteCalls(p: Plan, w: World)
    ensures forall c :: c in Execute(p, w).calls ==>
              c.Pull? || c.Build? || (p.flatten && Flatten.FlattenCall(c)) || c in Publish(p, w).calls
    ensures Execute(p, w).outcome.Done? ==> Execute(p, w).outcome == Publish(p, w).outcome
  {
    if p.flatten {
      Flatten.FlattenRunCalls(p.imageName, p.final, w);
    }
  }

  /** Publishing a pull request with `skipPRs` makes none of the tag, push and write calls. */
  lemma PublishSkipsPullRequests(p: Plan, w: World)
    requires p.skipPRs && w.resolved.ci.Some? && w.resolved.ci.value.pullRequest
    ensures forall c :: c in Publish(p, w).calls ==> !Publishes(c)
    ensures Publish(p, w).outcome.Done? ==> Publish(p, w).outcome.info == Halt
  {
    var written := WriteBuildInfoRun(p.workingPath, p.tagSpecs, p.defaultInfo, w);
    if written.value.Some? {
      TagSkipSkipsTheRest(p, w, written.value.value);
      assert Publish(p, w) == Prepend(written.calls, Run([], Done(Halt)));
    }
  }

  /** Without tag specifications publishing makes no call at all. */
  lemma PublishWithoutTagSpecs(p: Plan, w: World)
    requires p.tagSpecs == []
    ensures Publish(p, w) == if p.defaultInfo.ci.None? then Stop([]) else Run([], Done(Halt))
  {
    if p.defaultInfo.ci.Some? {
      TagSkipSkipsTheRest(p, w, Halt);
    }
  }

  /** With `noPush` publishing never pushes. */
  lemma PublishNeverPushes(p: Plan, w: World)
    requires p.noPush
    ensures forall c :: c in Publish(p, w).calls ==> !c.DockerPush?
  {
    PublishCalls(p, w);
    var written := WriteBuildInfoRun(p.workingPath, p.tagSpecs, p.defaultInfo, w);
    if written.value.Some? {
      FromTagCalls(p, w, written.value.value);
    }
  }

  /**
   * With `skipPRs`, a pull request is built but neither tagged, pushed nor
   * written to the image file, and the run resolves, if at all, with
   * `{ continue: false }`.
   */
  lemma PullRequestsNotPublished(o: Options, s: Settings, w: World)
    requires o.skipPRs && w.resolved.ci.Some? && w.resolved.ci.value.pullRequest
    ensures var r := BuildImageRun(o, s, w);
            && (forall c :: c in r.calls ==> !Publishes(c))
            && (r.outcome.Done? ==> r.outcome.info == Halt)
  {
    var p := Prepare(o, s);
    ExecuteCalls(p, w);
    PublishSkipsPullRequests(p, w);
  }

  /** With `noPush` nothing is ever pushed. */
  lemma NoPushNeverPushes(o: Options, s: Settings, w: World)
    requires o.noPush
    ensures forall c :: c in BuildImageRun(o, s, w).calls ==> !c.DockerPush?
  {
    var p := Prepare(o, s);
    ExecuteCalls(p, w);
    PublishNeverPushes(p, w);
  }

  /**
   * Without tag specifications the resolver is never asked and nothing is
   * published; the run resolves, if at all, with `{ continue: false }`,
   * and it cannot resolve when the CI facts are absent.
   */
  lemma NoTagSpecsNoPublishing(o: Options, s: Settings, w: World)
    requires TagSpecs(o, s) == []
    ensures var r := BuildImageRun(o, s, w);
            && (forall c :: c in r.calls ==> !c.GetInfo? && !c.WriteBuildInfoJson? && !Publishes(c))
            && (r.outcome.Done? ==> r.outcome.info == Halt && o.defaultInfo.ci.Some?)
  {
    var p := Prepare(o, s);
    ExecuteCalls(p, w);
    PublishWithoutTagSpecs(p, w);
  }

  /**
   * Without `flatten` no flattening call is made; with it, a successful
   * build of `temp` is followed by the inspection of `temp:latest`.
   */
  lemma FlattenOnlyWhenAsked(o: Options, s: Settings, w: World)
    ensures !o.flatten ==> forall c :: c in BuildImageRun(o, s, w).calls ==> !Flatten.FlattenCall(c)
    ensures var p := Prepare(o, s);
            var (calls, stop) := Start(p, w);
            o.flatten && stop.None? ==>
              && |BuildImageRun(o, s, w).calls| > |calls|
              && calls[|calls| - 1].image == TEMPORARY
              && BuildImageRun(o, s, w).calls[|calls|] == Inspect(Flatten.LatestTag(TEMPORARY))
  {
    var p := Prepare(o, s);
    ExecuteCalls(p, w);
    PublishCalls(p, w);
    var written := WriteBuildInfoRun(p.workingPath, p.tagSpecs, p.defaultInfo, w);
    if written.value.Some? {
      FromTagCalls(p, w, written.value.value);
    }
    if o.flatten {
      Flatten.FlattenRunCalls(p.imageName, p.final, w);
    }
  }

  // ---- The methods ----

  /** The `reduce` over the resolved tags. */
  method CollectTags(raw: seq<Str>) returns (acc: seq<Str>)
    ensures acc == SanitizedTags(raw)
  {
    acc := [];
    for i := 0 to |raw|
      invariant acc == SanitizedTags(raw[..i])
    {
      var t := raw[i];
      if |t| > 0 {
        acc := acc + [Sanitize.SanitizeTag(t)];
      }
      assert raw[..i + 1][..i] == raw[..i];
    }
    assert raw[..|raw|] == raw;
  }

  method WriteBuildInfo(host: Host, workingPath: Str, tags: seq<Str>, d: DefaultInfo) returns (ok: bool, info: BuildInfo)
    modifies host
    ensures var r := WriteBuildInfoRun(workingPath, tags, d, host.world);
            host.trace == old(host.trace) + r.calls && ok == r.value.Some? && (ok ==> info == r.value.value)
  {
    info := Halt;
    if |tags| > 0 {
      var raw;
      ok, raw := host.ResolveInfo(workingPath, tags);
      if !ok { return; }
      var tagList := raw.tag;
      if raw.tag.Some? {
        var collected := CollectTags(raw.tag.value);
        tagList := Some(collected);
      }
      var cont := tagList.Some? && |tagList.value| > 0;
      if !cont && d.ci.None? {
        ok := false;
        return;
      }
      info := Info(tagList, raw.branch, raw.ci, cont, None);
      ok := host.Perform(WriteBuildInfoJson(info));
    } else {
      ok := d.ci.Some?;
    }
  }

  method TagImage(host: Host, skipPRs: bool, image: Str, info: BuildInfo) returns (ok: bool, r: BuildInfo)
    modifies host
    ensures var e := TagImageRun(skipPRs, image, info, host.world);
            host.trace == old(host.trace) + e.calls && ok == e.value.Some? && (ok ==> r == e.value.value)
  {
    if TagSkips(skipPRs, info) {
      return true, Halt;
    }
    ok := host.Perform(DockerTag(image));
    r := info;
  }

  method PushImage(host: Host, noPush: bool, image: Str, info: BuildInfo) returns (ok: bool, r: BuildInfo)
    modifies host
    ensures var e := PushImageRun(noPush, image, info, host.world);
            host.trace == old(host.trace) + e.calls && ok == e.value.Some? && (ok ==> r == e.value.value)
  {
    r := info;
    if PushSkips(noPush, info) {
      return true, r;
    }
    ok := host.Perform(DockerPush(image));
  }

  method WriteImageFile(host: Host, file: Path, image: Str, info: BuildInfo) returns (ok: bool, r: BuildInfo)
    modifies host
    ensures var e := WriteImageFileRun(file, image, info, host.world);
            host.trace == old(host.trace) + e.calls && ok == e.value.Some? && (ok ==> r == e.value.value)
  {
    if WriteSkips(info) {
      return true, info;
    }
    r := info.(imageName := Some(image));
    ok := host.Perform(WriteImageJson(file, image, info.tag));
  }

  /**
   * `buildImage`: the constants first, then the chain, in which `cacheFrom`
   * and `imageName` are reassigned and each `.catch(exitOnError)` ends the run.
   */
  method BuildImage(host: Host, o: Options, s: Settings) returns (outcome: Outcome)
    modifies host
    ensures host.trace == old(host.trace) + BuildImageRun(o, s, host.world).calls
    ensures outcome == BuildImageRun(o, s, host.world).outcome
  {
    var plan := Prepare(o, s);
    outcome := Executing(host, plan);
  }

  /** The chain of `buildImage` once its constants are known. */
  method Executing(host: Host, plan: Plan) returns (outcome: Outcome)
    modifies host
    ensures host.trace == old(host.trace) + Execute(plan, host.world).calls
    ensures outcome == Execute(plan, host.world).outcome
  {
    ghost var before := host.trace;
    var stop := Starting(host, plan);
    if stop.Some? {
      return stop.value;
    }
    outcome := Finishing(host, plan);
    AppendTwice(before, Start(plan, host.world).0, AfterBuild(plan, host.world).calls);
  }

  /** The LTS gate, `preBuild` and `docker.build`. */
  method Starting(host: Host, plan: Plan) returns (stop: Option<Outcome>)
    modifies host
    ensures host.trace == old(host.trace) + Start(plan, host.world).0
    ensures stop == Start(plan, host.world).1
  {
    if plan.ltsOnly && !plan.defaultInfo.isLTS {
      return Some(Skipped);
    }
    var cacheFrom := PullCache(host, plan.cacheFrom);
    var ok := host.Perform(BuildCall(plan, cacheFrom));
    stop := if ok then None else Some(Fatal(EXIT_CODE));
  }

  /** `preBuild`: a failed pull of the cache image clears `cacheFrom`. */
  method PullCache(host: Host, cacheFrom: Option<Str>) returns (r: Option<Str>)
    modifies host
    ensures host.trace == old(host.trace) + PreBuild(cacheFrom, host.world).0
    ensures r == PreBuild(cacheFrom, host.world).1
  {
    r := cacheFrom;
    if r.Some? {
      var pulled := host.Perform(Pull(r.value));
      if !pulled {
        r := None;
      }
    }
  }

  /** The chain after a successful build: flatten `temp` into the final image when asked to, then publish. */
  method Finishing(host: Host, plan: Plan) returns (outcome: Outcome)
    modifies host
    ensures host.trace == old(host.trace) + AfterBuild(plan, host.world).calls
    ensures outcome == AfterBuild(plan, host.world).outcome
  {
    var imageName := plan.imageName;
    if plan.flatten {
      ghost var before := host.trace;
      var ok := Flatten.FlattenImage(host, imageName, plan.final);
      if !ok {
        return Fatal(EXIT_CODE);
      }
      imageName := plan.final;
      outcome := Publishing(host, plan);
      AppendTwice(before, Flatten.FlattenRun(plan.imageName, plan.final, host.world).calls, Publish(plan, host.world).calls);
    } else {
      outcome := Publishing(host, plan);
    }
  }

  /** The chain from `writeBuildInfo` on. */
  method Publishing(host: Host, plan: Plan) returns (outcome: Outcome)
    modifies host
    ensures host.trace == old(host.trace) + Publish(plan, host.world).calls
    ensures outcome == Publish(plan, host.world).outcome
  {
    ghost var before := host.trace;
    var ok, info := WriteBuildInfo(host, plan.workingPath, plan.tagSpecs, plan.defaultInfo);
    if !ok {
      return Fatal(EXIT_CODE);
    }
    outcome := Tagging(host, plan, info);
    AppendTwice(before, WriteBuildInfoRun(plan.workingPath, plan.tagSpecs, plan.defaultInfo, host.world).calls,
                FromTag(plan, host.world, info).calls);
  }

  method Tagging(host: Host, plan: Plan, info: BuildInfo) returns (outcome: Outcome)
    modifies host
    ensures host.trace == old(host.trace) + FromTag(plan, host.world, info).calls
    ensures outcome == FromTag(plan, host.world, info).outcome
  {
    ghost var before := host.trace;
    var ok, tagged := TagImage(host, plan.skipPRs, plan.final, info);
    if !ok {
      return Fatal(EXIT_CODE);
    }
    outcome := Pushing(host, plan, tagged);
    AppendTwice(before, TagImageRun(plan.skipPRs, plan.final, info, host.world).calls, FromPush(plan, host.world, tagged).calls);
  }

  method Pushing(host: Host, plan: Plan, info: BuildInfo) returns (outcome: Outcome)
    modifies host
    ensures host.trace == old(host.trace) + FromPush(plan, host.world, info).calls
    ensures outcome == FromPush(plan, host.world, info).outcome
  {
    ghost var before := host.trace;
    var ok, pushed := PushImage(host, plan.noPush, plan.final, info);
    if !ok {
      return Fatal(EXIT_CODE);
    }
    var written;
    ok, written := WriteImageFile(host, plan.imageFile, plan.final, pushed);
    AppendTwice(before, PushImageRun(plan.noPush, plan.final, info, host.world).calls,
                WriteImageFileRun(plan.imageFile, plan.final, pushed, host.world).calls);
    if !ok {
      return Fatal(EXIT_CODE);
    }
    return Done(written);
  }
}
