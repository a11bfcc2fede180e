/**
 * What the pipeline talks to: the Docker engine, the build-information
 * resolver and the filesystem. Each is seen only through the calls made to
 * it, each of which succeeds or fails; the answers the engine and the
 * resolver give, the free memory and the container name are fixed inputs
 * gathered in a `World`.
 */
module Engine {
  import opened Wrappers
  import opened JsStrings
  import Translate

  /** The `ci` part of the build information. */
  datatype Ci = Ci(pullRequest: bool, tagged: bool)

  /** A directory and a file name in it, as `path.join` and `path.resolve` combine them. */
  datatype Path = Path(dir: Str, name: Str)

  /** What the resolver answers: `tag` absent or an array of tag strings, the branch and the CI facts. */
  datatype RawInfo = RawInfo(tag: Option<seq<Str>>, branch: Str, ci: Option<Ci>)

  /**
   * The build information passed down the promise chain. `Halt` is the bare
   * `{ continue: false }` object; `Info` is a resolver answer after
   * `writeBuildInfo` has set its `continue` flag, and, once the image file
   * is written, its `imageName`.
   */
  datatype BuildInfo =
    | Halt
    | Info(tag: Option<seq<Str>>, branch: Str, ci: Option<Ci>, cont: bool, imageName: Option<Str>)

  /** `info.continue !== false` */
  predicate Continues(info: BuildInfo) {
    info.Info? && info.cont
  }

  /** One call to a collaborator, with the arguments that matter. */
  datatype Call =
    | Pull(image: Str)
    | Build(image: Str, working: Str, dockerFile: Str, args: map<Str, Str>, cacheFrom: Option<Str>)
    | Inspect(image: Str)
    | Create(image: Str, name: Str)
    | ExportToFile(container: Str, output: Path)
    | ExportToPipe(container: Str)
    | ImportFile(file: Path, image: Str, changes: seq<Str>)
    | ImportPipe(image: Str, changes: seq<Str>)
    | Unlink(file: Path)
    | RemoveContainer(container: Str)
    | GetInfo(repo: Str, tags: seq<Str>)
    | WriteBuildInfoJson(info: BuildInfo)
    | DockerTag(image: Str)
    | DockerPush(image: Str)
    | WriteImageJson(file: Path, image: Str, imageTags: Option<seq<Str>>)

  /**
   * Everything outside the program: which calls fail, what `inspect` and the
   * resolver answer, `os.freemem()`, the container name taken from a uuid,
   * `os.tmpdir()` and whether the exported archive is on disk at cleanup.
   */
  datatype World = World(
    failing: set<Call>,
    inspected: Translate.Inspected,
    resolved: RawInfo,
    freeMem: nat,
    containerName: Str,
    tmpDir: Str,
    tempFileExists: bool)

  /** The calls a step makes and, unless it threw, its value. */
  datatype Effect<T> = Effect(calls: seq<Call>, value: Option<T>)

  /**
   * A fixed sequence of calls, each started only once the one before it has
   * succeeded: the calls made run up to and including the first that fails.
   */
  function RunPlan(plan: seq<Call>, failing: set<Call>): Effect<()> {
    if plan == [] then Effect([], Some(()))
    else if plan[0] in failing then Effect([plan[0]], None)
    else
      var rest := RunPlan(plan[1..], failing);
      Effect([plan[0]] + rest.calls, rest.value)
  }

  /**
   * The calls made are a prefix of the plan; they are the whole plan exactly
   * when no call of it fails, and otherwise end with the first that fails.
   */
  lemma {:induction false} RunPlanMeaning(plan: seq<Call>, failing: set<Call>)
    ensures var r := RunPlan(plan, failing);
            && r.calls <= plan
            && (r.value.Some? <==> forall i :: 0 <= i < |plan| ==> plan[i] !in failing)
            && (r.value.Some? ==> r.calls == plan)
            && (r.value.None? ==> r.calls != [] && r.calls[|r.calls| - 1] in failing)
            && forall i :: 0 <= i < |r.calls| - 1 ==> r.calls[i] !in failing
  {
    if plan != [] && plan[0] !in failing {
      RunPlanMeaning(plan[1..], failing);
      assert forall i :: 1 <= i < |plan| ==> plan[i] == plan[1..][i - 1];
    }
  }

  /** A step stops at its first failing call: a call that fails is the last one, and the step throws. */
  predicate Halts<T>(e: Effect<T>, failing: set<Call>) {
    forall i :: 0 <= i < |e.calls| && e.calls[i] in failing ==> i == |e.calls| - 1 && e.value.None?
  }

  /** Calls appended in two steps are the calls appended at once. */
  lemma AppendTwice(trace: seq<Call>, first: seq<Call>, second: seq<Call>)
    ensures trace + first + second == trace + (first + second)
  {
  }

  /** Running a plan is making its first call and, if that succeeds, running the rest. */
  lemma RunPlanStep(c: Call, rest: seq<Call>, failing: set<Call>)
    ensures RunPlan([c] + rest, failing)
      == if c in failing then Effect([c], None)
         else Effect([c] + RunPlan(rest, failing).calls, RunPlan(rest, failing).value)
  {
    assert ([c] + rest)[1..] == rest;
  }

  /**
   * The machine the pipeline runs on, as its collaborators see it: every call
   * is appended to `trace`, and succeeds unless the world says it fails.
   */
  class Host {
    var trace: seq<Call>
    const world: World

    constructor (w: World)
      ensures trace == [] && world == w
    {
      trace := [];
      world := w;
    }

    /** Makes a call whose only answer is success or failure. */
    method Perform(c: Call) returns (ok: bool)
      modifies this
      ensures trace == old(trace) + [c]
      ensures ok == (c !in world.failing)
    {
      trace := trace + [c];
      ok := c !in world.failing;
    }

    /** `docker.inspect(image)`: on success, the image's configuration. */
    method InspectImage(image: Str) returns (ok: bool, cfg: Translate.Inspected)
      modifies this
      ensures trace == old(trace) + [Inspect(image)]
      ensures ok == (Inspect(image) !in world.failing) && cfg == world.inspected
    {
      ok := Perform(Inspect(image));
      cfg := world.inspected;
    }

    /** `goggles.getInfo({ repo, tags })`: on success, the resolved build information. */
    method ResolveInfo(repo: Str, tags: seq<Str>) returns (ok: bool, raw: RawInfo)
      modifies this
      ensures trace == old(trace) + [GetInfo(repo, tags)]
      ensures ok == (GetInfo(repo, tags) !in world.failing) && raw == world.resolved
    {
      ok := Perform(GetInfo(repo, tags));
      raw := world.resolved;
    }
  }
}
