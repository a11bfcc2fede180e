/**
 * Flattening the temporary image into the final one: read the temporary
 * image's configuration, translate it into commit instructions, then copy
 * its filesystem into the final image either through an archive on disk or
 * through a pipe, depending on the image size and the free memory.
 */
module Flatten {
  import opened Wrappers
  import opened JsStrings
  import opened Engine
  import Translate

  const LATEST: Str := Lit("latest")

  /** The archive `flattenByDisk` exports to, in the temporary directory. */
  const TEMP_ARCHIVE: Str := Lit("temp-container.tgz")

  /** `${image}:latest`, also `[image, 'latest'].join(':')` */
  function LatestTag(image: Str): Str {
    image + [COLON] + LATEST
  }

  /** The disk executor is chosen when ten times the image size exceeds the free memory. */
  predicate ByDisk(imageSize: nat, freeMem: nat) {
    imageSize * 10 > freeMem
  }

  /** The test is a threshold on the size: more than a tenth (rounded down) of the free memory. */
  lemma ByDiskThreshold(imageSize: nat, freeMem: nat)
    ensures ByDisk(imageSize, freeMem) <==> imageSize > freeMem / 10
  {
    var q, m := freeMem / 10, freeMem % 10;
    assert freeMem == 10 * q + m && 0 <= m < 10;
    if imageSize > q {
      assert imageSize * 10 >= (q + 1) * 10;
    } else {
      assert imageSize * 10 <= q * 10;
    }
  }

  function TempArchive(w: World): Path {
    Path(w.tmpDir, TEMP_ARCHIVE)
  }

  /** The calls of `flattenByDisk` from the import on. */
  function ImportArchivePlan(archive: Path, container: Str, finalImage: Str, changes: seq<Str>, archiveExists: bool): seq<Call> {
    [ImportFile(archive, finalImage, changes)]
    + (if archiveExists then [Unlink(archive)] else [])
    + [RemoveContainer(container)]
  }

  /**
   * The calls of `flattenByDisk`: create, export to the archive, import the
   * archive with the instructions, delete the archive if it is there, and
   * force-remove the container.
   */
  function DiskPlan(tag: Str, container: Str, archive: Path, finalImage: Str, changes: seq<Str>, archiveExists: bool): seq<Call> {
    [Create(tag, container), ExportToFile(container, archive)]
    + ImportArchivePlan(archive, container, finalImage, changes, archiveExists)
  }

  /** The calls of `flattenByPipe`: create, export to a pipe, import from it, force-remove the container. */
  function PipePlan(tag: Str, container: Str, finalImage: Str, changes: seq<Str>): seq<Call> {
    [Create(tag, container), ExportToPipe(container), ImportPipe(finalImage, changes), RemoveContainer(container)]
  }

  /** The plan of the executor chosen for an image of `imageSize`. */
  function Executor(imageSize: nat, w: World, tag: Str, finalImage: Str, changes: seq<Str>): seq<Call> {
    if ByDisk(imageSize, w.freeMem) then DiskPlan(tag, w.containerName, TempArchive(w), finalImage, changes, w.tempFileExists)
    else PipePlan(tag, w.containerName, finalImage, changes)
  }

  /**
   * `flattenImage`: inspect `${initialImage}:latest`, translate its
   * configuration (a failed inspection or an ENV entry without `=` rejects),
   * and run the chosen executor with the instructions, the size removed.
   */
  function FlattenRun(initialImage: Str, finalImage: Str, w: World): Effect<()> {
    var tag := LatestTag(initialImage);
    if Inspect(tag) in w.failing then Effect([Inspect(tag)], None)
    else match Translate.Translation(w.inspected)
      case Err(_) => Effect([Inspect(tag)], None)
      case Ok(changes) =>
        var r := RunPlan(Executor(changes.size, w, tag, finalImage, changes.instructions), w.failing);
        Effect([Inspect(tag)] + r.calls, r.value)
  }

  predicate IsImport(c: Call) {
    c.ImportFile? || c.ImportPipe?
  }

  predicate IsCleanup(c: Call) {
    c.Unlink? || c.RemoveContainer?
  }

  /**
   * In a plan whose import is its third call and whose cleanups all come
   * after it, a cleanup is made only after that import has succeeded.
   */
  lemma CleanupAfterImportIn(plan: seq<Call>, failing: set<Call>)
    requires |plan| > 2 && IsImport(plan[2])
    requires forall i :: 0 <= i < |plan| && IsCleanup(plan[i]) ==> i > 2
    ensures var made := RunPlan(plan, failing).calls;
            forall i :: 0 <= i < |made| && IsCleanup(made[i]) ==>
              2 < i && IsImport(made[2]) && made[2] !in failing
  {
    var made := RunPlan(plan, failing).calls;
    RunPlanMeaning(plan, failing);
    forall i | 0 <= i < |made| && IsCleanup(made[i])
      ensures 2 < i && IsImport(made[2]) && made[2] !in failing
    {
      assert made[i] == plan[i] && made[2] == plan[2];
    }
  }

  /** The archive is deleted and the container removed only after an import that succeeded. */
  lemma CleanupOnlyAfterImport(initialImage: Str, finalImage: Str, w: World)
    ensures var calls := FlattenRun(initialImage, finalImage, w).calls;
            forall i :: 0 <= i < |calls| && IsCleanup(calls[i]) ==>
              exists j :: 0 <= j < i && IsImport(calls[j]) && calls[j] !in w.failing
  {
    var tag := LatestTag(initialImage);
    if Inspect(tag) !in w.failing && Translate.Translation(w.inspected).Ok? {
      var changes := Translate.Translation(w.inspected).value;
      var plan := Executor(changes.size, w, tag, finalImage, changes.instructions);
      var calls := FlattenRun(initialImage, finalImage, w).calls;
      var made := RunPlan(plan, w.failing).calls;
      assert calls == [Inspect(tag)] + made;
      ExecutorCleanup(changes.size, w, tag, finalImage, changes.instructions);
      CleanupAfterImportIn(plan, w.failing);
      assert forall k :: 0 <= k < |RunPlan(plan, w.failing).calls| && IsCleanup(RunPlan(plan, w.failing).calls[k]) ==>
        2 < k && IsImport(made[2]) && made[2] !in w.failing;
      forall i | 0 <= i < |calls| && IsCleanup(calls[i])
        ensures exists j :: 0 <= j < i && IsImport(calls[j]) && calls[j] !in w.failing
      {
        assert calls[i] == made[i - 1] && calls[3] == made[2];
        assert 3 < i && IsImport(calls[3]) && calls[3] !in w.failing;
      }
    }
  }

  /** In either executor's plan the import is the third call, and every cleanup comes after it. */
  lemma ExecutorCleanup(size: nat, w: World, tag: Str, finalImage: Str, changes: seq<Str>)
    ensures var plan := Executor(size, w, tag, finalImage, changes);
            |plan| > 2 && IsImport(plan[2])
            && forall i :: 0 <= i < |plan| && IsCleanup(plan[i]) ==> i > 2
  {
  }

  /**
   * The route is visible in the calls: flattening exports the container to
   * the archive on disk exactly when the size test picks the disk executor
   * and the inspection, the translation and the container's creation
   * succeed; it exports through a pipe exactly when the test picks the pipe.
   */
  lemma ExportRouteFollowsSize(initialImage: Str, finalImage: Str, w: World)
    ensures var tag := LatestTag(initialImage);
            var calls := FlattenRun(initialImage, finalImage, w).calls;
            var exporting := Inspect(tag) !in w.failing && Translate.Translation(w.inspected).Ok?
              && Create(tag, w.containerName) !in w.failing;
            && ((exists c :: c in calls && c.ExportToFile?) <==>
                 exporting && ByDisk(Translate.Translation(w.inspected).value.size, w.freeMem))
            && ((exists c :: c in calls && c.ExportToPipe?) <==>
                 exporting && !ByDisk(Translate.Translation(w.inspected).value.size, w.freeMem))
  {
    var tag := LatestTag(initialImage);
    if Inspect(tag) !in w.failing && Translate.Translation(w.inspected).Ok? {
      var changes := Translate.Translation(w.inspected).value;
      var made := RunPlan(Executor(changes.size, w, tag, finalImage, changes.instructions), w.failing).calls;
      assert FlattenRun(initialImage, finalImage, w).calls == [Inspect(tag)] + made;
      ExecutorExports(changes.size, w, tag, finalImage, changes.instructions);
    }
  }

  /** Either executor exports to a file exactly when it is the disk executor and the creation succeeds, and to a pipe likewise for the pipe executor. */
  lemma ExecutorExports(size: nat, w: World, tag: Str, finalImage: Str, changes: seq<Str>)
    ensures var made := RunPlan(Executor(size, w, tag, finalImage, changes), w.failing).calls;
            && ((exists c :: c in made && c.ExportToFile?) <==> Create(tag, w.containerName) !in w.failing && ByDisk(size, w.freeMem))
            && ((exists c :: c in made && c.ExportToPipe?) <==> Create(tag, w.containerName) !in w.failing && !ByDisk(size, w.freeMem))
  {
    var create := Create(tag, w.containerName);
    if ByDisk(size, w.freeMem) {
      var archive := TempArchive(w);
      var tail := ImportArchivePlan(archive, w.containerName, finalImage, changes, w.tempFileExists);
      assert Executor(size, w, tag, finalImage, changes) == [create, ExportToFile(w.containerName, archive)] + tail;
      SecondCallMade(create, ExportToFile(w.containerName, archive), tail, w.failing);
    } else {
      var tail := [ImportPipe(finalImage, changes), RemoveContainer(w.containerName)];
      assert Executor(size, w, tag, finalImage, changes) == [create, ExportToPipe(w.containerName)] + tail;
      SecondCallMade(create, ExportToPipe(w.containerName), tail, w.failing);
    }
  }

  /** A chain makes its second call exactly when the first succeeds, and makes no call outside its plan. */
  lemma SecondCallMade(first: Call, second: Call, tail: seq<Call>, failing: set<Call>)
    ensures var made := RunPlan([first, second] + tail, failing).calls;
            && (second in made <==> first !in failing || first == second)
            && forall c :: c in made ==> c == first || c == second || c in tail
  {
    var plan := [first, second] + tail;
    RunPlanMeaning(plan, failing);
    assert plan == [first] + ([second] + tail);
    RunPlanStep(first, [second] + tail, failing);
    RunPlanStep(second, tail, failing);
    forall c | c in RunPlan(plan, failing).calls
      ensures c == first || c == second || c in tail
    {
      var k :| 0 <= k < |RunPlan(plan, failing).calls| && RunPlan(plan, failing).calls[k] == c;
      assert c == plan[k];
    }
  }

  /** Either executor's import is of the final image, with the changes it was given. */
  lemma ExecutorImports(size: nat, w: World, tag: Str, finalImage: Str, changes: seq<Str>)
    ensures var plan := Executor(size, w, tag, finalImage, changes);
            forall i :: 0 <= i < |plan| && IsImport(plan[i]) ==> plan[i].image == finalImage && plan[i].changes == changes
  {
  }

  /** Whatever the executor, an import receives exactly the translated instructions, without the size. */
  lemma ImportCarriesInstructions(initialImage: Str, finalImage: Str, w: World)
    ensures var calls := FlattenRun(initialImage, finalImage, w).calls;
            forall c :: c in calls && IsImport(c) ==>
              Translate.Translation(w.inspected).Ok? && c.image == finalImage
              && c.changes == Translate.Translation(w.inspected).value.instructions
  {
    var tag := LatestTag(initialImage);
    var calls := FlattenRun(initialImage, finalImage, w).calls;
    if Inspect(tag) !in w.failing && Translate.Translation(w.inspected).Ok? {
      var changes := Translate.Translation(w.inspected).value;
      var plan := Executor(changes.size, w, tag, finalImage, changes.instructions);
      var r := RunPlan(plan, w.failing);
      RunPlanMeaning(plan, w.failing);
      ExecutorImports(changes.size, w, tag, finalImage, changes.instructions);
      assert calls == [Inspect(tag)] + r.calls;
      forall c | c in calls && IsImport(c)
        ensures c.image == finalImage && c.changes == changes.instructions
      {
        var i :| 0 <= i < |calls| && calls[i] == c;
        assert c == plan[i - 1];
      }
    }
  }

  /** The calls flattening can make. */
  predicate FlattenCall(c: Call) {
    c.Inspect? || c.Create? || c.ExportToFile? || c.ExportToPipe? || c.ImportFile? || c.ImportPipe?
    || c.Unlink? || c.RemoveContainer?
  }

  /** Flattening talks to the engine and the filesystem only through those calls, starting with the inspection. */
  lemma FlattenRunCalls(initialImage: Str, finalImage: Str, w: World)
    ensures var calls := FlattenRun(initialImage, finalImage, w).calls;
            calls != [] && calls[0] == Inspect(LatestTag(initialImage))
            && forall c :: c in calls ==> FlattenCall(c)
  {
    var tag := LatestTag(initialImage);
    if Inspect(tag) !in w.failing && Translate.Translation(w.inspected).Ok? {
      var changes := Translate.Translation(w.inspected).value;
      var plan := Executor(changes.size, w, tag, finalImage, changes.instructions);
      RunPlanMeaning(plan, w.failing);
      assert forall c :: c in plan ==> FlattenCall(c);
    }
  }

  /** Flattening makes no call after one that failed, and fails when one does. */
  lemma FlattenHalts(initialImage: Str, finalImage: Str, w: World)
    ensures Halts(FlattenRun(initialImage, finalImage, w), w.failing)
  {
    var tag := LatestTag(initialImage);
    if Inspect(tag) !in w.failing && Translate.Translation(w.inspected).Ok? {
      var changes := Translate.Translation(w.inspected).value;
      var plan := Executor(changes.size, w, tag, finalImage, changes.instructions);
      var r := RunPlan(plan, w.failing);
      RunPlanMeaning(plan, w.failing);
      var calls := [Inspect(tag)] + r.calls;
      forall i | 0 <= i < |calls| && calls[i] in w.failing ensures i == |calls| - 1 && r.value.None? {
        assert calls[i] == r.calls[i - 1];
      }
    }
  }

  /** Flattening succeeds exactly when the inspection, the translation and every call of the chosen executor succeed. */
  lemma FlattenSucceeds(initialImage: Str, finalImage: Str, w: World)
    ensures var tag := LatestTag(initialImage);
            FlattenRun(initialImage, finalImage, w).value.Some? <==>
              && Inspect(tag) !in w.failing
              && Translate.Translation(w.inspected).Ok?
              && var changes := Translate.Translation(w.inspected).value;
                 var plan := Executor(changes.size, w, tag, finalImage, changes.instructions);
                 forall i :: 0 <= i < |plan| ==> plan[i] !in w.failing
  {
    var tag := LatestTag(initialImage);
    if Inspect(tag) !in w.failing && Translate.Translation(w.inspected).Ok? {
      var changes := Translate.Translation(w.inspected).value;
      RunPlanMeaning(Executor(changes.size, w, tag, finalImage, changes.instructions), w.failing);
    }
  }

  /** The executor `flattenByDisk`, one promise callback after another. */
  method FlattenByDisk(host: Host, container: Str, tag: Str, finalImage: Str, changes: seq<Str>) returns (ok: bool)
    modifies host
    ensures var r := RunPlan(DiskPlan(tag, container, TempArchive(host.world), finalImage, changes, host.world.tempFileExists), host.world.failing);
            host.trace == old(host.trace) + r.calls && ok == r.value.Some?
  {
    var archive := TempArchive(host.world);
    ghost var failing := host.world.failing;
    ghost var rest := ImportArchivePlan(archive, container, finalImage, changes, host.world.tempFileExists);
    assert DiskPlan(tag, container, archive, finalImage, changes, host.world.tempFileExists)
      == [Create(tag, container)] + ([ExportToFile(container, archive)] + rest);
    RunPlanStep(Create(tag, container), [ExportToFile(container, archive)] + rest, failing);
    RunPlanStep(ExportToFile(container, archive), rest, failing);
    ok := host.Perform(Create(tag, container));
    if !ok { return; }
    ok := host.Perform(ExportToFile(container, archive));
    if !ok { return; }
    ok := ImportArchive(host, archive, container, finalImage, changes);
  }

  /** The callback after the export: import the archive, delete it if it is there, remove the container. */
  method ImportArchive(host: Host, archive: Path, container: Str, finalImage: Str, changes: seq<Str>) returns (ok: bool)
    modifies host
    ensures var r := RunPlan(ImportArchivePlan(archive, container, finalImage, changes, host.world.tempFileExists), host.world.failing);
            host.trace == old(host.trace) + r.calls && ok == r.value.Some?
  {
    ghost var failing := host.world.failing;
    ghost var last := [RemoveContainer(container)];
    ghost var cleanup := (if host.world.tempFileExists then [Unlink(archive)] else []) + last;
    assert ImportArchivePlan(archive, container, finalImage, changes, host.world.tempFileExists)
      == [ImportFile(archive, finalImage, changes)] + cleanup;
    RunPlanStep(ImportFile(archive, finalImage, changes), cleanup, failing);
    RunPlanStep(RemoveContainer(container), [], failing);
    ok := host.Perform(ImportFile(archive, finalImage, changes));
    if !ok { return; }
    if host.world.tempFileExists {
      RunPlanStep(Unlink(archive), last, failing);
      ok := host.Perform(Unlink(archive));
      if !ok { return; }
    }
    ok := host.Perform(RemoveContainer(container));
  }

  /** The executor `flattenByPipe`. */
  method FlattenByPipe(host: Host, container: Str, tag: Str, finalImage: Str, changes: seq<Str>) returns (ok: bool)
    modifies host
    ensures var r := RunPlan(PipePlan(tag, container, finalImage, changes), host.world.failing);
            host.trace == old(host.trace) + r.calls && ok == r.value.Some?
  {
    ghost var failing := host.world.failing;
    ghost var last := [RemoveContainer(container)];
    ghost var fromImport := [ImportPipe(finalImage, changes)] + last;
    ghost var fromExport := [ExportToPipe(container)] + fromImport;
    assert PipePlan(tag, container, finalImage, changes) == [Create(tag, container)] + fromExport;
    RunPlanStep(Create(tag, container), fromExport, failing);
    RunPlanStep(ExportToPipe(container), fromImport, failing);
    RunPlanStep(ImportPipe(finalImage, changes), last, failing);
    RunPlanStep(RemoveContainer(container), [], failing);
    ok := host.Perform(Create(tag, container));
    if !ok { return; }
    ok := host.Perform(ExportToPipe(container));
    if !ok { return; }
    ok := host.Perform(ImportPipe(finalImage, changes));
    if !ok { return; }
    ok := host.Perform(RemoveContainer(container));
  }

  /** `flattenImage`, with `getChangesForImport` split into the inspection and the translation. */
  method FlattenImage(host: Host, initialImage: Str, finalImage: Str) returns (ok: bool)
    modifies host
    ensures host.trace == old(host.trace) + FlattenRun(initialImage, finalImage, host.world).calls
    ensures ok == FlattenRun(initialImage, finalImage, host.world).value.Some?
  {
    ghost var before := host.trace;
    var tag := LatestTag(initialImage);
    var container := host.world.containerName;
    var cfg;
    ok, cfg := host.InspectImage(tag);
    if !ok { return; }
    var changes := Translate.GetChangesForImport(cfg);
    if changes.Err? {
      ok := false;
      return;
    }
    var freeMem := host.world.freeMem;
    var imageSize := changes.value.size;
    var instructions := changes.value.instructions;
    ghost var r := RunPlan(Executor(imageSize, host.world, tag, finalImage, instructions), host.world.failing);
    if ByDisk(imageSize, freeMem) {
      ok := FlattenByDisk(host, container, tag, finalImage, instructions);
    } else {
      ok := FlattenByPipe(host, container, tag, finalImage, instructions);
    }
    AppendTwice(before, [Inspect(tag)], r.calls);
  }

}
