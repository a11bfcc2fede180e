# dockyard, modelled in Dafny

dockyard builds a Docker image from a working directory and publishes it.
Its core is `buildImage` (`src/index.js`), a promise chain with these steps:

1. Derive the final image name from the registry, the repository and the
   sanitized name, with an optional prefix and postfix.
2. Optionally gate the run on an LTS Node version.
3. Optionally pull a cache image, then build.
4. Optionally flatten the built image. This exports a container and
   re-imports it with the configuration recovered from `docker inspect`,
   over a temporary archive or a pipe depending on free memory.
5. Resolve the build information (tags, branch, CI facts) and record it.
6. Tag, push and write `.image.json`. Each of these steps can be skipped
   for pull requests, for an empty tag set, or for `noPush`.
7. Any fatal failure ends the process with exit code 100.

The model is split into these modules:

- `JsStrings`: strings as UTF-16 code units, with `split`/`join` and their round trip.
- `Sanitize`: `sanitizeTag`.
- `Json`: `JSON.stringify` of a string array (ECMAScript 2019 quoting), and a parser that reads it back.
- `Translate`: `getChangesForImport`, the inspected configuration turned into Dockerfile instructions.
- `Engine`: the collaborators. The Docker engine, the build-information resolver and the filesystem are one `Host` object. `Host` keeps the trace of calls made and a fixed `World` that says which calls fail and what they answer.
- `Flatten`: `flattenImage`, `flattenByDisk`, `flattenByPipe`.
- `Pipeline`: `buildImage`, `writeBuildInfo`, `tagImage`, `pushImage`, `writeImageFile`.

Each step that talks to the collaborators works the same way:

- A specification function gives the calls the step makes and its value.
- A module-level method, which takes the `Host` object as a parameter, is proved to append exactly those calls to its trace and to return that value.
- The properties of the step are proved as lemmas about the specification function.

## Model

| member | source | states |
|---|---|---|
| Sanitize.SanitizeTag | src/index.js:379-388 | The result has `min(len, 128)` units. Each unit is the input's unit where that is allowed, and `_` otherwise. The result is always a legal Docker tag. |
| Sanitize.SlashReplacementNeverFires | src/index.js:384-386 | The `'/'` replacement can change nothing, because the character-class replacement has already removed every `/`. |
| Sanitize.SanitizeTagIdempotent | src/index.js:379-388 | Sanitizing a sanitized tag gives it back unchanged. |
| Sanitize.SanitizeTagKeepsLegalTags | src/index.js:379-388 | A tag that is already legal is returned unchanged. |
| Sanitize.SanitizeTagOneIllegal | src/index.js:384 | In an otherwise legal tag, only the one illegal unit becomes `_`. |
| Sanitize.SanitizeTagSlashExample | src/index.js:384-386 | `feature/foo` becomes `feature_foo`. |
| Sanitize.SanitizeTagLeadingExamples | src/index.js:385 | `.bad` and `-bad` both become `_bad`. |
| Sanitize.SanitizeTagTruncates | src/index.js:387 | A 200-unit tag made of ASCII letters (either case) and digits keeps its first 128 units. |
| JsStrings.SplitThenJoin | src/index.js:238 | Joining the pieces of `split(sep)` with `sep` gives back the original string. |
| JsStrings.JoinThenSplit | src/index.js:38-42 | Splitting a join of separator-free pieces gives back the pieces. |
| Json.UnicodeEscapeRoundTrip | src/index.js:255 | A `\uXXXX` escape written by `JSON.stringify` reads back as the same code unit. |
| Json.StringifyArrayRoundTrip | src/index.js:255-258 | Parsing the JSON text of a string array gives back the array, including quotes, backslashes, control units and lone surrogates. |
| Json.StringifyArrayInjective | src/index.js:255-258 | Different arrays give different JSON text. |
| Translate.EnvEntry | src/index.js:238-246 | An environment entry translates exactly when it contains `=`; otherwise reading the absent value throws. |
| Translate.GetChangesForImport | src/index.js:220-263 | The method's result is the translation of the inspected configuration. |
| Translate.PushEnvInstructions | src/index.js:236-248 | The loop appends one ENV line per entry. It stops with the error of the first entry that has no `=`. |
| Translate.PushExposeInstructions | src/index.js:249-253 | The loop appends one EXPOSE line per port, in order. |
| Translate.MapUntilErrorMeaning | src/index.js:237-247 | Mapping that stops at the first error succeeds exactly when every element succeeds. Otherwise it fails with the error of the first failing element. On success the results match the elements one for one. |
| Translate.EnvLinesMeaning | src/index.js:236-248 | The ENV lines exist exactly when every entry has `=`; otherwise the error names the first entry without one. On success there is one line per entry, built from the key and the value on either side of the first `=`. |
| Translate.TranslationFailsOnlyOnEnv | src/index.js:220-263 | Translation fails only on an environment entry without `=`, and then it names the first such entry. On success it carries the image size. |
| Translate.ExposeInstructionsMeaning | src/index.js:249-253 | Line k is `EXPOSE` followed by port k. |
| Translate.EnvInstructionSplit | src/index.js:238 | The key and the value are the text before the first `=` and between it and the next one. Neither contains `=`. The line is `ENV key=` followed by the quoted value. |
| Translate.EnvEscapeRoundTrip | src/index.js:240-243 | Undoing the `"`/`!` escaping gives back the value with its newlines turned into spaces. |
| Translate.EnvValueQuoting | src/index.js:239-245 | A value without a space is written as it is. A value with a space is written in double quotes, and its escaped body reads back as the value with newlines turned into spaces. |
| Translate.TrailingBackslashMeetsClosingQuote | src/index.js:240-245 | A value with a space that ends in a backslash is quoted so that the backslash stands right before the closing quote. |
| Translate.ArrayInstructionRoundTrip | src/index.js:254-259 | A non-empty CMD or ENTRYPOINT array gives one line: the keyword, a space, and JSON that parses back to the array. |
| Translate.InstructionsWithKeyword | src/index.js:223-259 | For each keyword (USER, WORKDIR, ENV, EXPOSE, CMD, ENTRYPOINT), the lines carrying it are exactly the lines of its own group. |
| Translate.InstructionsInKeywordOrder | src/index.js:223-259 | The instructions are in the fixed keyword order: USER, WORKDIR, ENV, EXPOSE, CMD, ENTRYPOINT. |
| Engine.RunPlanMeaning | src/index.js:159-189 | A chain of calls, each started after the previous one succeeds, makes a prefix of the planned calls. It makes all of them exactly when none fails. Otherwise it ends at the first call that fails. |
| Flatten.ByDiskThreshold | src/index.js:200-202 | The disk route is chosen exactly when the image size exceeds a tenth of free memory. |
| Flatten.ExportRouteFollowsSize | src/index.js:159-206 | The container is exported to the archive on disk exactly when the size test picks the disk route and the inspection, the translation and the creation succeed. It is exported through a pipe exactly when the test picks the pipe under the same conditions. |
| Flatten.CleanupOnlyAfterImport | src/index.js:159-189 | The archive is unlinked and the container removed only after a successful import. |
| Flatten.ImportCarriesInstructions | src/index.js:159-206 | Every import targets the final image and carries the instructions recovered from the inspected configuration. |
| Flatten.FlattenRunCalls | src/index.js:191-206 | Flattening first inspects `<initial>:latest`. It calls only inspect, create, export, import, unlink and remove. |
| Flatten.FlattenHalts | src/index.js:159-206 | A failing call during flattening is the last call made, and flattening rejects. |
| Flatten.FlattenSucceeds | src/index.js:191-206 | Flattening resolves exactly when all of these hold: the inspection succeeds, every environment entry has `=`, and no call of the chosen route fails. |
| Flatten.FlattenByDisk | src/index.js:159-175 | The calls made are: create, export to the temporary archive, import with the changes, unlink the archive only if it exists, remove the container. Each call is made only after the one before it succeeds. |
| Flatten.ImportArchive | src/index.js:166-172 | The import from the archive and its cleanup, each call made only after the one before it succeeds. |
| Flatten.FlattenByPipe | src/index.js:177-189 | The calls made are: create, export to a pipe, import from the pipe with the changes, remove the container. Each call is made only after the one before it succeeds. |
| Flatten.FlattenImage | src/index.js:191-206 | The calls and the result are those of `FlattenRun`. |
| Pipeline.BuildTargetIsTemporary | src/index.js:36-47 | The final name always contains `/`. The build targets `temp` exactly when flattening. |
| Pipeline.FinalNameSplits | src/index.js:36-42 | When none of the registry, repo, prefix and postfix contains `/`, splitting the final name at `/` gives back `[registry,] repo, image`. |
| Pipeline.SanitizedTagsAreFilterThenMap | src/index.js:322-329 | The tag reduction drops empty tags and sanitizes the rest, in order. |
| Pipeline.SanitizedTagsAreDockerTags | src/index.js:322-329 | Every reduced tag is a non-empty, legal Docker tag. |
| Pipeline.SanitizedTagsEmpty | src/index.js:322-336 | The reduced tag set is empty exactly when every resolved tag is empty. |
| Pipeline.SanitizedTagsIdempotent | src/index.js:322-329 | Reducing reduced tags changes nothing. |
| Pipeline.SanitizedTagsKeepLegalTags | src/index.js:322-329 | Non-empty legal tags pass the reduction unchanged. |
| Pipeline.ReduceTagsConcat | src/index.js:323-328 | For any per-tag cleaning, reducing two lists one after the other gives the concatenation of their reductions. |
| Pipeline.CollectTags | src/index.js:323-328 | The accumulating loop computes the tag reduction. |
| Pipeline.WriteBuildInfoMeaning | src/index.js:317-352 | Without tag specs there are no calls, and the step gives `{continue:false}` or throws when `ci` is absent. With tag specs the resolver is asked first. The step throws exactly when one of these holds: the resolver fails, nothing continues and `ci` is absent, or the recording fails. When it succeeds, it has recorded the resolved info with the reduced tags and the resolver's own branch and `ci`. That info continues exactly when some resolved tag is non-empty. |
| Pipeline.TagSkipSkipsTheRest | src/index.js:303-306 | When tagging skips, the push and the image file are skipped too, and the chain resolves with `{continue:false}`. |
| Pipeline.NoPushStillTagsAndWrites | src/index.js:286-289 | With `noPush` the image is tagged first, and after a successful tag the image file is written with the info's tags. The chain resolves with the info naming the final image. |
| Pipeline.PublishesInOrder | src/index.js:128-139 | When nothing skips and nothing fails, the calls are tag, push and write `.image.json`, in that order. The chain resolves with the info carrying the final image name. |
| Pipeline.ExecuteCalls | src/index.js:86-139 | Every call is one of: the cache pull, the build, a flattening call (only when flattening), or a call from `writeBuildInfo` on. A resolved run resolves as that last part does. |
| Pipeline.PublishSkipsPullRequests | src/index.js:303-306 | For a pull request with `skipPRs`, the chain from `writeBuildInfo` on makes no tag, push or write call, and resolves, if at all, with `{continue:false}`. |
| Pipeline.PublishWithoutTagSpecs | src/index.js:347-351 | Without tag specs, the chain from `writeBuildInfo` on makes no call. It resolves with `{continue:false}`, or exits with 100 when `ci` is absent. |
| Pipeline.PublishNeverPushes | src/index.js:286-289 | With `noPush`, the chain from `writeBuildInfo` on never pushes. |
| Pipeline.PullRequestsNotPublished | src/index.js:303-306 | With `skipPRs`, a pull request is never tagged, pushed or written to the image file. The run resolves, if at all, with `{continue:false}`. |
| Pipeline.NoPushNeverPushes | src/index.js:286-289 | With `noPush` nothing is ever pushed. |
| Pipeline.NoTagSpecsNoPublishing | src/index.js:317-351 | Without tag specs the resolver is never asked, nothing is recorded and nothing is published. A resolved run gives `{continue:false}`, and it can resolve only when `ci` is present. |
| Pipeline.FlattenOnlyWhenAsked | src/index.js:45-116 | Without `flatten` no flattening call is made. With it, after a successful build of `temp`, the next call is the inspection of `temp:latest`. |
| Pipeline.ExecuteStops | src/index.js:86-139 | The run stops at its first fatal failure. A failing call that is not a cache pull is the last call made, and the outcome is exit 100. |
| Pipeline.ExitsOnFirstFailure | src/index.js:102-139 | A run stops at its first fatal failure with exit code 100. A run that resolves met no failure other than a cache pull. `Pipeline.NoFailureSucceeds` states the converse. |
| Pipeline.NoFailureSucceeds | src/index.js:56-139 | The converse of `ExitsOnFirstFailure`. Suppose no call fails except possibly the cache pull, a flattened image's ENV entries all contain `=`, and `ci` is present. Then the run resolves with the build information exactly when the LTS gate does not skip it, and it never exits. |
| Pipeline.CacheMissStillSucceeds | src/index.js:71-94 | For a run the LTS gate does not skip, with a cache image whose pull is the only failing call, a flattened image's ENV entries all containing `=`, and `ci` present: the image is pulled first, the build is made without the cache argument, and the run resolves. |
| Pipeline.PublishesMain | src/index.js:86-139 | Take tags `["main"]`, which the resolver hands back. The branch is not a pull request, and pushing is allowed. There is no flattening, no cache image and no LTS gate, and nothing fails. Then the calls are: build, resolver, record the info, tag, push, write `.image.json` with the final name and `["main"]`. The run resolves with the info naming the final image. |
| Pipeline.PublishesOneTag | src/index.js:86-139 | The same walk, under the same conditions, for any one legal, non-empty tag that the resolver hands back unchanged. |
| Pipeline.SkippedOnlyOffLts | src/index.js:56-59 | The run is skipped exactly when `ltsOnly` is set and the Node version is not LTS, and then it makes no call. |
| Pipeline.PullThenBuild | src/index.js:50-94 | For a run the LTS gate does not skip: without a cache image, the first call is the build. With one, the image is pulled first. The build then receives the cache image only if the pull succeeded. |
| Pipeline.WriteBuildInfo | src/index.js:317-352 | The calls and the result are those of `WriteBuildInfoRun`. |
| Pipeline.TagImage | src/index.js:303-315 | The calls and the result are those of `TagImageRun`. |
| Pipeline.PushImage | src/index.js:286-301 | The calls and the result are those of `PushImageRun`. |
| Pipeline.WriteImageFile | src/index.js:354-377 | The calls and the result are those of `WriteImageFileRun`. |
| Pipeline.BuildImage | src/index.js:9-140 | The calls and the outcome are those of `BuildImageRun`. |
| Pipeline.Executing | src/index.js:56-139 | The calls and the outcome of the whole chain after the constants are those of `Execute`. |
| Pipeline.Starting | src/index.js:56-101 | Covers the gate, the cache pull and the build. Its calls, and the outcome when it stops, are those of `Start`. |
| Pipeline.PullCache | src/index.js:71-85 | A failed cache pull is absorbed, and the cache argument is dropped. |
| Pipeline.Finishing | src/index.js:103-139 | The calls and the outcome of the chain after the build are those of `AfterBuild`. |
| Pipeline.Publishing | src/index.js:117-139 | The calls and the outcome of the chain from `writeBuildInfo` on are those of `Publish`. |
| Pipeline.Pushing | src/index.js:132-139 | The calls and the outcome of push then write, each ending the process with 100 on a failure, are those of `FromPush`. |
| Pipeline.Tagging | src/index.js:128-139 | The calls and the outcome of the chain from `tagImage` on are those of `FromTag`. |

## Left out

- Logging: `log`, `dockerLog` and every message text. They change no state that the model follows.
- The progress timer (`setInterval`, `clearInterval`, the dots on stdout). It is I/O.
- `os.freemem()`, `os.tmpdir()`, the uuid-derived container name, and whether the archive exists at cleanup: these are fixed inputs in `World`.
- `settings.getDefaultDockerfile` and `settings.getDefaultTagSpecs`: these are input functions in `Settings`.
- The answers of `docker inspect` and of the resolver are inputs in `World`. Only the resolver fields the pipeline reads (tag, branch, ci) are modelled.
- Path normalisation and resolution. A `Path` is the directory and file name as given: the `./` at line 162 is dropped, the absolute path `path.resolve` returns at lines 162 and 341 is not computed, and `.` or `..` in `workingPath` or `output` is not folded by `path.join` (line 48).
- The contents of `.buildinfo.json`, written with `JSON.stringify(info, null, 2)`, are not modelled as text; the call carries the recorded info as a value. `.image.json` is modelled the same way, as the call carrying the image name and tags.
- Floating-point MB arithmetic in the size log line. It is only logging.
- A resolver `tag` that is present but not an array. Only an absent tag or an array of strings is modelled.
- `info` is a value, not a shared mutable object. The mutations at lines 333/335 and 360 are modelled as new values; aliasing between steps is not modelled.
- `getBuildInfo` with `unlink` set. `buildImage` always passes `false`.
- The `sudo`/`verbose` options of the Docker factory. They only configure the collaborator.
- `JSON.stringify` follows ECMAScript 2019, where lone surrogates are written as `\uXXXX` escapes. Node versions before 12 write them raw; that behaviour is not modelled.
- An absent `defaultInfo`. The model always has one, as every caller in `build.js` passes it. The code guards one log line against its absence (`info ? … : 'N/A'`) but reads `defaultInfo.isLTS` and `defaultInfo.ci` unguarded.
- The error objects and their messages. A failure is a failing call; an environment entry without `=` is a `TranslateError`.
- `module.exports` and the separately bound helpers (`onBuildFailed` and the other failure handlers). They only log and rethrow, which the model's failure propagation covers.

## Where the code differs from its evident intent

These are reproduced as the code has them:

- The branch name is not sanitized. Line 338 reads `newInfo,branch = …` (a comma, not a dot), so the resolver's branch passes through unchanged (`Pipeline.WriteBuildInfoMeaning`).
- The `'/'` replacement at line 386 never changes anything (`Sanitize.SlashReplacementNeverFires`).
- `workingPath` defaults to `settings.getDefaultDockerfile()` (line 12), not to a directory setting.
- With no tag specs and no `ci` in the default info, the log line at 349 throws. The run then exits with 100 instead of skipping. Line 332 does the same when the tag set is empty.
- An environment entry without `=` makes `v.indexOf` throw (line 239), so flattening fails and the run exits with 100.
- A backslash in an ENV value is not escaped (lines 240-245). A quoted value that ends in a backslash, such as `a \`, is written `"a \"`, so its closing quote reads as an escaped one (`Translate.TrailingBackslashMeetsClosingQuote`). `Translate.EnvEscapeRoundTrip` holds for the inverse that leaves a lone backslash alone, not for any value a Dockerfile reader would accept.
- Both routes clean up only after a successful import (lines 159-189). Unlink and remove are chained with `.then` after the import, so a failed export or import leaves the container behind, and on the disk route the archive too. Cleanup is evidently meant to run whether or not the export and the import succeeded (`Flatten.CleanupOnlyAfterImport`).
