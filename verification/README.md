# gluppy, modelled in Dafny

gluppy is a thin wrapper around gulp. A project calls `gluppy(paths, config)`
once. That call validates a small path configuration (`src`, `dest.dev`,
`dest.dist`) and registers two tasks. The `default` task compiles the
scripts: it lints with jshint, transpiles with babel, concatenates, minifies
and writes sourcemaps. The `watch` task reruns the build on changes and
reloads the browser. This project models the bespoke logic of `gluppy.js`
and proves properties of it. That logic has three parts:

- **The path validator** (`pathsAreValid`, `enforcePaths`): a shape check,
  then a left-to-right scan that rejects any absolute path. The source has a
  side effect here: when `src` is an array, the two destination paths are
  pushed onto the caller's own array. The model returns that updated object
  explicitly (`Validator.PathsAreValid`, `Validator.EnforcePaths`).
- **The flag-driven stage plan** of `compile`. The pipe chain is a list of
  tagged stages, and each stage carries its `gulp-if` condition
  (`Stages.Entry`, `Stages.Pipeline`). The stages that run are the ones
  switched on, kept in order (`Stages.Active`, `Stages.Plan`). The flags
  `--distribution`, `--distro`, `--dist`, `--sourcemaps` and `--solo` are
  booleans (`Flags`).
- **The watch task**: the subscriptions it makes (`Watch.WatchPlan`) and the
  deletion handler that evicts a path from the `cached` and `remember`
  stores (`Watch.ScriptsChanged`). These stores are maps keyed by path. A
  minimal model of one cache-and-remember pass (`Watch.Rebuild`) states why
  the eviction is needed.

Modules: `JsValues` (the JavaScript values a configuration is made of),
`Validator`, `ValidatorLemmas`, `Flags`, `Stages`, `PlanLemmas`, `Watch`,
`Setup`.

Modelling choices:
- `path.isAbsolute` uses the POSIX rule: a path is absolute when it starts
  with `/`.
- Node's `path.isAbsolute` raises a TypeError when it is given something
  other than a string. An array `src` may hold such values, so the scan can
  raise (`Raised(PathNotString)`). The scan raises only if it reaches that
  entry before any absolute path.
- `null` is not a `JsValue`. A null `paths` or `dest` passes `typeof ===
  'object'` and then crashes on the property access, so the model excludes
  that input.
- A few facts about the code that the model keeps exactly:
  - A distribution build is selected by `--distribution`, `--distro` or
    `--dist`, and by no other flag.
  - The two destinations are read from `dest.dev` and `dest.dist`.
  - An absolute path raises one fixed usage error, which does not name the
    offending path.
  - Validation has a side effect: an array `src` grows by the two
    destination paths.

## Model

| member | source | states |
|---|---|---|
| Validator.IsAbsolute | gluppy.js:220 | definition only: the POSIX reading of `path.isAbsolute`, a path that starts with `/` |
| Validator.WellShaped | gluppy.js:199-203 | definition only: the format check, with `src` a string or an array and `dest.dev` and `dest.dist` strings inside an object |
| Validator.Scan | gluppy.js:219-226 | returns true iff every candidate is a relative string. Returns false iff the first non-relative entry is an absolute string. Raises iff that first entry is not a string. |
| Validator.ScanLoop | gluppy.js:219-226 | the source's index loop, which returns at the first absolute path, agrees with `Scan` on every list |
| Validator.SrcEntries | gluppy.js:212 | an array `src` is read as its own entries, and a string `src` as the one-element list holding it |
| Validator.Candidates | gluppy.js:210-216 | the examined list is the `src` entries, then `dest.dev`, then `dest.dist` |
| Validator.AfterCheck | gluppy.js:212-216 | a configuration that fails the shape check, or whose `src` is a string, is left as it was (the array case is stated by `ValidatorLemmas.SrcGrowsByTwo`) |
| Validator.PathsAreValid | gluppy.js:197-227 | a shape failure returns false and leaves the object untouched. The result is true iff the shape passes and every candidate is a relative string. It is false iff the first offender is an absolute string. A raise happens only for a well-shaped object with a non-string candidate. The returned object is the caller's after the push. |
| Validator.EnforcePaths | gluppy.js:173-188 | completes normally iff `pathsAreValid` returns true. Raises the usage error iff it returns false. Propagates a raise from the scan. The caller's object is left exactly as `pathsAreValid` left it. |
| Validator.ValidatePaths | gluppy.js:197-227 | the same accept/reject verdict as `enforcePaths`, without mutation. On success it returns the user's `src` entries one for one, and every returned path is relative. |
| ValidatorLemmas.ScanOfStrings | gluppy.js:219-226 | on string candidates the scan never raises, and its verdict is "no entry is absolute", wherever that entry sits |
| ValidatorLemmas.ScanIgnoresOrder | gluppy.js:219-226 | any reordering of a string candidate list gives the same verdict |
| ValidatorLemmas.ScanIgnoresRepeats | gluppy.js:219-226 | appending entries the candidate list already holds never changes the verdict (used for a second check of an already-extended array) |
| ValidatorLemmas.StringSrcActsAsSingleton | gluppy.js:212 | `src: "a.js"` and `src: ["a.js"]` get the same verdict |
| ValidatorLemmas.VerdictOnStrings | gluppy.js:210-226 | for string candidates: one absolute path anywhere rejects, and all-relative accepts |
| ValidatorLemmas.SrcGrowsByTwo | gluppy.js:212-216 | a well-shaped array `src` grows by exactly `dest.dev` then `dest.dist`, whatever the verdict. No property is added, and every other property keeps its value. A string `src` leaves the object unchanged. |
| ValidatorLemmas.RecheckKeepsVerdictButGrowsAgain | gluppy.js:212-216 | checking the same object twice keeps the verdict, but the array is four entries longer |
| ValidatorLemmas.WorkedExamples | gluppy.js:197-227 | `{src: "a/b.js", dest: {dev: "build/d.js", dist: "build/p.js"}}` is accepted unchanged. `{src: "/abs/a.js", ...}` raises the usage error. |
| Flags.IsDist | gluppy.js:234-238 | definition only: any of `--distribution`, `--distro` and `--dist` selects a distribution build |
| Flags.IsDev | gluppy.js:245-247 | definition only: a development build is any build that is not a distribution build |
| Flags.UseSourcemaps | gluppy.js:254-256 | definition only: the `--sourcemaps` flag |
| Flags.IsRunningSolo | gluppy.js:280-282 | definition only: the `--solo` flag |
| Stages.Entry | gluppy.js:45-108 | the pipe at each position of the chain holds the stage of that rank, so each stage has exactly one place in the chain |
| Stages.Pipeline | gluppy.js:45-108 | the chain has fifteen stages, each the entry for its position, and stage ranks strictly increase along it. The jshint pipe and its two reporter pipes count as one stage, so the seventeen pipes make fifteen stages. |
| Stages.Active | gluppy.js:51-102 | the `gulp-if` filter: a stage runs iff its entry is switched on, and source order is preserved |
| Stages.Plan | gluppy.js:45-108 | the stages that run are at most the fifteen of the chain, in the chain's order, with no stage twice |
| Stages.BowerFiles | gluppy.js:263-272 | empty under `--solo`; otherwise the resolved bower files |
| Stages.CompileInputs | gluppy.js:42 | the `gulp.src` globs are the sources plus the bower files unless `--solo` is set. The bower files come first, exactly in their resolved order, and the sources come last; under `--solo` the sources are the whole input. The sources are the intended ones (the user's); `Setup.SourcesAsWritten` gives the sources gluppy.js actually passes. |
| PlanLemmas.InPlan | gluppy.js:45-108 | a stage runs iff the pipe at its source position holds it and is switched on |
| PlanLemmas.MinifyFollowsDist | gluppy.js:84-87 | minify runs iff `isDist` |
| PlanLemmas.ConcatFollowsDist | gluppy.js:74-82 | the dist concat runs iff `isDist`, the dev concat iff `isDev` |
| PlanLemmas.DestFollowsDist | gluppy.js:94-102 | the dist dest runs iff `isDist`, the dev dest iff `isDev` |
| PlanLemmas.SourcemapsPaired | gluppy.js:51-92 | sourcemap init and sourcemap write each run iff `isDev` or `--sourcemaps`, so they always come as a pair |
| PlanLemmas.WrappingStagesAlwaysRun | gluppy.js:44-72 | plumber, the source filter and its restore run on every build |
| PlanLemmas.TransformStagesAlwaysRun | gluppy.js:55-69 | caching and remembering under the store "scripts", linting and transpiling run on every build |
| PlanLemmas.NotifyNamesEnvironment | gluppy.js:104-108 | the completion notification runs on every build and says "Distribution" iff `isDist`, else "Development" |
| PlanLemmas.PlanOnlyFromPipeline | gluppy.js:51-108 | every concat or dest that runs is for the selected target and its output path. Minify runs only in dist, and sourcemap stages only in dev or with `--sourcemaps`. |
| PlanLemmas.ExactlyOneConcatAndDest | gluppy.js:75-102 | exactly one concat stage and exactly one dest stage run. Both are for the selected target. |
| PlanLemmas.SourcemapsBracketTheTransforms | gluppy.js:51-102 | sourcemap init precedes cache, lint, transpile and sourcemap write. Sourcemap write follows concat and minify and precedes the dest stage. |
| PlanLemmas.PlanDependsOnDistAndSourcemaps | gluppy.js:234-256 | the three dist spellings are interchangeable, and `--solo` does not change the stages |
| PlanLemmas.SourcemapsAloneStaysDev | gluppy.js:245-256 | `--sourcemaps` alone keeps concat and dest at dev, does not minify, and initialises and writes sourcemaps |
| Watch.ScriptsChanged | gluppy.js:122-127 | a `deleted` event removes exactly that path from both stores, and every other key keeps its value. Any other event leaves both stores unchanged. |
| Watch.WatchPlan | gluppy.js:116-138 | browserSync starts first. The sources and both outputs are always watched. A bower watch is registered iff `--solo` is not set, and it watches the bower file list, so there are four subscriptions, or three under `--solo`. The watched sources are the intended ones; `Setup.SourcesAsWritten` gives those gluppy.js actually watches. |
| Watch.WatchRebuildsOnCompileInputs | gluppy.js:116-134 | the globs of the two rebuilding subscriptions, sources and bower files, are exactly the globs `compile` reads at line 42, so `--solo` drops the bower files from both |
| Watch.ChangedFiles | gluppy.js:56 | the files gulp-cached lets through are exactly those that are new or whose contents differ from the cached contents, passed on unchanged |
| Watch.Rebuild | gluppy.js:55-69 | a pass caches the current contents of every file and keeps other cached entries. The remember store gains exactly the changed files, each compiled from its new contents, and every other remembered file, including one the cache blocked, keeps its copy. Nothing else is added. It emits everything remembered. |
| Watch.RebuildEmitsCurrentFiles | gluppy.js:56-69 | from coherent stores, a cache-and-remember pass emits exactly the current files, each compiled from its current contents, plus whatever the remember store already held. It keeps the stores coherent. |
| Watch.ScriptsChangedKeepsCoherent | gluppy.js:122-127 | evicting from both stores keeps every cached path backed by a remembered file |
| Watch.DeletedFileNotReemitted | gluppy.js:122-127 | after a deletion is handled, the next pass never emits the deleted file |
| Watch.StaleFileWithoutEviction | gluppy.js:122-127 | without the eviction, the remembered copy of a deleted file comes back |
| Watch.DeletionThenRebuildIsExact | gluppy.js:122-127 | after a deletion, a pass emits exactly the remaining files, freshly compiled |
| Setup.MergedPlumber | gluppy.js:19 | after the merge, `options.plumber` is the user's `config.plumber` when that is not undefined, and the default empty object otherwise |
| Setup.Gluppy | gluppy.js:14-30 | setup succeeds iff the paths are valid and `config.plumber` is undefined or an object. Invalid paths fail with the error `enforcePaths` raises. With valid paths, the only failure is the strict-mode raise when `errorHandler` is assigned to a primitive `plumber` (line 22). On success it registers `default`, then `watch` depending on `default`. It records the intended sources, the user's own; `Setup.SourcesAsWritten` gives the sources as written. |
| Setup.PlumberOptionDecidesSetup | gluppy.js:19-22 | with valid paths, no `config` and an object `plumber` both set up the tasks, and `plumber: "x"` makes setup raise |
| Setup.SourcesAsWritten | gluppy.js:16-25 | as written, `options.paths.src` is an array `src` followed by `dest.dev` and `dest.dist`; a string `src` is unchanged |
| Setup.AsWrittenOutputsBecomeSources | gluppy.js:212-216 | as written, an accepted array `src` puts both output files among the compile and watch sources |
| Setup.SpellingChangesSourcesAsWritten | gluppy.js:212-216 | `"a.js"` and `["a.js"]` are both accepted, but only the array spelling turns the outputs into sources |
| Setup.AsWrittenAddsOnlyOutputs | gluppy.js:212-216 | the as-written sources are the user's entries, plus the two outputs for an array `src` only |
| Setup.GluppyKeepsUserSources | gluppy.js:14-30 | the intended setup keeps the user's sources one for one. An output path is a source only if the user listed it. |
| Setup.GluppyIgnoresSrcSpelling | gluppy.js:212 | in the intended setup, a string `src` and the one-element array holding it register the same build |

## Left out

- Plugin bodies are opaque stage tags: plumber, filter, sourcemaps, jshint and its reporters, babel, concat, uglify, notify and `gulp.dest`. The gulp stream machinery is left out, and so is the plumber error hook `handleGulpErrors` (notification templating and `emit('end')`).
- Watch.Rebuild: models gulp-cached and gulp-remember only as far as the eviction property needs: content comparison by path, and remember emitting everything it holds. It does not model a run that a lint failure ends between the two stages.
- `path.basename` and `path.dirname` are not computed. A concat or dest stage carries the destination path it is named after.
- browserSync, the `gulp.watch` subscriptions as running processes, and task scheduling are left out. Only the branch conditions and the registered subscriptions are modelled.
- Stages.BowerFiles: bower-files resolution and the rewriting to cwd-relative paths are left out because they need the filesystem. The resolved list is a parameter.
- yargs parsing is left out: flags are booleans, and an absent flag is false.
- The deep merge of `config` over `libs/defaults.js` (`plugins.extend`) is modelled only for `plumber`. gluppy.js writes to that option itself, at line 22. The other merged options (`jshint`, `uglify`, `browserSync`, `bower`) are handed to plugins unread, so they are left out.
- Setup.Gluppy: a `config.plumber` of `null` also makes line 22 raise. The model cannot state this because `null` is not a `JsValue`. Every other primitive `plumber` is modelled.
- `libs/plugins.js` is a module loader with no logic.
- Validator.IsAbsolute: follows the POSIX rule only. Windows drive letters and UNC paths are not modelled.
- The text of the usage error is not reproduced; the error is a tag (`UsageError`).
- JavaScript numbers are modelled as integers. No validation step depends on their value.

## Findings

| source | as written | input that shows it | evidently intended | confidence | as-written member | corrected member |
|---|---|---|---|---|---|---|
| gluppy.js:212-216 | For an array `src`, `relativePaths` is that array, and `dest.dev` and `dest.dist` are pushed onto it. The same array then becomes `options.paths.src` (gluppy.js:25). So `compile` reads, filters, lints and concatenates its own output files, and `watch` rebuilds when they are written. | `{src: ["a.js"], dest: {dev: "build/app.js", dist: "dist/app.js"}}`: the sources become `["a.js", "build/app.js", "dist/app.js"]`. With `src: "a.js"` they stay `["a.js"]`. | Validation reads `src` without extending it, so the sources are exactly the user's. | medium, not executed | Setup.SpellingChangesSourcesAsWritten | Setup.GluppyKeepsUserSources |
