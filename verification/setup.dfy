/**
  The exported `gluppy(paths, config)` entry point: validate the paths, then
  register the `default` (compile) and `watch` tasks.

  Two readings of the setup are kept side by side. `SourcesAsWritten` is what
  `compile` and `watch` actually read as `options.paths.src` in gluppy.js:
  the array that `pathsAreValid` extended with the two output paths.
  `Gluppy` is the evidently intended setup, built on `ValidatePaths`, whose
  sources are exactly the user's.
 */
module Setup {
  import opened JsValues
  import opened Validator
  import opened Flags
  import opened Stages

  /** A registered gulp task and the tasks it runs first. */
  datatype Task = Task(name: string, deps: seq<string>)

  datatype Registration = Registration(paths: PathConfig, tasks: seq<Task>)

  /** `default` compiles; `watch` runs `default` first, then watches. */
  const Tasks := [Task("default", []), Task("watch", ["default"])]

  /**
    `options.plumber` after the deep merge of `config` over the defaults: a
    `config.plumber` that is not undefined replaces the default `{}` (objects
    and arrays are copied, anything else is taken as it is). A `config` that is
    falsy or not an object contributes no `plumber`.
   */
  function MergedPlumber(config: JsValue): (r: JsValue)
    ensures Get(config, "plumber") == JsUndefined ==> r == JsObject(map[])
    ensures Get(config, "plumber") != JsUndefined ==> r == Get(config, "plumber")
  {
    var given := Get(config, "plumber");
    if given == JsUndefined then JsObject(map[]) else given
  }

  /**
    Setup: check the paths, merge the options, install the plumber error
    handler, register the tasks. A rejected configuration raises before any
    task is registered, and so does a `plumber` option the handler cannot be
    assigned to (the module is in strict mode, so assigning a property to a
    primitive raises).
   */
  function Gluppy(paths: JsValue, config: JsValue): (r: Result<Registration>)
    ensures r.Ok? <==>
              && PathsAreValid(paths).outcome == Returned(true)
              && (Get(config, "plumber") == JsUndefined || IsObjectType(Get(config, "plumber")))
    ensures PathsAreValid(paths).outcome != Returned(true) ==>
              r.Err? && EnforcePaths(paths).completion == Threw(r.error)
    ensures PathsAreValid(paths).outcome == Returned(true) && r.Err? ==> r.error == PlumberNotObject
    ensures r.Ok? ==> r.value.tasks == Tasks && r.value.tasks[1].deps == [r.value.tasks[0].name]
    ensures r.Ok? ==> Ok(r.value.paths) == ValidatePaths(paths)
  {
    match ValidatePaths(paths)
    case Err(e) => Err(e)
    case Ok(validated) =>
      if IsObjectType(MergedPlumber(config)) then Ok(Registration(validated, Tasks))
      else Err(PlumberNotObject)
  }

  /**
    With valid paths, no `config` and an object `plumber` both register the
    tasks, while a string `plumber` makes setup raise.
   */
  lemma PlumberOptionDecidesSetup()
    ensures
      var dest := JsObject(map["dev" := JsString("build/app.js"), "dist" := JsString("dist/app.js")]);
      var paths := JsObject(map["src" := JsString("a.js"), "dest" := dest]);
      && Gluppy(paths, JsUndefined).Ok?
      && Gluppy(paths, JsObject(map["plumber" := JsObject(map[])])).Ok?
      && Gluppy(paths, JsObject(map["plumber" := JsString("x")])) == Err(PlumberNotObject)
  {
    var dest := JsObject(map["dev" := JsString("build/app.js"), "dist" := JsString("dist/app.js")]);
    var paths := JsObject(map["src" := JsString("a.js"), "dest" := dest]);
    assert AllRelative(Candidates(paths));
  }

  /**
    `options.paths.src` after setup as gluppy.js writes it, read as a list of
    globs: an array `src` comes back with `dest.dev` and `dest.dist` appended.
   */
  function SourcesAsWritten(paths: JsValue): (r: seq<JsValue>)
    requires EnforcePaths(paths).completion == Normal
    ensures Get(paths, "src").JsArray? ==> r == Get(paths, "src").elems + [DevPath(paths), DistPath(paths)]
    ensures Get(paths, "src").JsString? ==> r == [Get(paths, "src")]
  {
    var after := EnforcePaths(paths).paths;
    assert Get(after, "dest") == Get(paths, "dest");
    SrcEntries(after)
  }

  /**
    As written, an accepted array `src` makes both output files part of the
    sources that `compile` reads, filters and lints and that `watch` watches.
   */
  lemma AsWrittenOutputsBecomeSources(paths: JsValue)
    requires EnforcePaths(paths).completion == Normal && Get(paths, "src").JsArray?
    ensures DevPath(paths) in SourcesAsWritten(paths) && DistPath(paths) in SourcesAsWritten(paths)
  {
    var r := SourcesAsWritten(paths);
    assert r[|r| - 2] == DevPath(paths);
  }

  /**
    The same configuration spelled with `"a.js"` and with `["a.js"]`: both are
    accepted, but only the array spelling feeds the outputs back in as sources.
   */
  lemma SpellingChangesSourcesAsWritten()
    ensures
      var dest := JsObject(map["dev" := JsString("build/app.js"), "dist" := JsString("dist/app.js")]);
      var one := JsObject(map["src" := JsString("a.js"), "dest" := dest]);
      var list := JsObject(map["src" := JsArray([JsString("a.js")]), "dest" := dest]);
      && EnforcePaths(one).completion == Normal
      && EnforcePaths(list).completion == Normal
      && SourcesAsWritten(one) == [JsString("a.js")]
      && SourcesAsWritten(list) == [JsString("a.js"), JsString("build/app.js"), JsString("dist/app.js")]
  {
    var dest := JsObject(map["dev" := JsString("build/app.js"), "dist" := JsString("dist/app.js")]);
    var one := JsObject(map["src" := JsString("a.js"), "dest" := dest]);
    var list := JsObject(map["src" := JsArray([JsString("a.js")]), "dest" := dest]);
    assert AllRelative(Candidates(one));
    assert AllRelative(Candidates(list));
  }

  /**
    The intended setup keeps the user's sources: an output path is among them
    only if the user listed it.
   */
  lemma GluppyKeepsUserSources(paths: JsValue, options: JsValue)
    requires Gluppy(paths, options).Ok?
    ensures var config := Gluppy(paths, options).value.paths;
      && |config.src| == |SrcEntries(paths)|
      && (forall i :: 0 <= i < |config.src| ==> SrcEntries(paths)[i] == JsString(config.src[i]))
      && (config.dev in config.src <==> DevPath(paths) in SrcEntries(paths))
      && (config.dist in config.src <==> DistPath(paths) in SrcEntries(paths))
  {
    var config := Gluppy(paths, options).value.paths;
    var entries := SrcEntries(paths);
    if config.dev in config.src {
      var i :| 0 <= i < |config.src| && config.src[i] == config.dev;
      assert entries[i] == DevPath(paths);
    }
    if DevPath(paths) in entries {
      var i :| 0 <= i < |entries| && entries[i] == DevPath(paths);
      assert config.src[i] == config.dev;
    }
    if config.dist in config.src {
      var i :| 0 <= i < |config.src| && config.src[i] == config.dist;
      assert entries[i] == DistPath(paths);
    }
    if DistPath(paths) in entries {
      var i :| 0 <= i < |entries| && entries[i] == DistPath(paths);
      assert config.src[i] == config.dist;
    }
  }

  /**
    The as-written sources are the intended ones plus, for an array `src`
    only, the two output paths.
   */
  lemma AsWrittenAddsOnlyOutputs(paths: JsValue, options: JsValue)
    requires Gluppy(paths, options).Ok?
    ensures EnforcePaths(paths).completion == Normal
    ensures var config := Gluppy(paths, options).value.paths;
      var extra := if Get(paths, "src").JsArray? then [JsString(config.dev), JsString(config.dist)] else [];
      SourcesAsWritten(paths) == SrcEntries(paths) + extra
  {
  }

  /**
    In the intended setup a single-string `src` and the one-element array
    holding it register the same build.
   */
  lemma GluppyIgnoresSrcSpelling(paths: JsValue, s: string, options: JsValue)
    requires WellShaped(paths) && Get(paths, "src") == JsString(s)
    ensures Gluppy(paths, options) == Gluppy(Set(paths, "src", JsArray([JsString(s)])), options)
  {
    var q := Set(paths, "src", JsArray([JsString(s)]));
    assert Get(q, "dest") == Get(paths, "dest");
    assert Candidates(q) == Candidates(paths);
    assert SrcEntries(q) == SrcEntries(paths);
  }
}
