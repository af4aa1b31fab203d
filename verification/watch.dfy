/**
  The `watch` task of gluppy.js: what it subscribes to, and how a file event
  acts on the two incremental-build stores that `compile` keeps under the
  name "scripts".
 */
module Watch {
  import opened Flags
  import opened Validator
  import opened Stages

  type Path = string

  /** The event types the file watcher reports. */
  datatype EventKind = Added | Changed | Deleted | Renamed

  datatype FileEvent = FileEvent(kind: EventKind, path: Path)

  /**
    The two stores: gulp-cached's last-seen contents by path, and gulp-remember's
    last compiled file by path.
   */
  datatype Stores = Stores(cached: map<Path, string>, remembered: map<Path, string>)

  /** One subscription made by `watch`, in the order it makes them. */
  datatype WatchStep =
    | StartBrowserSync
    | WatchSources(globs: seq<Path>)   // rebuild on change; evict on deletion
    | WatchBower(globs: seq<Path>)     // rebuild on change
    | WatchOutputs(globs: seq<Path>)   // reload the browser on change

  /**
    The change handler on the sources: a deletion evicts the path from both
    stores; every other event leaves them alone.
   */
  function ScriptsChanged(st: Stores, e: FileEvent): (r: Stores)
    ensures e.kind == Deleted ==> e.path !in r.cached && e.path !in r.remembered
    ensures forall k :: k in st.cached && k != e.path ==> k in r.cached && r.cached[k] == st.cached[k]
    ensures forall k :: k in st.remembered && k != e.path ==> k in r.remembered && r.remembered[k] == st.remembered[k]
    ensures r.cached.Keys <= st.cached.Keys && r.remembered.Keys <= st.remembered.Keys
    ensures e.kind != Deleted ==> r == st
  {
    if e.kind == Deleted then
      Stores(st.cached - {e.path}, st.remembered - {e.path})
    else
      st
  }

  /** The subscriptions `watch` makes. */
  function WatchPlan(f: Flags, paths: PathConfig, resolved: seq<Path>): (steps: seq<WatchStep>)
    ensures |steps| == if IsRunningSolo(f) then 3 else 4
    ensures steps[0] == StartBrowserSync
    ensures WatchSources(paths.src) in steps
    ensures WatchOutputs([paths.dev, paths.dist]) in steps
    ensures (exists i :: 0 <= i < |steps| && steps[i].WatchBower?) <==> !IsRunningSolo(f)
    ensures forall i :: 0 <= i < |steps| && steps[i].WatchBower? ==> steps[i].globs == BowerFiles(f, resolved)
  {
    var steps := [StartBrowserSync, WatchSources(paths.src)]
      + (if IsRunningSolo(f) then [] else [WatchBower(BowerFiles(f, resolved))])
      + [WatchOutputs([paths.dev, paths.dist])];
    assert !IsRunningSolo(f) ==> steps[2].WatchBower?;
    steps
  }

  /**
    The two subscriptions that rebuild (sources and bower files) watch exactly
    the globs `compile` reads, so `--solo` drops the bower files from both.
   */
  lemma WatchRebuildsOnCompileInputs(f: Flags, paths: PathConfig, resolved: seq<Path>)
    ensures var steps := WatchPlan(f, paths, resolved);
      forall g :: g in CompileInputs(f, paths, resolved) <==>
        exists i :: 0 <= i < |steps| && (steps[i].WatchSources? || steps[i].WatchBower?) && g in steps[i].globs
  {
    var steps := WatchPlan(f, paths, resolved);
    forall g | g in CompileInputs(f, paths, resolved)
      ensures exists i :: 0 <= i < |steps| && (steps[i].WatchSources? || steps[i].WatchBower?) && g in steps[i].globs
    {
      if g in paths.src {
        assert steps[1] == WatchSources(paths.src);
      } else {
        assert steps[2] == WatchBower(BowerFiles(f, resolved));
      }
    }
  }

  // ----- one incremental run of the cache and remember stages -----

  /** The files gulp-cached lets through: those whose contents differ from the cached ones. */
  function ChangedFiles(cache: map<Path, string>, files: map<Path, string>): (r: map<Path, string>)
    ensures forall p :: p in r <==> p in files && (p !in cache || cache[p] != files[p])
    ensures forall p :: p in r ==> r[p] == files[p]
  {
    map p | p in files && (p !in cache || cache[p] != files[p]) :: files[p]
  }

  datatype Run = Run(emitted: map<Path, string>, stores: Stores)

  /**
    One pass of `files` through cache, transpile and remember: changed files are
    compiled and remembered, and remember emits everything it holds.
   */
  function Rebuild(st: Stores, files: map<Path, string>, transpile: string -> string): (run: Run)
    ensures run.emitted == run.stores.remembered
    ensures run.stores.cached.Keys == st.cached.Keys + files.Keys
    ensures forall p :: p in files ==> run.stores.cached[p] == files[p]
    ensures forall p :: p in st.cached && p !in files ==> p in run.stores.cached && run.stores.cached[p] == st.cached[p]
    ensures st.remembered.Keys <= run.stores.remembered.Keys <= st.remembered.Keys + files.Keys
    ensures forall p :: p in files && (p !in st.cached || st.cached[p] != files[p]) ==>
              p in run.stores.remembered && run.stores.remembered[p] == transpile(files[p])
    ensures forall p :: p in st.remembered && p !in files ==>
              p in run.stores.remembered && run.stores.remembered[p] == st.remembered[p]
    ensures run.stores.remembered.Keys == st.remembered.Keys + ChangedFiles(st.cached, files).Keys
    ensures forall p :: p in st.remembered && p !in ChangedFiles(st.cached, files) ==>
              run.stores.remembered[p] == st.remembered[p]
  {
    var passed := ChangedFiles(st.cached, files);
    var compiled := map p | p in passed :: transpile(passed[p]);
    var remembered := st.remembered + compiled;
    Run(remembered, Stores(st.cached + passed, remembered))
  }

  /** Every cached path has a remembered file, compiled from the cached contents. */
  predicate Coherent(st: Stores, transpile: string -> string) {
    forall p :: p in st.cached ==> p in st.remembered && st.remembered[p] == transpile(st.cached[p])
  }

  /**
    From coherent stores a run emits every current file, compiled from its
    current contents, plus whatever else the remember store still holds, and it
    leaves the stores coherent.
   */
  lemma RebuildEmitsCurrentFiles(st: Stores, files: map<Path, string>, transpile: string -> string)
    requires Coherent(st, transpile)
    ensures var run := Rebuild(st, files, transpile);
      && run.emitted.Keys == files.Keys + st.remembered.Keys
      && (forall p :: p in files ==> run.emitted[p] == transpile(files[p]))
      && Coherent(run.stores, transpile)
  {
    var run := Rebuild(st, files, transpile);
    forall p | p in files ensures run.emitted[p] == transpile(files[p]) {
      if p !in ChangedFiles(st.cached, files) {
        assert st.cached[p] == files[p];
      }
    }
  }

  /** Evicting a path from both stores keeps them coherent. */
  lemma ScriptsChangedKeepsCoherent(st: Stores, e: FileEvent, transpile: string -> string)
    requires Coherent(st, transpile)
    ensures Coherent(ScriptsChanged(st, e), transpile)
  {
  }

  /** After a deletion is handled, the next run never emits the deleted file. */
  lemma DeletedFileNotReemitted(st: Stores, p: Path, files: map<Path, string>, transpile: string -> string)
    requires p !in files
    ensures p !in Rebuild(ScriptsChanged(st, FileEvent(Deleted, p)), files, transpile).emitted
  {
  }

  /** Without the eviction, the remembered copy of a deleted file comes back. */
  lemma StaleFileWithoutEviction(st: Stores, p: Path, files: map<Path, string>, transpile: string -> string)
    requires p in st.remembered && p !in files
    ensures var run := Rebuild(st, files, transpile);
      p in run.emitted && run.emitted[p] == st.remembered[p]
  {
  }

  /**
    When the remember store held nothing but the old sources, a run after a
    deletion emits exactly the remaining files, each freshly compiled.
   */
  lemma DeletionThenRebuildIsExact(st: Stores, p: Path, files: map<Path, string>, transpile: string -> string)
    requires Coherent(st, transpile)
    requires p !in files && st.remembered.Keys <= files.Keys + {p}
    ensures Rebuild(ScriptsChanged(st, FileEvent(Deleted, p)), files, transpile).emitted
            == map q | q in files :: transpile(files[q])
  {
    var evicted := ScriptsChanged(st, FileEvent(Deleted, p));
    ScriptsChangedKeepsCoherent(st, FileEvent(Deleted, p), transpile);
    RebuildEmitsCurrentFiles(evicted, files, transpile);
    var emitted := Rebuild(evicted, files, transpile).emitted;
    assert evicted.remembered.Keys <= files.Keys;
    CompiledExactly(emitted, files, transpile);
  }

  /** A map with the keys of `files`, holding each file compiled, is the compiled `files`. */
  lemma CompiledExactly(m: map<Path, string>, files: map<Path, string>, transpile: string -> string)
    requires m.Keys == files.Keys
    requires forall q :: q in files ==> m[q] == transpile(files[q])
    ensures m == map q | q in files :: transpile(files[q])
  {
  }
}
