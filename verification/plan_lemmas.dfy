/**
  What the gating of the `compile` pipeline guarantees for every combination of
  flags and output paths.
 */
module PlanLemmas {
  import opened Flags
  import opened Validator
  import opened Stages

  /** A stage runs exactly when the pipe at its own position holds it, switched on. */
  lemma InPlan(f: Flags, paths: PathConfig, s: Stage)
    ensures s in Plan(f, paths) <==> Entry(f, paths, Rank(s)) == Gated(true, s)
  {
    var gs := Pipeline(f, paths);
    if Gated(true, s) in gs {
      var k :| 0 <= k < |gs| && gs[k] == Gated(true, s);
      assert Rank(Entry(f, paths, k).stage) == k;
    }
    if Entry(f, paths, Rank(s)) == Gated(true, s) {
      assert gs[Rank(s)] == Gated(true, s);
    }
  }

  /** Minification runs exactly in a distribution build. */
  lemma MinifyFollowsDist(f: Flags, paths: PathConfig)
    ensures Minify in Plan(f, paths) <==> IsDist(f)
  {
    InPlan(f, paths, Minify);
  }

  /** The dist concat runs exactly in a distribution build, the dev concat exactly otherwise. */
  lemma ConcatFollowsDist(f: Flags, paths: PathConfig)
    ensures Concat(Dist, paths.dist) in Plan(f, paths) <==> IsDist(f)
    ensures Concat(Dev, paths.dev) in Plan(f, paths) <==> IsDev(f)
  {
    InPlan(f, paths, Concat(Dist, paths.dist));
    InPlan(f, paths, Concat(Dev, paths.dev));
  }

  /** The dist dest runs exactly in a distribution build, the dev dest exactly otherwise. */
  lemma DestFollowsDist(f: Flags, paths: PathConfig)
    ensures Dest(Dist, paths.dist) in Plan(f, paths) <==> IsDist(f)
    ensures Dest(Dev, paths.dev) in Plan(f, paths) <==> IsDev(f)
  {
    InPlan(f, paths, Dest(Dist, paths.dist));
    InPlan(f, paths, Dest(Dev, paths.dev));
  }

  /** Sourcemap initialisation and writing run together, in dev or with `--sourcemaps`. */
  lemma SourcemapsPaired(f: Flags, paths: PathConfig)
    ensures SourcemapsInit in Plan(f, paths) <==> IsDev(f) || UseSourcemaps(f)
    ensures SourcemapsWrite in Plan(f, paths) <==> IsDev(f) || UseSourcemaps(f)
  {
    InPlan(f, paths, SourcemapsInit);
    InPlan(f, paths, SourcemapsWrite);
  }

  /** The error wrapper and the source filter and its restore run on every build. */
  lemma WrappingStagesAlwaysRun(f: Flags, paths: PathConfig)
    ensures Plumber in Plan(f, paths) && FilterSources in Plan(f, paths) && Restore in Plan(f, paths)
  {
    InPlan(f, paths, Plumber);
    InPlan(f, paths, FilterSources);
    InPlan(f, paths, Restore);
  }

  /**
    Caching, linting, transpiling and remembering run on every build, and the
    cache and remember stages share one store name.
   */
  lemma TransformStagesAlwaysRun(f: Flags, paths: PathConfig)
    ensures Cache(StoreName) in Plan(f, paths) && Remember(StoreName) in Plan(f, paths)
    ensures Lint in Plan(f, paths) && Transpile in Plan(f, paths)
  {
    InPlan(f, paths, Cache(StoreName));
    InPlan(f, paths, Lint);
    InPlan(f, paths, Transpile);
    InPlan(f, paths, Remember(StoreName));
  }

  /** The completion notification always runs and names the environment. */
  lemma NotifyNamesEnvironment(f: Flags, paths: PathConfig)
    ensures Notify(NotifyTitle, "Environment: " + Environment(f)) in Plan(f, paths)
    ensures Environment(f) == "Distribution" <==> IsDist(f)
    ensures Environment(f) == "Development" <==> IsDev(f)
  {
    InPlan(f, paths, Notify(NotifyTitle, "Environment: " + Environment(f)));
  }

  /** Every stage that runs is one of the pipeline's, switched on by the flags. */
  lemma PlanOnlyFromPipeline(f: Flags, paths: PathConfig, s: Stage)
    requires s in Plan(f, paths)
    ensures s.Concat? ==> s == Concat(TargetOf(f), OutputOf(paths, TargetOf(f)))
    ensures s.Dest? ==> s == Dest(TargetOf(f), OutputOf(paths, TargetOf(f)))
    ensures s.Notify? ==> s.message == "Environment: " + Environment(f)
    ensures s == Minify ==> IsDist(f)
    ensures s == SourcemapsInit || s == SourcemapsWrite ==> IsDev(f) || UseSourcemaps(f)
  {
    InPlan(f, paths, s);
  }

  /**
    Exactly one concat stage and exactly one dest stage run, both for the
    target the flags select, both named after that target's output path.
   */
  lemma ExactlyOneConcatAndDest(f: Flags, paths: PathConfig)
    ensures var plan := Plan(f, paths);
      var t := TargetOf(f);
      && (exists i :: 0 <= i < |plan| && plan[i] == Concat(t, OutputOf(paths, t)))
      && (exists i :: 0 <= i < |plan| && plan[i] == Dest(t, OutputOf(paths, t)))
      && (forall i, j :: 0 <= i < |plan| && 0 <= j < |plan| && plan[i].Concat? && plan[j].Concat? ==> i == j)
      && (forall i, j :: 0 <= i < |plan| && 0 <= j < |plan| && plan[i].Dest? && plan[j].Dest? ==> i == j)
  {
    var plan := Plan(f, paths);
    var t := TargetOf(f);
    ConcatFollowsDist(f, paths);
    DestFollowsDist(f, paths);
    assert Concat(t, OutputOf(paths, t)) in plan;
    assert Dest(t, OutputOf(paths, t)) in plan;
    forall i, j | 0 <= i < |plan| && 0 <= j < |plan| && plan[i].Concat? && plan[j].Concat?
      ensures i == j
    {
      PlanOnlyFromPipeline(f, paths, plan[i]);
      PlanOnlyFromPipeline(f, paths, plan[j]);
    }
    forall i, j | 0 <= i < |plan| && 0 <= j < |plan| && plan[i].Dest? && plan[j].Dest?
      ensures i == j
    {
      PlanOnlyFromPipeline(f, paths, plan[i]);
      PlanOnlyFromPipeline(f, paths, plan[j]);
    }
  }

  /**
    When sourcemaps run, their initialisation comes before caching, linting and
    transpiling, and their writing after minification and before the output.
   */
  lemma SourcemapsBracketTheTransforms(f: Flags, paths: PathConfig)
    ensures var plan := Plan(f, paths);
      forall i, j ::
        (0 <= i < |plan| && 0 <= j < |plan| && plan[i] == SourcemapsInit
         && (plan[j].Cache? || plan[j] == Lint || plan[j] == Transpile || plan[j] == SourcemapsWrite)) ==> i < j
    ensures var plan := Plan(f, paths);
      forall i, j ::
        (0 <= i < |plan| && 0 <= j < |plan| && plan[j] == SourcemapsWrite
         && (plan[i] == Minify || plan[i].Concat?)) ==> i < j
    ensures var plan := Plan(f, paths);
      forall i, j :: 0 <= i < |plan| && 0 <= j < |plan| && plan[i] == SourcemapsWrite && plan[j].Dest? ==> i < j
  {
    RankOrdersPositions(Plan(f, paths));
  }

  /** In an ascending list, a stage of lower rank sits at a lower position. */
  lemma RankOrdersPositions(ss: seq<Stage>)
    requires Ascending(ss)
    ensures forall i, j :: 0 <= i < |ss| && 0 <= j < |ss| && Rank(ss[i]) < Rank(ss[j]) ==> i < j
  {
  }

  /**
    The plan depends on the flags only through `isDist` and `--sourcemaps`:
    `--distribution`, `--distro` and `--dist` are interchangeable, and `--solo`
    does not change the stages.
   */
  lemma PlanDependsOnDistAndSourcemaps(f: Flags, g: Flags, paths: PathConfig)
    requires IsDist(f) == IsDist(g) && UseSourcemaps(f) == UseSourcemaps(g)
    ensures Plan(f, paths) == Plan(g, paths)
  {
    assert Pipeline(f, paths) == Pipeline(g, paths);
  }

  /**
    `--sourcemaps` alone keeps a development build: concat and dest stay at
    dev, nothing is minified, and the sourcemaps are initialised and written.
   */
  lemma SourcemapsAloneStaysDev(paths: PathConfig)
    ensures var plan := Plan(NoFlags.(sourcemaps := true), paths);
      && Concat(Dev, paths.dev) in plan && Dest(Dev, paths.dev) in plan
      && Concat(Dist, paths.dist) !in plan && Dest(Dist, paths.dist) !in plan
      && Minify !in plan
      && SourcemapsInit in plan && SourcemapsWrite in plan
  {
    MinifyFollowsDist(NoFlags.(sourcemaps := true), paths);
    ConcatFollowsDist(NoFlags.(sourcemaps := true), paths);
    DestFollowsDist(NoFlags.(sourcemaps := true), paths);
    SourcemapsPaired(NoFlags.(sourcemaps := true), paths);
  }
}
