/**
  The `compile` pipeline of gluppy.js as a list of tagged stages, each carrying
  the condition under which `gulp-if` lets it run. Plugin bodies are opaque: a
  stage is only its tag and the output path it is parameterised by.
 */
module Stages {
  import opened Flags
  import opened Validator

  /** Which of the two destinations a concat or dest stage serves. */
  datatype Target = Dev | Dist

  datatype Stage =
    | Plumber                                  // error wrapper around the rest
    | FilterSources                            // keep own sources, set bower files aside
    | SourcemapsInit
    | Cache(store: string)                     // gulp-cached under a store name
    | Lint                                     // jshint and its two reporters
    | Transpile                                // babel, preset es2015
    | Remember(store: string)                  // gulp-remember under a store name
    | Restore                                  // bring the bower files back
    | Concat(target: Target, output: string)   // one file named after basename(output)
    | Minify
    | SourcemapsWrite
    | Dest(target: Target, output: string)     // written into dirname(output)
    | Notify(title: string, message: string)

  /** A stage together with its `gulp-if` condition, evaluated for one run. */
  datatype Gated = Gated(on: bool, stage: Stage)

  /** The store name shared by the cache and remember stages. */
  const StoreName := "scripts"

  const NotifyTitle := "Scripts Compiled"

  /** The position of each stage in the source's pipe chain. */
  function Rank(s: Stage): (k: nat)
    ensures k < StageCount
  {
    match s
    case Plumber => 0
    case FilterSources => 1
    case SourcemapsInit => 2
    case Cache(_) => 3
    case Lint => 4
    case Transpile => 5
    case Remember(_) => 6
    case Restore => 7
    case Concat(t, _) => if t == Dist then 8 else 9
    case Minify => 10
    case SourcemapsWrite => 11
    case Dest(t, _) => if t == Dist then 12 else 13
    case Notify(_, _) => 14
  }

  /** The environment named in the completion notification. */
  function Environment(f: Flags): string {
    if IsDist(f) then "Distribution" else "Development"
  }

  /** The output path a target is built from. */
  function OutputOf(paths: PathConfig, t: Target): string {
    if t == Dist then paths.dist else paths.dev
  }

  /** The target the flags select. */
  function TargetOf(f: Flags): Target {
    if IsDist(f) then Dist else Dev
  }

  /**
    The number of stages in the chain after `gulp.src`. The jshint pipe and its
    two reporter pipes count as one stage, so seventeen pipes make fifteen stages.
   */
  const StageCount := 15

  /**
    The `i`-th pipe of `compile` with its condition; the entry at position `i`
    holds the stage of rank `i`.
   */
  function Entry(f: Flags, paths: PathConfig, i: nat): (g: Gated)
    requires i < StageCount
    ensures Rank(g.stage) == i
  {
    var maps := IsDev(f) || UseSourcemaps(f);
    match i
    case 0 => Gated(true, Plumber)
    case 1 => Gated(true, FilterSources)
    case 2 => Gated(maps, SourcemapsInit)
    case 3 => Gated(true, Cache(StoreName))
    case 4 => Gated(true, Lint)
    case 5 => Gated(true, Transpile)
    case 6 => Gated(true, Remember(StoreName))
    case 7 => Gated(true, Restore)
    case 8 => Gated(IsDist(f), Concat(Dist, paths.dist))
    case 9 => Gated(IsDev(f), Concat(Dev, paths.dev))
    case 10 => Gated(IsDist(f), Minify)
    case 11 => Gated(maps, SourcemapsWrite)
    case 12 => Gated(IsDist(f), Dest(Dist, paths.dist))
    case 13 => Gated(IsDev(f), Dest(Dev, paths.dev))
    case _ => Gated(true, Notify(NotifyTitle, "Environment: " + Environment(f)))
  }

  /**
    The pipe chain of `compile`, every stage with its condition, listed in
    strictly increasing source position.
   */
  function Pipeline(f: Flags, paths: PathConfig): (gs: seq<Gated>)
    ensures |gs| == StageCount
    ensures forall i :: 0 <= i < StageCount ==> gs[i] == Entry(f, paths, i)
    ensures RanksAscend(gs)
  {
    seq(StageCount, i requires 0 <= i < StageCount => Entry(f, paths, i))
  }

  predicate RanksAscend(gs: seq<Gated>) {
    forall i, j :: 0 <= i < j < |gs| ==> Rank(gs[i].stage) < Rank(gs[j].stage)
  }

  predicate Ascending(ss: seq<Stage>) {
    forall i, j :: 0 <= i < j < |ss| ==> Rank(ss[i]) < Rank(ss[j])
  }

  /** The stages whose condition holds, in pipeline order. */
  function Active(gs: seq<Gated>): (r: seq<Stage>)
    ensures |r| <= |gs|
    ensures forall s :: s in r <==> Gated(true, s) in gs
    ensures RanksAscend(gs) ==> Ascending(r)
  {
    if |gs| == 0 then []
    else
      var rest := Active(gs[1..]);
      ActiveStep(gs, rest);
      if gs[0].on then [gs[0].stage] + rest else rest
  }

  /** Every stage switched on after the first entry ranks above the first entry. */
  lemma RestRanksAbove(gs: seq<Gated>, rest: seq<Stage>)
    requires |gs| > 0
    requires forall s :: s in rest <==> Gated(true, s) in gs[1..]
    ensures RanksAscend(gs) ==> forall s :: s in rest ==> Rank(gs[0].stage) < Rank(s)
  {
    if RanksAscend(gs) {
      forall s | s in rest ensures Rank(gs[0].stage) < Rank(s) {
        var k :| 0 <= k < |gs[1..]| && gs[1..][k] == Gated(true, s);
        assert gs[k + 1] == Gated(true, s);
      }
    }
  }

  /** What one step of `Active` needs: membership and order carry over to the longer list. */
  lemma ActiveStep(gs: seq<Gated>, rest: seq<Stage>)
    requires |gs| > 0
    requires forall s :: s in rest <==> Gated(true, s) in gs[1..]
    requires RanksAscend(gs[1..]) ==> Ascending(rest)
    ensures var r := if gs[0].on then [gs[0].stage] + rest else rest;
            && (forall s :: s in r <==> Gated(true, s) in gs)
            && (RanksAscend(gs) ==> Ascending(r))
  {
    assert gs == [gs[0]] + gs[1..];
    var r := if gs[0].on then [gs[0].stage] + rest else rest;
    if RanksAscend(gs) {
      assert RanksAscend(gs[1..]) by {
        forall i, j | 0 <= i < j < |gs[1..]|
          ensures Rank(gs[1..][i].stage) < Rank(gs[1..][j].stage)
        {
          assert gs[1..][i] == gs[i + 1] && gs[1..][j] == gs[j + 1];
        }
      }
      RestRanksAbove(gs, rest);
      if gs[0].on {
        forall i, j | 0 <= i < j < |r| ensures Rank(r[i]) < Rank(r[j]) {
          assert r[j] == rest[j - 1];
          if i > 0 { assert r[i] == rest[i - 1]; }
          else { assert rest[j - 1] in rest; }
        }
      }
    }
  }

  /**
    The stages one run of `compile` goes through: a subset of the pipe chain,
    in the chain's order and without repeats.
   */
  function Plan(f: Flags, paths: PathConfig): (r: seq<Stage>)
    ensures |r| <= StageCount
    ensures Ascending(r)
    ensures forall i, j :: 0 <= i < j < |r| ==> r[i] != r[j]
  {
    Active(Pipeline(f, paths))
  }

  /**
    `bowerFiles`: nothing under `--solo`, otherwise the resolved bower files
    (resolution and the rewriting to cwd-relative paths happen outside the model).
   */
  function BowerFiles(f: Flags, resolved: seq<string>): (r: seq<string>)
    ensures IsRunningSolo(f) ==> r == []
    ensures !IsRunningSolo(f) ==> r == resolved
  {
    if IsRunningSolo(f) then [] else resolved
  }

  /** The globs `compile` hands to `gulp.src`: the bower files, then the sources. */
  function CompileInputs(f: Flags, paths: PathConfig, resolved: seq<string>): (r: seq<string>)
    ensures forall g :: g in r <==> g in paths.src || (!IsRunningSolo(f) && g in resolved)
    ensures IsRunningSolo(f) ==> r == paths.src
    ensures |r| >= |paths.src| && r[|r| - |paths.src|..] == paths.src
    ensures r[..|r| - |paths.src|] == BowerFiles(f, resolved)
  {
    BowerFiles(f, resolved) + paths.src
  }
}
