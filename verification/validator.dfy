/**
  The path-configuration validator of gluppy.js: `pathsAreValid` (a shape check,
  then a left-to-right scan for absolute paths) and `enforcePaths` (raise when the
  check fails).

  `pathsAreValid` is not pure in the source. When `src` is an array, the
  candidate list IS that array, and the two destination paths are pushed onto
  it. `PathsAreValid` therefore returns the caller's configuration as it stands
  afterwards, alongside the verdict. `ValidatePaths` is the side-effect-free
  validator the code evidently intended.
 */
module Validator {
  import opened JsValues

  /** What setup can raise: the first two while the paths are checked. */
  datatype Error =
    | UsageError        // enforcePaths' fixed "Paths must be relative ..." usage text
    | PathNotString     // path.isAbsolute called on something that is not a string
    | PlumberNotObject  // errorHandler assigned to a primitive `plumber` option in strict mode

  /** How a call ends: it returns a boolean, or it raises. */
  datatype Outcome = Returned(valid: bool) | Raised(error: Error)

  /** The verdict of `pathsAreValid` together with the caller's object afterwards. */
  datatype Checked = Checked(outcome: Outcome, paths: JsValue)

  /** A function that returns nothing either completes normally or raises. */
  datatype Completion = Normal | Threw(error: Error)

  /** The completion of `enforcePaths` together with the caller's object afterwards. */
  datatype Enforced = Enforced(completion: Completion, paths: JsValue)

  datatype Result<T> = Ok(value: T) | Err(error: Error)

  /** A validated configuration: every entry is a relative path. */
  datatype PathConfig = PathConfig(src: seq<string>, dev: string, dist: string)

  /** `path.isAbsolute` under the POSIX rule: a path is absolute when it starts with '/'. */
  predicate IsAbsolute(p: string) {
    |p| > 0 && p[0] == '/'
  }

  /** A candidate that passes the scan: a string that is not an absolute path. */
  predicate IsRelative(v: JsValue) {
    v.JsString? && !IsAbsolute(v.s)
  }

  predicate AllRelative(c: seq<JsValue>) {
    forall i :: 0 <= i < |c| ==> IsRelative(c[i])
  }

  /** The scan of `c` stops at index `i`: every earlier entry is relative, `c[i]` is not. */
  predicate StopsAt(c: seq<JsValue>, i: int) {
    && 0 <= i < |c|
    && !IsRelative(c[i])
    && forall j :: 0 <= j < i ==> IsRelative(c[j])
  }

  /** The format check: `src` a string or an array, `dest.dev` and `dest.dist` strings. */
  predicate WellShaped(paths: JsValue) {
    && IsObjectType(paths)
    && (Get(paths, "src").JsString? || Get(paths, "src").JsArray?)
    && IsObjectType(Get(paths, "dest"))
    && Get(Get(paths, "dest"), "dev").JsString?
    && Get(Get(paths, "dest"), "dist").JsString?
  }

  function DevPath(paths: JsValue): JsValue {
    Get(Get(paths, "dest"), "dev")
  }

  function DistPath(paths: JsValue): JsValue {
    Get(Get(paths, "dest"), "dist")
  }

  /** `src` read as a list: a single string is a one-element list. */
  function SrcEntries(paths: JsValue): (r: seq<JsValue>)
    requires WellShaped(paths)
    ensures Get(paths, "src").JsString? ==> r == [Get(paths, "src")]
    ensures Get(paths, "src").JsArray? ==> r == Get(paths, "src").elems
  {
    match Get(paths, "src")
    case JsArray(elems) => elems
    case other => [other]
  }

  /** Every path the validator examines, in the order it examines them. */
  function Candidates(paths: JsValue): (c: seq<JsValue>)
    requires WellShaped(paths)
    ensures |c| == |SrcEntries(paths)| + 2
    ensures c[..|SrcEntries(paths)|] == SrcEntries(paths)
    ensures c[|c| - 2] == DevPath(paths) && c[|c| - 1] == DistPath(paths)
  {
    SrcEntries(paths) + [DevPath(paths), DistPath(paths)]
  }

  /**
    The `for` loop of pathsAreValid as a recursive definition: walk the
    candidates in order, answer false at the first absolute one, and raise if
    `path.isAbsolute` is handed something that is not a string.
   */
  function Scan(c: seq<JsValue>): (o: Outcome)
    ensures o == Returned(true) <==> AllRelative(c)
    ensures o == Returned(false) <==> exists i :: StopsAt(c, i) && c[i].JsString?
    ensures o == Raised(PathNotString) <==> exists i :: StopsAt(c, i) && !c[i].JsString?
    ensures o.Raised? ==> o.error == PathNotString
  {
    if |c| == 0 then Returned(true)
    else if !c[0].JsString? then Raised(PathNotString)
    else if IsAbsolute(c[0].s) then Returned(false)
    else
      var o := Scan(c[1..]);
      ShiftStop(c);
      o
  }

  /** Where the scan of `c` stops, given that `c[0]` is relative. */
  lemma ShiftStop(c: seq<JsValue>)
    requires |c| > 0 && IsRelative(c[0])
    ensures AllRelative(c) <==> AllRelative(c[1..])
    ensures forall i :: StopsAt(c[1..], i) <==> StopsAt(c, i + 1)
    ensures forall i :: StopsAt(c, i) ==> i > 0
  {
    assert forall i :: 0 <= i < |c| - 1 ==> c[1..][i] == c[i + 1];
    if AllRelative(c[1..]) {
      forall i | 0 <= i < |c|
        ensures IsRelative(c[i])
      {
        if i > 0 { assert c[i] == c[1..][i - 1]; }
      }
    }
  }

  /**
    The loop exactly as gluppy.js writes it: index upwards, return false at the
    first absolute path, true after the last.
   */
  method ScanLoop(c: seq<JsValue>) returns (o: Outcome)
    ensures o == Scan(c)
  {
    var i := 0;
    while i < |c|
      invariant 0 <= i <= |c|
      invariant forall j :: 0 <= j < i ==> IsRelative(c[j])
    {
      if !c[i].JsString? {
        assert StopsAt(c, i);
        return Raised(PathNotString);
      }
      if IsAbsolute(c[i].s) {
        assert StopsAt(c, i);
        return Returned(false);
      }
      i := i + 1;
    }
    return Returned(true);
  }

  /**
    The caller's object after pathsAreValid: an array `src` has had `dest.dev`
    and `dest.dist` pushed onto it; otherwise nothing changed.
   */
  function AfterCheck(paths: JsValue): (p: JsValue)
    ensures !(WellShaped(paths) && Get(paths, "src").JsArray?) ==> p == paths
  {
    if WellShaped(paths) && Get(paths, "src").JsArray? then
      Set(paths, "src", JsArray(Candidates(paths)))
    else
      paths
  }

  /** pathsAreValid, as written: the verdict plus the caller's object afterwards. */
  function PathsAreValid(paths: JsValue): (r: Checked)
    ensures !WellShaped(paths) ==> r == Checked(Returned(false), paths)
    ensures r.outcome == Returned(true) <==> WellShaped(paths) && AllRelative(Candidates(paths))
    ensures r.outcome == Returned(false) <==>
              !WellShaped(paths) || exists i :: StopsAt(Candidates(paths), i) && Candidates(paths)[i].JsString?
    ensures r.outcome.Raised? ==>
              WellShaped(paths) && r.outcome.error == PathNotString && !AllRelative(Candidates(paths))
    ensures r.paths == AfterCheck(paths)
  {
    if !WellShaped(paths) then Checked(Returned(false), paths)
    else Checked(Scan(Candidates(paths)), AfterCheck(paths))
  }

  /** enforcePaths: raise the usage error when pathsAreValid says false. */
  function EnforcePaths(paths: JsValue): (r: Enforced)
    ensures r.completion == Normal <==> PathsAreValid(paths).outcome == Returned(true)
    ensures r.completion == Threw(UsageError) <==> PathsAreValid(paths).outcome == Returned(false)
    ensures r.completion == Threw(PathNotString) <==> PathsAreValid(paths).outcome == Raised(PathNotString)
    ensures r.paths == PathsAreValid(paths).paths
  {
    var checked := PathsAreValid(paths);
    match checked.outcome
    case Returned(valid) => Enforced(if valid then Normal else Threw(UsageError), checked.paths)
    case Raised(e) => Enforced(Threw(e), checked.paths)
  }

  /** Every entry of `c` is a string. */
  predicate AllStrings(c: seq<JsValue>) {
    forall i :: 0 <= i < |c| ==> c[i].JsString?
  }

  /** The strings of an all-string list, in order. */
  function Strings(c: seq<JsValue>): (r: seq<string>)
    requires AllStrings(c)
    ensures |r| == |c|
    ensures forall i :: 0 <= i < |c| ==> r[i] == c[i].s
  {
    if |c| == 0 then [] else [c[0].s] + Strings(c[1..])
  }

  /**
    The validator as evidently intended: the same verdict as enforcePaths, but
    the caller's `src` is read, never extended.
   */
  function ValidatePaths(paths: JsValue): (r: Result<PathConfig>)
    ensures r.Ok? <==> EnforcePaths(paths).completion == Normal
    ensures r.Err? ==> EnforcePaths(paths).completion == Threw(r.error)
    ensures r.Ok? ==>
              && WellShaped(paths)
              && |r.value.src| == |SrcEntries(paths)|
              && (forall i :: 0 <= i < |r.value.src| ==> SrcEntries(paths)[i] == JsString(r.value.src[i]))
              && DevPath(paths) == JsString(r.value.dev)
              && DistPath(paths) == JsString(r.value.dist)
    ensures r.Ok? ==>
              && (forall i :: 0 <= i < |r.value.src| ==> !IsAbsolute(r.value.src[i]))
              && !IsAbsolute(r.value.dev) && !IsAbsolute(r.value.dist)
  {
    var enforced := EnforcePaths(paths);
    match enforced.completion
    case Threw(e) => Err(e)
    case Normal =>
      var c := Candidates(paths);
      var n := |SrcEntries(paths)|;
      assert IsRelative(c[n]) && IsRelative(c[n + 1]);
      assert forall i :: 0 <= i < n ==> c[i] == SrcEntries(paths)[i];
      Ok(PathConfig(Strings(SrcEntries(paths)), DevPath(paths).s, DistPath(paths).s))
  }
}
