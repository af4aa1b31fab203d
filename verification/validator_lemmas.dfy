/**
  Properties of the validator that relate several calls or several inputs.
 */
module ValidatorLemmas {
  import opened JsValues
  import opened Validator

  predicate SomeAbsolute(c: seq<JsValue>)
    requires AllStrings(c)
  {
    exists i :: 0 <= i < |c| && IsAbsolute(c[i].s)
  }

  /**
    On string candidates the scan never raises, and the verdict is "no entry is
    absolute", wherever an absolute entry happens to sit.
   */
  lemma {:induction false} ScanOfStrings(c: seq<JsValue>)
    requires AllStrings(c)
    ensures Scan(c) == Returned(!SomeAbsolute(c))
  {
    if |c| == 0 {
    } else if IsAbsolute(c[0].s) {
      assert Scan(c) == Returned(false);
    } else {
      var rest := c[1..];
      assert AllStrings(rest) by {
        forall i | 0 <= i < |rest| ensures rest[i].JsString? { assert rest[i] == c[i + 1]; }
      }
      ScanOfStrings(rest);
      assert Scan(c) == Scan(rest);
      if SomeAbsolute(c) {
        var k :| 0 <= k < |c| && IsAbsolute(c[k].s);
        assert k > 0 && rest[k - 1] == c[k];
      }
      if SomeAbsolute(rest) {
        var k :| 0 <= k < |rest| && IsAbsolute(rest[k].s);
        assert c[k + 1] == rest[k];
      }
    }
  }

  /** Appending entries the list already holds never changes the verdict. */
  lemma ScanIgnoresRepeats(c: seq<JsValue>, e: seq<JsValue>)
    requires forall j :: 0 <= j < |e| ==> e[j] in c
    ensures Scan(c + e) == Scan(c)
  {
    var d := c + e;
    if AllRelative(c) {
      forall j | 0 <= j < |d| ensures IsRelative(d[j]) {
        if j >= |c| {
          assert d[j] == e[j - |c|];
          var k :| 0 <= k < |c| && c[k] == e[j - |c|];
        }
      }
    } else {
      assert Scan(c) == Returned(false) || Scan(c) == Raised(PathNotString);
      var i :| StopsAt(c, i);
      assert StopsAt(d, i) by {
        forall j | 0 <= j < i ensures IsRelative(d[j]) { assert d[j] == c[j]; }
      }
      assert d[i] == c[i];
      if c[i].JsString? {
        assert Scan(c) == Returned(false) && Scan(d) == Returned(false);
      } else {
        assert Scan(c) == Raised(PathNotString) && Scan(d) == Raised(PathNotString);
      }
    }
  }

  /** Reordering the candidate list never changes the verdict. */
  lemma ScanIgnoresOrder(c: seq<JsValue>, d: seq<JsValue>)
    requires AllStrings(c) && multiset(c) == multiset(d)
    ensures AllStrings(d)
    ensures Scan(c) == Scan(d)
  {
    forall i | 0 <= i < |d|
      ensures d[i].JsString?
    {
      assert d[i] in multiset(d);
      var k :| 0 <= k < |c| && c[k] == d[i];
    }
    ScanOfStrings(c);
    ScanOfStrings(d);
    if SomeAbsolute(c) {
      var k :| 0 <= k < |c| && IsAbsolute(c[k].s);
      assert c[k] in multiset(d);
      var m :| 0 <= m < |d| && d[m] == c[k];
    }
    if SomeAbsolute(d) {
      var k :| 0 <= k < |d| && IsAbsolute(d[k].s);
      assert d[k] in multiset(c);
      var m :| 0 <= m < |c| && c[m] == d[k];
    }
  }

  /** A single-string `src` gets the verdict of the one-element array holding it. */
  lemma StringSrcActsAsSingleton(paths: JsValue, s: string)
    requires WellShaped(paths) && Get(paths, "src") == JsString(s)
    ensures WellShaped(Set(paths, "src", JsArray([JsString(s)])))
    ensures PathsAreValid(paths).outcome == PathsAreValid(Set(paths, "src", JsArray([JsString(s)]))).outcome
  {
    var q := Set(paths, "src", JsArray([JsString(s)]));
    assert Get(q, "dest") == Get(paths, "dest");
    assert Candidates(q) == Candidates(paths);
  }

  /**
    With string candidates, one absolute path anywhere rejects and an
    all-relative list accepts.
   */
  lemma VerdictOnStrings(paths: JsValue)
    requires WellShaped(paths) && AllStrings(Candidates(paths))
    ensures PathsAreValid(paths).outcome == Returned(!SomeAbsolute(Candidates(paths)))
  {
    ScanOfStrings(Candidates(paths));
  }

  /**
    A well-shaped array `src` grows by exactly `dest.dev` then `dest.dist`,
    whatever the verdict, and nothing else in the object changes; a string
    `src` leaves the object as it was.
   */
  lemma SrcGrowsByTwo(paths: JsValue)
    requires WellShaped(paths)
    ensures Get(paths, "src").JsArray? ==>
              var before := Get(paths, "src").elems;
              var after := Get(PathsAreValid(paths).paths, "src");
              && after.JsArray?
              && |after.elems| == |before| + 2
              && after.elems[..|before|] == before
              && after.elems[|before|] == DevPath(paths)
              && after.elems[|before| + 1] == DistPath(paths)
    ensures Get(paths, "src").JsArray? ==>
              forall k :: k in paths.props && k != "src" ==> Get(PathsAreValid(paths).paths, k) == Get(paths, k)
    ensures Get(paths, "src").JsArray? ==>
              PathsAreValid(paths).paths.JsObject? && PathsAreValid(paths).paths.props.Keys == paths.props.Keys
    ensures Get(paths, "src").JsString? ==> PathsAreValid(paths).paths == paths
  {
  }

  /**
    Checking the same object twice keeps the verdict, but an array `src` has
    grown by four entries: the validation is not idempotent on its input.
   */
  lemma RecheckKeepsVerdictButGrowsAgain(paths: JsValue)
    requires WellShaped(paths) && Get(paths, "src").JsArray?
    ensures WellShaped(PathsAreValid(paths).paths)
    ensures PathsAreValid(PathsAreValid(paths).paths).outcome.Returned?
            <==> PathsAreValid(paths).outcome.Returned?
    ensures PathsAreValid(PathsAreValid(paths).paths).outcome == Returned(true)
            <==> PathsAreValid(paths).outcome == Returned(true)
    ensures |Get(PathsAreValid(PathsAreValid(paths).paths).paths, "src").elems|
            == |Get(paths, "src").elems| + 4
  {
    var once := PathsAreValid(paths).paths;
    var c := Candidates(paths);
    assert Get(once, "dest") == Get(paths, "dest");
    assert Candidates(once) == c + [DevPath(paths), DistPath(paths)];
    assert c[|c| - 2] in c && c[|c| - 1] in c;
    ScanIgnoresRepeats(c, [DevPath(paths), DistPath(paths)]);
  }

  /** The two configurations of the worked examples: one accepted, one rejected. */
  lemma WorkedExamples()
    ensures
      var dest := JsObject(map["dev" := JsString("build/d.js"), "dist" := JsString("build/p.js")]);
      ValidatePaths(JsObject(map["src" := JsString("a/b.js"), "dest" := dest]))
        == Ok(PathConfig(["a/b.js"], "build/d.js", "build/p.js"))
    ensures
      var dest := JsObject(map["dev" := JsString("d.js"), "dist" := JsString("p.js")]);
      ValidatePaths(JsObject(map["src" := JsString("/abs/a.js"), "dest" := dest])) == Err(UsageError)
  {
    var dest := JsObject(map["dev" := JsString("build/d.js"), "dist" := JsString("build/p.js")]);
    var ok := JsObject(map["src" := JsString("a/b.js"), "dest" := dest]);
    assert Candidates(ok) == [JsString("a/b.js"), JsString("build/d.js"), JsString("build/p.js")];
    assert AllRelative(Candidates(ok));
    assert Strings(SrcEntries(ok)) == ["a/b.js"];
    var dest2 := JsObject(map["dev" := JsString("d.js"), "dist" := JsString("p.js")]);
    var bad := JsObject(map["src" := JsString("/abs/a.js"), "dest" := dest2]);
    assert Candidates(bad)[0] == JsString("/abs/a.js");
    assert StopsAt(Candidates(bad), 0);
  }
}
