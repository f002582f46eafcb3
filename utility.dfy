/**
 * The helpers of `src/utilities/utility.ts`: the executable extension for an
 * operating system, null-aware string comparison, and the folding of the
 * results of several tool runs into warnings and an error.
 */
module Utility {
  import opened Wrappers
  import opened Strings

  // ---------------------------------------------------------------------
  // getExecutableExtension

  /** `/^Win/`: the operating system type starts with `Win`, case-sensitively. */
  predicate IsWindowsType(osType: string)
  {
    |osType| >= 3 && osType[..3] == "Win"
  }

  /** `getExecutableExtension`, with `os.type()` as a parameter. */
  function GetExecutableExtension(osType: string): (r: string)
    ensures r == ".exe" || r == ""
    ensures r == ".exe" <==> IsWindowsType(osType)
  {
    if |osType| >= 3 && osType[..3] == "Win" then ".exe" else ""
  }

  /** On the types Node reports, only Windows gets `.exe`; the match is case-sensitive. */
  lemma ExecutableExtensionExamples()
    ensures GetExecutableExtension("Windows_NT") == ".exe"
    ensures GetExecutableExtension("Linux") == ""
    ensures GetExecutableExtension("Darwin") == ""
    ensures GetExecutableExtension("windows") == ""
  {
    assert "Windows_NT"[..3] == "Win";
    assert "Linux"[..3][0] != "Win"[0];
    assert "Darwin"[..3][0] != "Win"[0];
    assert "windows"[..3][0] != "Win"[0];
  }

  // ---------------------------------------------------------------------
  // isEqual

  /** `isEqual(str1, str2, ignoreCase)`, with `null` and `undefined` as `None`. */
  function IsEqual(str1: Option<string>, str2: Option<string>, ignoreCase: bool): bool
  {
    if str1.None? && str2.None? then true
    else if str1.None? || str2.None? then false
    else if ignoreCase then Upper(str1.value) == Upper(str2.value)
    else str1.value == str2.value
  }

  /** Two absent strings are equal; an absent and a present one never are. */
  lemma IsEqualNulls(s: string, ignoreCase: bool)
    ensures IsEqual(None, None, ignoreCase)
    ensures !IsEqual(Some(s), None, ignoreCase) && !IsEqual(None, Some(s), ignoreCase)
  {
  }

  /** Without `ignoreCase` the comparison is exact equality. */
  lemma IsEqualExact(str1: Option<string>, str2: Option<string>)
    ensures IsEqual(str1, str2, false) <==> str1 == str2
  {
  }

  /** Either way the comparison is an equivalence: reflexive, symmetric and transitive. */
  lemma IsEqualEquivalence(a: Option<string>, b: Option<string>, c: Option<string>, ignoreCase: bool)
    ensures IsEqual(a, a, ignoreCase)
    ensures IsEqual(a, b, ignoreCase) ==> IsEqual(b, a, ignoreCase)
    ensures IsEqual(a, b, ignoreCase) && IsEqual(b, c, ignoreCase) ==> IsEqual(a, c, ignoreCase)
  {
  }

  /** Equal strings are equal ignoring case. */
  lemma ExactImpliesIgnoreCase(a: Option<string>, b: Option<string>)
    ensures IsEqual(a, b, false) ==> IsEqual(a, b, true)
  {
  }

  /**
   * Ignoring case, two strings are equal exactly when they have the same
   * length and agree character by character up to ASCII letter case.
   */
  lemma IsEqualIgnoreCaseIff(a: string, b: string)
    ensures IsEqual(Some(a), Some(b), true)
            <==> |a| == |b| && forall k :: 0 <= k < |a| ==> UpperChar(a[k]) == UpperChar(b[k])
  {
    if |a| == |b| && forall k :: 0 <= k < |a| ==> UpperChar(a[k]) == UpperChar(b[k]) {
      assert forall k :: 0 <= k < |a| ==> Upper(a)[k] == Upper(b)[k];
    }
    if Upper(a) == Upper(b) {
      assert forall k :: 0 <= k < |a| ==> Upper(a)[k] == Upper(b)[k];
    }
  }

  /** A string equals its upper-cased form when case is ignored, and only then when it has no lower-case letter otherwise. */
  lemma IsEqualUpper(s: string)
    ensures IsEqual(Some(s), Some(Upper(s)), true)
    ensures IsEqual(Some(s), Some(Upper(s)), false) <==> forall k :: 0 <= k < |s| ==> !('a' <= s[k] <= 'z')
  {
    assert forall k :: 0 <= k < |s| ==> UpperChar(Upper(s)[k]) == UpperChar(s[k]);
    IsEqualIgnoreCaseIff(s, Upper(s));
    if forall k :: 0 <= k < |s| ==> !('a' <= s[k] <= 'z') {
      assert forall k :: 0 <= k < |s| ==> Upper(s)[k] == s[k];
    }
    if s == Upper(s) {
      forall k | 0 <= k < |s|
        ensures !('a' <= s[k] <= 'z')
      {
        assert s[k] == UpperChar(s[k]);
      }
    }
  }

  // ---------------------------------------------------------------------
  // checkForErrors

  /** The part of a tool run's result that `checkForErrors` reads; an empty stderr is falsy. */
  datatype ExecResult = ExecResult(stderr: string, code: Option<int>)

  /** The warnings logged, in order, and the error thrown, if any. */
  datatype Report = Report(warnings: seq<string>, error: Option<string>)

  /** A run whose stderr counts towards the error: it wrote to stderr and did not return 0. */
  predicate Failing(r: ExecResult)
  {
    r.stderr != [] && r.code != Some(0)
  }

  /** A run whose stderr is only logged as a warning: it wrote to stderr and returned 0. */
  predicate Warning(r: ExecResult)
  {
    r.stderr != [] && r.code == Some(0)
  }

  /** The stderr of the failing runs, in order, each followed by a line feed. */
  function Collected(results: seq<ExecResult>): string
    decreases |results|
  {
    if results == [] then ""
    else
      var r := results[|results| - 1];
      Collected(results[..|results| - 1]) + (if Failing(r) then r.stderr + "\n" else "")
  }

  /** The stderr of the succeeding runs that wrote to it, in order. */
  function Warned(results: seq<ExecResult>): seq<string>
    decreases |results|
  {
    if results == [] then []
    else
      var r := results[|results| - 1];
      Warned(results[..|results| - 1]) + (if Warning(r) then [r.stderr] else [])
  }

  /**
   * `checkForErrors(execResults, warnIfError)`: the warnings of the runs that
   * succeeded, then, if any failing run wrote to stderr, the trimmed
   * collection of their output as a last warning (with `warnIfError`) or as
   * the error thrown.
   */
  function Errors(results: seq<ExecResult>, warnIfError: bool): Report
  {
    var stderr := Collected(results);
    if |stderr| > 0 then
      if warnIfError then Report(Warned(results) + [Trim(stderr)], None)
      else Report(Warned(results), Some(Trim(stderr)))
    else Report(Warned(results), None)
  }

  /** `checkForErrors`, the `forEach` loop over the results. */
  method CheckForErrors(execResults: seq<ExecResult>, warnIfError: bool) returns (report: Report)
    ensures report == Errors(execResults, warnIfError)
  {
    var warnings: seq<string> := [];
    if |execResults| != 0 {
      var stderr := "";
      var i := 0;
      while i < |execResults|
        invariant 0 <= i <= |execResults|
        invariant stderr == Collected(execResults[..i])
        invariant warnings == Warned(execResults[..i])
      {
        var result := execResults[i];
        assert execResults[..i + 1][..i] == execResults[..i];
        if result.stderr != [] {
          if result.code != Some(0) {
            stderr := stderr + result.stderr + "\n";
            AppendAssoc(Collected(execResults[..i]), result.stderr, "\n");
          } else {
            warnings := warnings + [result.stderr];
          }
        }
        i := i + 1;
      }
      assert execResults[..i] == execResults;
      if |stderr| > 0 {
        if warnIfError {
          warnings := warnings + [Trim(stderr)];
        } else {
          return Report(warnings, Some(Trim(stderr)));
        }
      }
    }
    return Report(warnings, None);
  }

  /** An empty list yields neither warnings nor an error. */
  lemma ErrorsEmpty(warnIfError: bool)
    ensures Errors([], warnIfError) == Report([], None)
  {
  }

  lemma CollectedSnoc(results: seq<ExecResult>, r: ExecResult)
    ensures Collected(results + [r]) == Collected(results) + (if Failing(r) then r.stderr + "\n" else "")
    ensures Warned(results + [r]) == Warned(results) + (if Warning(r) then [r.stderr] else [])
  {
    assert (results + [r])[..|results|] == results;
  }

  /** A run that returned 0, or wrote nothing to stderr, adds nothing towards the error. */
  lemma SucceedingRunNeverFails(results: seq<ExecResult>, r: ExecResult, warnIfError: bool)
    requires r.code == Some(0) || r.stderr == []
    ensures Collected(results + [r]) == Collected(results)
    ensures Errors(results + [r], warnIfError).error == Errors(results, warnIfError).error
    ensures r.stderr == [] ==> Errors(results + [r], warnIfError) == Errors(results, warnIfError)
  {
    CollectedSnoc(results, r);
    assert Collected(results) + "" == Collected(results);
    assert Warned(results) + [] == Warned(results);
  }

  /** The failing runs' output is collected in list order. */
  lemma {:induction false} CollectedAppend(a: seq<ExecResult>, b: seq<ExecResult>)
    ensures Collected(a + b) == Collected(a) + Collected(b)
    decreases |b|
  {
    if b == [] {
      assert a + b == a;
    } else {
      var n := |b| - 1;
      CollectedAppend(a, b[..n]);
      ButLastSnoc(b);
      AppendAssoc(a, b[..n], [b[n]]);
      CollectedSnoc(a + b[..n], b[n]);
      AppendAssoc(Collected(a), Collected(b[..n]), if Failing(b[n]) then b[n].stderr + "\n" else "");
    }
  }

  /** Nothing is collected exactly when no run failed with output on stderr. */
  lemma {:induction false} CollectedEmptyIff(results: seq<ExecResult>)
    ensures Collected(results) == [] <==> forall k :: 0 <= k < |results| ==> !Failing(results[k])
    decreases |results|
  {
    if results != [] {
      var n := |results| - 1;
      var init, last := results[..n], results[n];
      CollectedEmptyIff(init);
      var piece := if Failing(last) then last.stderr + "\n" else "";
      assert Collected(results) == Collected(init) + piece;
      assert piece == [] <==> !Failing(last);
      if forall k :: 0 <= k < |results| ==> !Failing(results[k]) {
        assert forall k :: 0 <= k < n ==> !Failing(init[k]) by {
          forall k | 0 <= k < n ensures !Failing(init[k]) { assert init[k] == results[k]; }
        }
      }
      if Collected(results) == [] {
        forall k | 0 <= k < |results| ensures !Failing(results[k])
        {
          if k < n {
            assert results[k] == init[k];
          }
        }
      }
    }
  }

  /**
   * Without `warnIfError`, an error is thrown exactly when some run returned
   * a non-zero (or no) code and wrote to stderr; its message is the trimmed
   * collection. With `warnIfError` nothing is ever thrown, and the trimmed
   * collection, if any, is logged after the warnings of the succeeding runs.
   */
  lemma ErrorIff(results: seq<ExecResult>)
    ensures Errors(results, false).error.Some? <==> exists k :: 0 <= k < |results| && Failing(results[k])
    ensures Errors(results, false).error.Some? ==> Errors(results, false).error.value == Trim(Collected(results))
    ensures Errors(results, true).error == None
    ensures Errors(results, true).warnings
            == Warned(results) + (if Collected(results) == [] then [] else [Trim(Collected(results))])
  {
    CollectedEmptyIff(results);
  }

  /** Two failing runs: their output, in order and line-separated, trimmed, is the error. */
  lemma TwoFailures(e1: string, e2: string, c1: int, c2: int)
    requires e1 != [] && e2 != [] && c1 != 0 && c2 != 0
    ensures Errors([ExecResult(e1, Some(c1)), ExecResult(e2, Some(c2))], false)
         == Report([], Some(Trim(e1 + "\n" + e2 + "\n")))
  {
    var r1, r2 := ExecResult(e1, Some(c1)), ExecResult(e2, Some(c2));
    CollectedSnoc([], r1);
    CollectedSnoc([r1], r2);
    assert [] + [r1] == [r1] && [r1] + [r2] == [r1, r2];
    assert Collected([r1]) == e1 + "\n";
    assert Collected([r1, r2]) == (e1 + "\n") + (e2 + "\n");
    assert Warned([r1, r2]) == [];
    AppendAssoc(e1 + "\n", e2, "\n");
  }
}
