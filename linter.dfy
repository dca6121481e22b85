/**
 The orchestration step of main.py: run the three checks, drop the ones the
 ignore list names, and concatenate the rest in a fixed order.
 */
module Linter {
  import opened Model
  import opened Checks

  /** An argument the command line may leave out. */
  datatype Option<T> = None | Some(value: T)

  const BaseImageCheck: string := "Base Image Check"
  const NonRootUserCheck: string := "Non-Root User Check"
  const OptimizedRunCheck: string := "Optimized RUN Check"

  /** A check's name paired with the findings it produced. */
  type NamedResult = (string, seq<Finding>)

  /** The fixed list of checks, in the order the report shows them. */
  function AllChecks(baseImage: string, instructions: seq<Instruction>): seq<NamedResult>
  {
    [(BaseImageCheck, BaseImageIssues(baseImage)),
     (NonRootUserCheck, NonRootUserIssues(instructions)),
     (OptimizedRunCheck, OptimizedRunIssues(instructions))]
  }

  /** `args.ignore and name in args.ignore`: an absent or empty ignore list filters nothing. */
  predicate Ignored(ignore: Option<seq<string>>, name: string)
  {
    ignore.Some? && |ignore.value| > 0 && name in ignore.value
  }

  /** What one check adds to the report. */
  function Contribution(check: NamedResult, ignore: Option<seq<string>>): seq<Finding>
  {
    if Ignored(ignore, check.0) then [] else check.1
  }

  /** The report after the first |checks| iterations of the filter loop. */
  function Issues(checks: seq<NamedResult>, ignore: Option<seq<string>>): seq<Finding>
    decreases |checks|
  {
    if checks == [] then []
    else Issues(checks[..|checks| - 1], ignore) + Contribution(checks[|checks| - 1], ignore)
  }

  /** The filter loop as the source runs it: skip ignored names, extend the report otherwise. */
  method CollectIssues(allChecks: seq<NamedResult>, ignore: Option<seq<string>>) returns (issues: seq<Finding>)
    ensures issues == Issues(allChecks, ignore)
  {
    issues := [];
    for i := 0 to |allChecks|
      invariant issues == Issues(allChecks[..i], ignore)
    {
      assert allChecks[..i + 1][..i] == allChecks[..i];
      var (name, check) := allChecks[i];
      if Ignored(ignore, name) {
        continue;
      }
      issues := issues + check;
    }
    assert allChecks[..|allChecks|] == allChecks;
  }

  /** The whole rule-check pass over a parsed Dockerfile: every check runs, then
      the ignored ones are filtered out of the report. */
  method Lint(baseImage: string, instructions: seq<Instruction>, ignore: Option<seq<string>>)
    returns (issues: seq<Finding>)
    ensures issues == Issues(AllChecks(baseImage, instructions), ignore)
    ensures issues == Contribution((BaseImageCheck, BaseImageIssues(baseImage)), ignore)
                      + Contribution((NonRootUserCheck, NonRootUserIssues(instructions)), ignore)
                      + Contribution((OptimizedRunCheck, OptimizedRunIssues(instructions)), ignore)
    ensures ignore == None || ignore == Some([]) ==>
              issues == BaseImageIssues(baseImage) + NonRootUserIssues(instructions)
                        + OptimizedRunIssues(instructions)
    ensures |issues| <= 4
  {
    var baseIssues := CheckBaseImage(baseImage);
    var userIssues := CheckNonRootUser(instructions);
    var runIssues := CheckOptimizedRun(instructions);
    var allChecks := [(BaseImageCheck, baseIssues), (NonRootUserCheck, userIssues),
                      (OptimizedRunCheck, runIssues)];
    issues := CollectIssues(allChecks, ignore);
    IssuesOfThree(allChecks[0], allChecks[1], allChecks[2], ignore);
    BaseImageOrder(baseImage);
  }

  /** The report over the three fixed checks is their contributions in order. */
  lemma IssuesOfThree(a: NamedResult, b: NamedResult, c: NamedResult, ignore: Option<seq<string>>)
    ensures Issues([a, b, c], ignore) == Contribution(a, ignore) + Contribution(b, ignore) + Contribution(c, ignore)
  {
    assert [a][..0] == [];
    assert Issues([a], ignore) == Contribution(a, ignore);
    assert [a, b][..1] == [a];
    assert Issues([a, b], ignore) == Contribution(a, ignore) + Contribution(b, ignore);
    assert [a, b, c][..2] == [a, b];
  }

  // ---------------------------------------------------------------------------
  // A reference definition: keep the pairs whose names are not ignored, then
  // concatenate their findings.

  function KeptChecks(checks: seq<NamedResult>, ignore: Option<seq<string>>): seq<NamedResult>
  {
    if checks == [] then []
    else (if Ignored(ignore, checks[0].0) then [] else [checks[0]]) + KeptChecks(checks[1..], ignore)
  }

  function Flatten(checks: seq<NamedResult>): seq<Finding>
  {
    if checks == [] then [] else checks[0].1 + Flatten(checks[1..])
  }

  function TotalLength(checks: seq<NamedResult>): nat
  {
    if checks == [] then 0 else |checks[0].1| + TotalLength(checks[1..])
  }

  lemma {:induction false} FlattenAppend(xs: seq<NamedResult>, ys: seq<NamedResult>)
    ensures Flatten(xs + ys) == Flatten(xs) + Flatten(ys)
  {
    if xs != [] {
      assert (xs + ys)[1..] == xs[1..] + ys;
      FlattenAppend(xs[1..], ys);
    } else {
      assert xs + ys == ys;
    }
  }

  lemma {:induction false} KeptChecksAppend(xs: seq<NamedResult>, ys: seq<NamedResult>, ignore: Option<seq<string>>)
    ensures KeptChecks(xs + ys, ignore) == KeptChecks(xs, ignore) + KeptChecks(ys, ignore)
  {
    if xs != [] {
      assert (xs + ys)[1..] == xs[1..] + ys;
      KeptChecksAppend(xs[1..], ys, ignore);
    } else {
      assert xs + ys == ys;
    }
  }

  lemma {:induction false} FlattenLength(checks: seq<NamedResult>)
    ensures |Flatten(checks)| == TotalLength(checks)
  {
    if checks != [] {
      FlattenLength(checks[1..]);
    }
  }

  /** The report is the concatenation, in order, of the findings of exactly the
      checks whose names are not ignored. */
  lemma {:induction false} IssuesAreKeptChecksFlattened(checks: seq<NamedResult>, ignore: Option<seq<string>>)
    ensures Issues(checks, ignore) == Flatten(KeptChecks(checks, ignore))
  {
    if checks != [] {
      var n := |checks| - 1;
      var last := checks[n];
      assert checks == checks[..n] + [last];
      IssuesAreKeptChecksFlattened(checks[..n], ignore);
      KeptChecksAppend(checks[..n], [last], ignore);
      FlattenAppend(KeptChecks(checks[..n], ignore), KeptChecks([last], ignore));
      assert KeptChecks([last], ignore) == if Ignored(ignore, last.0) then [] else [last];
      assert Flatten([last]) == last.1 + Flatten([]);
    }
  }

  /** The report length is the sum of the lengths of the non-ignored checks' results. */
  lemma IssuesLength(checks: seq<NamedResult>, ignore: Option<seq<string>>)
    ensures |Issues(checks, ignore)| == TotalLength(KeptChecks(checks, ignore))
  {
    IssuesAreKeptChecksFlattened(checks, ignore);
    FlattenLength(KeptChecks(checks, ignore));
  }

  /** Without an ignore list, absent or empty, the report is every check's findings in order. */
  lemma {:induction false} IssuesWithoutIgnoreList(checks: seq<NamedResult>)
    ensures Issues(checks, None) == Flatten(checks)
    ensures Issues(checks, Some([])) == Flatten(checks)
  {
    if checks != [] {
      var n := |checks| - 1;
      assert checks == checks[..n] + [checks[n]];
      IssuesWithoutIgnoreList(checks[..n]);
      FlattenAppend(checks[..n], [checks[n]]);
      assert Flatten([checks[n]]) == checks[n].1 + Flatten([]);
    }
  }

  /** An ignored check contributes nothing: whatever findings it carried, the
      report is the same. */
  lemma {:induction false} IgnoredCheckContributesNothing(checks: seq<NamedResult>, ignore: Option<seq<string>>,
                                                           k: nat, findings: seq<Finding>)
    requires k < |checks| && Ignored(ignore, checks[k].0)
    ensures Issues(checks[k := (checks[k].0, findings)], ignore) == Issues(checks, ignore)
  {
    var n := |checks| - 1;
    var changed := checks[k := (checks[k].0, findings)];
    if k < n {
      assert changed[..n] == checks[..n][k := (checks[k].0, findings)];
      IgnoredCheckContributesNothing(checks[..n], ignore, k, findings);
    } else {
      assert changed[..n] == checks[..n];
    }
  }

  /** The ignore list with one more name in it. */
  function WithName(ignore: Option<seq<string>>, name: string): (r: Option<seq<string>>)
    ensures forall c :: Ignored(r, c) <==> Ignored(ignore, c) || c == name
  {
    Some((if ignore.Some? then ignore.value else []) + [name])
  }

  /** A name that matches none of the checks has no effect on the report. */
  lemma {:induction false} UnknownNameInert(checks: seq<NamedResult>, ignore: Option<seq<string>>, name: string)
    requires forall k :: 0 <= k < |checks| ==> checks[k].0 != name
    ensures Issues(checks, WithName(ignore, name)) == Issues(checks, ignore)
  {
    if checks != [] {
      UnknownNameInert(checks[..|checks| - 1], ignore, name);
    }
  }

  // ---------------------------------------------------------------------------
  // Ignoring more names keeps a subsequence of the report.

  /** `xs` is obtained from `ys` by deleting elements. */
  predicate IsSubsequence(xs: seq<Finding>, ys: seq<Finding>)
    decreases |ys|
  {
    xs == [] || (ys != [] && ((xs[0] == ys[0] && IsSubsequence(xs[1..], ys[1..])) || IsSubsequence(xs, ys[1..])))
  }

  lemma {:induction false} SubsequenceOfLonger(xs: seq<Finding>, front: seq<Finding>, ys: seq<Finding>)
    requires IsSubsequence(xs, ys)
    ensures IsSubsequence(xs, front + ys)
    decreases |front|
  {
    if front != [] && xs != [] {
      assert (front + ys)[1..] == front[1..] + ys;
      SubsequenceOfLonger(xs, front[1..], ys);
    } else if front == [] {
      assert front + ys == ys;
    }
  }

  lemma {:induction false} SubsequenceAppend(xs1: seq<Finding>, ys1: seq<Finding>, xs2: seq<Finding>, ys2: seq<Finding>)
    requires IsSubsequence(xs1, ys1) && IsSubsequence(xs2, ys2)
    ensures IsSubsequence(xs1 + xs2, ys1 + ys2)
    decreases |ys1|
  {
    if xs1 == [] {
      assert xs1 + xs2 == xs2;
      SubsequenceOfLonger(xs2, ys1, ys2);
    } else {
      assert (ys1 + ys2)[1..] == ys1[1..] + ys2;
      if xs1[0] == ys1[0] && IsSubsequence(xs1[1..], ys1[1..]) {
        assert (xs1 + xs2)[1..] == xs1[1..] + xs2;
        SubsequenceAppend(xs1[1..], ys1[1..], xs2, ys2);
      } else {
        SubsequenceAppend(xs1, ys1[1..], xs2, ys2);
      }
    }
  }

  lemma {:induction false} SubsequenceReflexive(xs: seq<Finding>)
    ensures IsSubsequence(xs, xs)
  {
    if xs != [] {
      SubsequenceReflexive(xs[1..]);
    }
  }

  /** Adding a name to the ignore list yields a subsequence of the report without it. */
  lemma {:induction false} IgnoreMonotone(checks: seq<NamedResult>, ignore: Option<seq<string>>, name: string)
    ensures IsSubsequence(Issues(checks, WithName(ignore, name)), Issues(checks, ignore))
  {
    if checks != [] {
      var n := |checks| - 1;
      IgnoreMonotone(checks[..n], ignore, name);
      var more := Contribution(checks[n], WithName(ignore, name));
      var fewer := Contribution(checks[n], ignore);
      if more == [] {
        assert IsSubsequence(more, fewer);
      } else {
        assert more == fewer;
        SubsequenceReflexive(fewer);
      }
      SubsequenceAppend(Issues(checks[..n], WithName(ignore, name)), Issues(checks[..n], ignore), more, fewer);
    }
  }
}
