/**
 The three rule checks of the linter (dockerfile_linter/checks.py). Each check
 is a method written as the source runs it and proved equal to a specification
 function; the lemmas further down state what those functions promise.
 */
module Checks {
  import opened Text
  import opened Model

  // ---------------------------------------------------------------------------
  // The findings the checks emit, with their exact texts.

  const LatestTag: Finding :=
    Finding("Avoid using 'latest' tag for base images.", Warn,
            "Specify a version like 'python:3.9-slim'.")

  /** The INFO finding of the base-image check; its message interpolates the image. */
  function SmallerImage(baseImage: string): Finding
  {
    Finding("Consider using a smaller base image instead of " + baseImage + ".", Info,
            "Use 'python:3.9-slim' or 'python:3.9-alpine'.")
  }

  const NoNonRootUser: Finding :=
    Finding("No non-root user specified.", Fail,
            "Consider adding a non-root USER instruction.")

  const UnchainedRun: Finding :=
    Finding("Combine RUN commands to reduce image layers.", Warn,
            "Use '&&' to chain commands in a single RUN.")

  /** The tags that mark a base image as small. */
  const SmallTags: seq<string> := ["slim", "alpine"]

  // ---------------------------------------------------------------------------
  // Base image check.

  /** Python's `any(tag in s for tag in tags)`. */
  function AnyTagIn(tags: seq<string>, s: string): (r: bool)
    ensures r <==> exists k :: 0 <= k < |tags| && Contains(s, tags[k])
  {
    if tags == [] then false
    else if Contains(s, tags[0]) then true
    else
      var rest := AnyTagIn(tags[1..], s);
      assert forall k :: 1 <= k < |tags| ==> tags[k] == tags[1..][k - 1];
      rest
  }

  /** What the base-image check reports: the two rules fire independently,
      the 'latest' rule first. */
  function BaseImageIssues(baseImage: string): seq<Finding>
  {
    (if Contains(baseImage, ":latest") then [LatestTag] else [])
    + (if !AnyTagIn(SmallTags, baseImage) then [SmallerImage(baseImage)] else [])
  }

  /** The base-image check as the source runs it: two conditional appends to a list. */
  method CheckBaseImage(baseImage: string) returns (issues: seq<Finding>)
    ensures issues == BaseImageIssues(baseImage)
  {
    issues := [];
    if Contains(baseImage, ":latest") {
      issues := issues + [LatestTag];
    }
    if !AnyTagIn(SmallTags, baseImage) {
      issues := issues + [SmallerImage(baseImage)];
    }
  }

  /** The 'latest' finding is reported exactly when ":latest" occurs in the image,
      and the INFO finding, with the image in its message, exactly when neither
      "slim" nor "alpine" occurs; no other finding is ever produced. */
  lemma BaseImageRules(baseImage: string)
    ensures LatestTag in BaseImageIssues(baseImage) <==> Contains(baseImage, ":latest")
    ensures SmallerImage(baseImage) in BaseImageIssues(baseImage)
            <==> !Contains(baseImage, "slim") && !Contains(baseImage, "alpine")
    ensures (exists k :: 0 <= k < |BaseImageIssues(baseImage)| && BaseImageIssues(baseImage)[k].severity == Info)
            <==> !Contains(baseImage, "slim") && !Contains(baseImage, "alpine")
    ensures forall f :: f in BaseImageIssues(baseImage) ==> f == LatestTag || f == SmallerImage(baseImage)
  {
    var r := BaseImageIssues(baseImage);
    var small := AnyTagIn(SmallTags, baseImage);
    assert small <==> Contains(baseImage, SmallTags[0]) || Contains(baseImage, SmallTags[1]);
    assert LatestTag != SmallerImage(baseImage);
    if !small {
      assert r[|r| - 1] == SmallerImage(baseImage);
    }
  }

  /** At most two findings, and when both rules fire the WARN finding comes first. */
  lemma BaseImageOrder(baseImage: string)
    ensures |BaseImageIssues(baseImage)| <= 2
    ensures |BaseImageIssues(baseImage)| == 2 ==>
              BaseImageIssues(baseImage) == [LatestTag, SmallerImage(baseImage)]
              && BaseImageIssues(baseImage)[0].severity == Warn
              && BaseImageIssues(baseImage)[1].severity == Info
  {
  }

  /** A slim image with a pinned version passes. */
  lemma BaseImageSlimExample()
    ensures BaseImageIssues("python:3.9-slim") == []
  {
    var b := "python:3.9-slim";
    MissingCharNotContained(b, ":latest", 'a');
    assert OccursAt(b, SmallTags[0], 11);
    assert AnyTagIn(SmallTags, b);
  }

  /** A pinned, non-small image gets only the INFO finding naming it. */
  lemma BaseImagePinnedExample()
    ensures BaseImageIssues("python:3.9") == [SmallerImage("python:3.9")]
  {
    var b := "python:3.9";
    MissingCharNotContained(b, ":latest", 'l');
    SmallTagsAbsent(b, 's', 'a');
  }

  /** "python:latest" gets two findings, WARN then INFO, because it carries
      neither small tag as well as the 'latest' tag. */
  lemma BaseImageLatestExample()
    ensures BaseImageIssues("python:latest") == [LatestTag, SmallerImage("python:latest")]
    ensures |BaseImageIssues("python:latest")| == 2
  {
    var b := "python:latest";
    assert OccursAt(b, ":latest", 6);
    SmallTagsAbsent(b, 'i', 'i');
  }

  /** Neither small tag occurs in an image lacking one character of each. */
  lemma SmallTagsAbsent(baseImage: string, c: char, d: char)
    requires c in "slim" && c !in baseImage
    requires d in "alpine" && d !in baseImage
    ensures !AnyTagIn(SmallTags, baseImage)
  {
    MissingCharNotContained(baseImage, SmallTags[0], c);
    MissingCharNotContained(baseImage, SmallTags[1], d);
  }

  // ---------------------------------------------------------------------------
  // Non-root user check.

  /** A USER instruction naming anyone but exactly "root". */
  predicate IsNonRootUser(instr: Instruction)
  {
    instr.keyword == "USER" && instr.value != "root"
  }

  predicate HasNonRootUser(instructions: seq<Instruction>)
  {
    exists k :: 0 <= k < |instructions| && IsNonRootUser(instructions[k])
  }

  /** What the non-root user check reports. */
  function NonRootUserIssues(instructions: seq<Instruction>): seq<Finding>
  {
    if HasNonRootUser(instructions) then [] else [NoNonRootUser]
  }

  /** The non-root user check as the source runs it: a scan that passes at the
      first non-root USER instruction. */
  method CheckNonRootUser(instructions: seq<Instruction>) returns (issues: seq<Finding>)
    ensures issues == NonRootUserIssues(instructions)
    ensures issues == [] <==>
              exists k :: 0 <= k < |instructions|
                          && instructions[k].keyword == "USER" && instructions[k].value != "root"
    ensures issues != [] ==> issues == [NoNonRootUser]
  {
    for i := 0 to |instructions|
      invariant forall k :: 0 <= k < i ==> !IsNonRootUser(instructions[k])
    {
      if instructions[i].keyword == "USER" && instructions[i].value != "root" {
        return [];
      }
    }
    return [NoNonRootUser];
  }

  /** A later `USER root` (or anything else) after a non-root user does not undo the pass. */
  lemma NonRootUserFirstMatchWins(earlier: seq<Instruction>, later: seq<Instruction>)
    requires HasNonRootUser(earlier)
    ensures NonRootUserIssues(earlier + later) == []
  {
    var k :| 0 <= k < |earlier| && IsNonRootUser(earlier[k]);
    assert (earlier + later)[k] == earlier[k];
  }

  /** Instructions with keywords other than USER, prepended or appended, change nothing. */
  lemma NonRootUserIgnoresOtherKeywords(before: seq<Instruction>, instructions: seq<Instruction>, after: seq<Instruction>)
    requires forall k :: 0 <= k < |before| ==> before[k].keyword != "USER"
    requires forall k :: 0 <= k < |after| ==> after[k].keyword != "USER"
    ensures NonRootUserIssues(before + instructions + after) == NonRootUserIssues(instructions)
  {
    var all := before + instructions + after;
    forall k | 0 <= k < |all| && !(|before| <= k < |before| + |instructions|)
      ensures !IsNonRootUser(all[k])
    {
      if k < |before| {
        assert all[k] == before[k];
      } else {
        assert all[k] == after[k - |before| - |instructions|];
      }
    }
    if HasNonRootUser(all) {
      var k :| 0 <= k < |all| && IsNonRootUser(all[k]);
      assert all[k] == instructions[k - |before|];
    }
    if HasNonRootUser(instructions) {
      var k :| 0 <= k < |instructions| && IsNonRootUser(instructions[k]);
      assert all[|before| + k] == instructions[k];
    }
  }

  lemma NonRootUserExamples()
    ensures NonRootUserIssues([]) == [NoNonRootUser]
    ensures NonRootUserIssues([Instruction("USER", "appuser")]) == []
    ensures NonRootUserIssues([Instruction("USER", "root")]) == [NoNonRootUser]
  {
    assert IsNonRootUser([Instruction("USER", "appuser")][0]);
  }

  // ---------------------------------------------------------------------------
  // Optimized RUN check.

  /** A RUN instruction whose command is not chained with "&&". */
  predicate IsUnchainedRun(instr: Instruction)
  {
    instr.keyword == "RUN" && !Contains(instr.value, "&&")
  }

  predicate HasUnchainedRun(instructions: seq<Instruction>)
  {
    exists k :: 0 <= k < |instructions| && IsUnchainedRun(instructions[k])
  }

  /** What the optimized RUN check reports: one finding however many RUN lines offend. */
  function OptimizedRunIssues(instructions: seq<Instruction>): seq<Finding>
  {
    if HasUnchainedRun(instructions) then [UnchainedRun] else []
  }

  /** The optimized RUN check as the source runs it: a scan that stops at the first
      unchained RUN instruction. */
  method CheckOptimizedRun(instructions: seq<Instruction>) returns (issues: seq<Finding>)
    ensures issues == OptimizedRunIssues(instructions)
    ensures issues == [UnchainedRun] <==>
              exists k :: 0 <= k < |instructions|
                          && instructions[k].keyword == "RUN" && !Contains(instructions[k].value, "&&")
    ensures issues != [UnchainedRun] ==> issues == []
  {
    for i := 0 to |instructions|
      invariant forall k :: 0 <= k < i ==> !IsUnchainedRun(instructions[k])
    {
      if instructions[i].keyword == "RUN" && !Contains(instructions[i].value, "&&") {
        return [UnchainedRun];
      }
    }
    return [];
  }

  /** Instructions with keywords other than RUN, prepended or appended, change nothing. */
  lemma OptimizedRunIgnoresOtherKeywords(before: seq<Instruction>, instructions: seq<Instruction>, after: seq<Instruction>)
    requires forall k :: 0 <= k < |before| ==> before[k].keyword != "RUN"
    requires forall k :: 0 <= k < |after| ==> after[k].keyword != "RUN"
    ensures OptimizedRunIssues(before + instructions + after) == OptimizedRunIssues(instructions)
  {
    var all := before + instructions + after;
    forall k | 0 <= k < |all| && !(|before| <= k < |before| + |instructions|)
      ensures !IsUnchainedRun(all[k])
    {
      if k < |before| {
        assert all[k] == before[k];
      } else {
        assert all[k] == after[k - |before| - |instructions|];
      }
    }
    if HasUnchainedRun(all) {
      var k :| 0 <= k < |all| && IsUnchainedRun(all[k]);
      assert all[k] == instructions[k - |before|];
    }
    if HasUnchainedRun(instructions) {
      var k :| 0 <= k < |instructions| && IsUnchainedRun(instructions[k]);
      assert all[|before| + k] == instructions[k];
    }
  }

  /** A RUN line chained with "&&" passes. */
  lemma OptimizedRunChainedExample()
    ensures OptimizedRunIssues([Instruction("RUN", "apt-get update && apt-get install -y curl")]) == []
  {
    var chained := Instruction("RUN", "apt-get update && apt-get install -y curl");
    assert chained.value[15] == '&' && chained.value[16] == '&';
    assert chained.value[15..17] == "&&";
    OccurrenceContains(chained.value, "&&", 15);
    assert !IsUnchainedRun([chained][0]);
  }

  /** A single unchained RUN line gets the WARN finding. */
  lemma OptimizedRunUnchainedExample()
    ensures OptimizedRunIssues([Instruction("RUN", "apt-get update")]) == [UnchainedRun]
  {
    var single := Instruction("RUN", "apt-get update");
    MissingCharNotContained(single.value, "&&", '&');
    assert IsUnchainedRun([single][0]);
  }
}
