/** The decision rules shared, line for line, by the current and the legacy
    `TestlinkIntegrationContext`: the not-found test on API errors, the project prefix,
    the step comparison that decides between reusing and re-versioning a case, and the
    searches over the listings the server returns. */
module GatewayRules {
  import opened Results
  import opened Text
  import opened Remote

  const Exist := "exist"
  const NoConnection := "No TestLink connection."
  const CreatedBy := "Created by TestLinkNGIntegration."

  // ----- error classification -----

  /** `checkApiExceptionNotFound` lets an API error through (as "not found", to be
      recovered by creating the entity) exactly when its message contains "exist";
      every other error is rethrown. */
  predicate IsNotFound(e: Error) {
    e.ApiError? && Contains(e.message, Exist)
  }

  function CheckApiExceptionNotFound(e: Error): (r: Outcome)
    ensures r.Pass? <==> e.ApiError? && exists i: nat :: OccursAt(e.message, Exist, i)
    ensures r.Fail? ==> r.error == e
  {
    if IsNotFound(e) then Pass else Fail(e)
  }

  /** The server's "missing" answers are recognised as not-found; the Java runtime
      errors never are. */
  lemma ClassifiesServerMessages()
    ensures IsNotFound(ApiError(ProjectMissing)) && IsNotFound(ApiError(PlanMissing))
    ensures IsNotFound(ApiError(CaseMissing)) && IsNotFound(ApiError(VersionMissing))
    ensures !IsNotFound(NullPointer) && !IsNotFound(IndexOutOfBounds)
  {
    assert OccursAt(ProjectMissing, Exist, 26);
    assert OccursAt(PlanMissing, Exist, 23);
    assert CaseMissing[13..18] == Exist by {
      assert CaseMissing[13] == 'e' && CaseMissing[14] == 'x' && CaseMissing[15] == 'i';
      assert CaseMissing[16] == 's' && CaseMissing[17] == 't';
    }
    assert OccursAt(CaseMissing, Exist, 13);
    assert OccursAt(VersionMissing, Exist, 31);
  }

  // ----- the project prefix -----

  /** The pieces of `s` between dots, trailing empty pieces included. */
  function SplitOnDots(s: string): (parts: seq<string>)
    ensures |parts| > 0
  {
    if s == [] then [""]
    else
      var init := SplitOnDots(s[..|s| - 1]);
      if s[|s| - 1] == '.' then init + [""]
      else init[..|init| - 1] + [init[|init| - 1] + [s[|s| - 1]]]
  }

  function DropTrailingEmpty(parts: seq<string>): seq<string> {
    if parts == [] || parts[|parts| - 1] != "" then parts
    else DropTrailingEmpty(parts[..|parts| - 1])
  }

  /** Java's `s.split("\\.")`: the whole string when it has no dot, otherwise the pieces
      between dots with the trailing empty ones removed. */
  function JavaSplitOnDots(s: string): seq<string> {
    if '.' !in s then [s] else DropTrailingEmpty(SplitOnDots(s))
  }

  predicate IsVowel(c: char) {
    c in "AEIOUaeiou"
  }

  /** `replaceAll("[AEIOUaeiou]", "")`: the input with its vowels filtered out. Every
      non-vowel is kept as often as it occurs, and no vowel is kept. */
  function StripVowels(s: string): (r: string)
    ensures |r| <= |s|
    ensures forall k :: 0 <= k < |r| ==> !IsVowel(r[k]) && r[k] in s
    ensures forall c :: multiset(r)[c] == if IsVowel(c) then 0 else multiset(s)[c]
    ensures (forall k :: 0 <= k < |s| ==> !IsVowel(s[k])) ==> r == s
  {
    if s == [] then []
    else
      assert s == s[..|s| - 1] + [s[|s| - 1]];
      StripVowels(s[..|s| - 1]) + (if IsVowel(s[|s| - 1]) then [] else [s[|s| - 1]])
  }

  /** The prefix given to a newly created project: the last piece of the name after
      splitting at dots, without vowels. Indexing the last piece of an empty split (a name
      made only of dots) throws. */
  function ProjectPrefix(projectName: string): Result<string> {
    var parts := JavaSplitOnDots(projectName);
    if |parts| == 0 then Err(IndexOutOfBounds) else Ok(StripVowels(parts[|parts| - 1]))
  }

  /** An independent description of the same piece: drop the trailing dots, then take what
      follows the last remaining dot. */
  function TrimTrailingDots(s: string): (r: string)
    ensures r == [] || r[|r| - 1] != '.'
    ensures |r| <= |s| && r == s[..|r|]
    ensures forall k :: |r| <= k < |s| ==> s[k] == '.'
  {
    if s != [] && s[|s| - 1] == '.' then TrimTrailingDots(s[..|s| - 1]) else s
  }

  /** The suffix after the last dot: a dot-free suffix that is either the whole text or
      directly preceded by a dot. */
  function AfterLastDot(s: string): (r: string)
    ensures '.' !in r
    ensures |r| <= |s| && r == s[|s| - |r|..]
    ensures |r| < |s| ==> s[|s| - |r| - 1] == '.'
  {
    if s == [] || s[|s| - 1] == '.' then [] else AfterLastDot(s[..|s| - 1]) + [s[|s| - 1]]
  }

  lemma {:induction false} SplitLastPiece(s: string)
    ensures var parts := SplitOnDots(s); parts[|parts| - 1] == AfterLastDot(s)
  {
    if s != [] {
      SplitLastPiece(s[..|s| - 1]);
    }
  }

  lemma {:induction false} DropTrailingDots(s: string)
    ensures DropTrailingEmpty(SplitOnDots(s)) == DropTrailingEmpty(SplitOnDots(TrimTrailingDots(s)))
  {
    if s != [] && s[|s| - 1] == '.' {
      var init := SplitOnDots(s[..|s| - 1]);
      assert SplitOnDots(s) == init + [""];
      assert (init + [""])[..|init|] == init;
      DropTrailingDots(s[..|s| - 1]);
    }
  }

  /** The split's last piece is the reference one, and the split is empty exactly when the
      name is a non-empty run of dots. */
  lemma {:induction false} LastPieceIsAfterLastDot(s: string)
    ensures var parts := JavaSplitOnDots(s);
      (|parts| == 0 <==> s != [] && forall k :: 0 <= k < |s| ==> s[k] == '.')
      && (|parts| > 0 ==> parts[|parts| - 1] == AfterLastDot(TrimTrailingDots(s)))
  {
    var t := TrimTrailingDots(s);
    if '.' !in s {
      assert t == s;
      SplitLastPiece(s);
      AfterLastDotWithoutDots(s);
    } else {
      DropTrailingDots(s);
      if t == [] {
        assert SplitOnDots(t) == [""];
        assert DropTrailingEmpty([""]) == DropTrailingEmpty([]);
      } else {
        var parts := SplitOnDots(t);
        SplitLastPiece(t);
        assert AfterLastDot(t) != [];
        assert DropTrailingEmpty(parts) == parts;
        var k :| 0 <= k < |s| && s[k] == '.';
        assert k < |t| ==> t[k] == '.';
        assert t[|t| - 1] == s[|t| - 1] != '.';
      }
    }
  }

  lemma {:induction false} AfterLastDotWithoutDots(s: string)
    requires '.' !in s
    ensures AfterLastDot(s) == s
  {
    if s != [] {
      assert '.' !in s[..|s| - 1];
      AfterLastDotWithoutDots(s[..|s| - 1]);
    }
  }

  /** What the prefix rule promises: it fails only on names made of dots, and otherwise
      yields the vowel-free form of the last dot-separated piece, which has no vowel and
      no dot and is no longer than the name. */
  lemma ProjectPrefixFacts(projectName: string)
    ensures ProjectPrefix(projectName).Err? <==>
            projectName != [] && forall k :: 0 <= k < |projectName| ==> projectName[k] == '.'
    ensures ProjectPrefix(projectName).Ok? ==>
            var prefix := ProjectPrefix(projectName).value;
            var piece := AfterLastDot(TrimTrailingDots(projectName));
            && prefix == StripVowels(piece)
            && |prefix| <= |piece| <= |projectName|
            && forall k :: 0 <= k < |prefix| ==> !IsVowel(prefix[k]) && prefix[k] != '.'
  {
    LastPieceIsAfterLastDot(projectName);
    var parts := JavaSplitOnDots(projectName);
    if |parts| > 0 {
      var piece := parts[|parts| - 1];
      assert piece == AfterLastDot(TrimTrailingDots(projectName));
      var prefix := StripVowels(piece);
      assert ProjectPrefix(projectName) == Ok(prefix);
      forall k | 0 <= k < |prefix| ensures prefix[k] != '.' {
        assert prefix[k] in piece;
      }
    }
  }

  // ----- compareSteps -----

  function ActionSet(steps: seq<TestCaseStep>): set<string> {
    set k | 0 <= k < |steps| :: steps[k].actions
  }

  predicate DistinctActions(steps: seq<TestCaseStep>) {
    forall i, j :: 0 <= i < j < |steps| ==> steps[i].actions != steps[j].actions
  }

  /** When `compareSteps` reports the existing case as unchanged: the lists are equally long,
      the new one repeats no action, and both hold the same actions. */
  predicate StepsMatch(steps: seq<TestCaseStep>, existingSteps: seq<TestCaseStep>) {
    |steps| == |existingSteps| && DistinctActions(steps) && ActionSet(steps) == ActionSet(existingSteps)
  }

  /** `compareSteps`: a length check, then the existing actions go into a set from which
      each new step's action is removed; an action not (or no longer) in the set, or a set
      left non-empty, means the steps changed. */
  method CompareSteps(steps: seq<TestCaseStep>, existingSteps: seq<TestCaseStep>) returns (same: bool)
    ensures same <==> StepsMatch(steps, existingSteps)
  {
    if |existingSteps| != |steps| {
      return false;
    }
    var actions: set<string> := {};
    for i := 0 to |existingSteps|
      invariant actions == ActionSet(existingSteps[..i])
    {
      actions := actions + {existingSteps[i].actions};
    }
    assert existingSteps[..|existingSteps|] == existingSteps;
    for i := 0 to |steps|
      invariant ActionSet(steps[..i]) <= ActionSet(existingSteps)
      invariant actions == ActionSet(existingSteps) - ActionSet(steps[..i])
      invariant DistinctActions(steps[..i])
    {
      var action := steps[i].actions;
      if action in actions {
        actions := actions - {action};
        assert steps[..i + 1] == steps[..i] + [steps[i]];
        assert ActionSet(steps[..i + 1]) == ActionSet(steps[..i]) + {action};
      } else {
        if action in ActionSet(steps[..i]) {
          var k :| 0 <= k < i && steps[k].actions == action;
          assert !DistinctActions(steps);
        } else {
          assert action !in ActionSet(existingSteps);
          assert action in ActionSet(steps);
        }
        return false;
      }
    }
    assert steps[..|steps|] == steps;
    same := actions == {};
  }

  /** The actions of a list are those of all but its last step, and the last one's. */
  lemma ActionSetSplit(steps: seq<TestCaseStep>)
    requires steps != []
    ensures ActionSet(steps) == ActionSet(steps[..|steps| - 1]) + {steps[|steps| - 1].actions}
  {
    var init := steps[..|steps| - 1];
    forall a | a in ActionSet(steps) ensures a in ActionSet(init) + {steps[|steps| - 1].actions} {
      var k :| 0 <= k < |steps| && steps[k].actions == a;
      if k < |steps| - 1 { assert init[k].actions == a; }
    }
  }

  /** A list repeats no action when all but its last step repeat none and the last action is
      new. */
  lemma DistinctSplit(steps: seq<TestCaseStep>)
    requires steps != []
    ensures DistinctActions(steps)
            <==> DistinctActions(steps[..|steps| - 1]) && steps[|steps| - 1].actions !in ActionSet(steps[..|steps| - 1])
  {
    var init := steps[..|steps| - 1];
    var last := steps[|steps| - 1].actions;
    if last in ActionSet(init) {
      var k :| 0 <= k < |init| && init[k].actions == last;
      assert steps[k].actions == steps[|steps| - 1].actions;
    }
  }

  lemma {:induction false} DistinctCardinality(steps: seq<TestCaseStep>)
    ensures |ActionSet(steps)| <= |steps|
    ensures |ActionSet(steps)| == |steps| <==> DistinctActions(steps)
  {
    if steps != [] {
      DistinctCardinality(steps[..|steps| - 1]);
      ActionSetSplit(steps);
      DistinctSplit(steps);
    }
  }

  /** A match makes both lists duplicate-free permutations of each other's actions. */
  lemma StepsMatchIsPermutation(steps: seq<TestCaseStep>, existingSteps: seq<TestCaseStep>)
    requires StepsMatch(steps, existingSteps)
    ensures DistinctActions(existingSteps)
    ensures StepsMatch(existingSteps, steps)
  {
    DistinctCardinality(steps);
    DistinctCardinality(existingSteps);
  }

  /** A list that repeats an action matches nothing, on either side. */
  lemma RepeatedActionNeverMatches(steps: seq<TestCaseStep>, existingSteps: seq<TestCaseStep>)
    requires !DistinctActions(steps) || !DistinctActions(existingSteps)
    ensures !StepsMatch(steps, existingSteps)
  {
    if StepsMatch(steps, existingSteps) {
      StepsMatchIsPermutation(steps, existingSteps);
    }
  }

  // ----- searches over listings -----

  function FirstBuildNamed(builds: seq<Build>, name: string): (r: Option<Build>)
    ensures r.None? <==> forall k :: 0 <= k < |builds| ==> builds[k].name != name
    ensures r.Some? ==> exists k :: 0 <= k < |builds| && builds[k] == r.value && r.value.name == name
                                  && forall j :: 0 <= j < k ==> builds[j].name != name
  {
    if builds == [] then None
    else if builds[0].name == name then Some(builds[0])
    else
      var r := FirstBuildNamed(builds[1..], name);
      assert r.Some? ==> exists k :: 1 <= k < |builds| && builds[k] == r.value
                                  && forall j :: 0 <= j < k ==> builds[j].name != name by {
        if r.Some? {
          var k :| 0 <= k < |builds| - 1 && builds[1..][k] == r.value && r.value.name == name
                   && forall j :: 0 <= j < k ==> builds[1..][j].name != name;
          assert forall j :: 0 <= j < k + 1 ==> builds[j].name != name by {
            forall j | 0 <= j < k + 1 ensures builds[j].name != name {
              if j > 0 { assert builds[j] == builds[1..][j - 1]; }
            }
          }
        }
      }
      r
  }

  /** A build preceded by none of the same name is the first of that name. */
  lemma FirstBuildNamedAt(builds: seq<Build>, name: string, i: nat)
    requires i < |builds| && builds[i].name == name
    requires forall j :: 0 <= j < i ==> builds[j].name != name
    ensures FirstBuildNamed(builds, name) == Some(builds[i])
  {
    var k :| 0 <= k < |builds| && builds[k] == FirstBuildNamed(builds, name).value
             && builds[k].name == name && forall j :: 0 <= j < k ==> builds[j].name != name;
    assert k == i;
  }

  function FirstSuiteNamed(suites: seq<TestSuite>, name: string): (r: Option<TestSuite>)
    ensures r.None? <==> forall k :: 0 <= k < |suites| ==> suites[k].name != name
    ensures r.Some? ==> exists k :: 0 <= k < |suites| && suites[k] == r.value && r.value.name == name
                                  && forall j :: 0 <= j < k ==> suites[j].name != name
  {
    if suites == [] then None
    else if suites[0].name == name then Some(suites[0])
    else
      var r := FirstSuiteNamed(suites[1..], name);
      assert r.Some? ==> exists k :: 1 <= k < |suites| && suites[k] == r.value
                                  && forall j :: 0 <= j < k ==> suites[j].name != name by {
        if r.Some? {
          var k :| 0 <= k < |suites| - 1 && suites[1..][k] == r.value && r.value.name == name
                   && forall j :: 0 <= j < k ==> suites[1..][j].name != name;
          assert forall j :: 0 <= j < k + 1 ==> suites[j].name != name by {
            forall j | 0 <= j < k + 1 ensures suites[j].name != name {
              if j > 0 { assert suites[j] == suites[1..][j - 1]; }
            }
          }
        }
      }
      r
  }

  /** A suite preceded by none of the same name is the first of that name. */
  lemma FirstSuiteNamedAt(suites: seq<TestSuite>, name: string, i: nat)
    requires i < |suites| && suites[i].name == name
    requires forall j :: 0 <= j < i ==> suites[j].name != name
    ensures FirstSuiteNamed(suites, name) == Some(suites[i])
  {
    var k :| 0 <= k < |suites| && suites[k] == FirstSuiteNamed(suites, name).value
             && suites[k].name == name && forall j :: 0 <= j < k ==> suites[j].name != name;
    assert k == i;
  }

  /** The plan already holds this case at the same or a higher version. */
  predicate HoldsSameOrNewer(planCases: seq<TestCase>, testCase: TestCase) {
    exists k :: 0 <= k < |planCases| && planCases[k].id == testCase.id && testCase.version <= planCases[k].version
  }
}
