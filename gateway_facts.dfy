/** Properties of the gateway calls shared by both contexts: a repeated call finds what
    the first one created, a case is reused only when its steps match, and a plan refuses
    a case exactly when it already holds an older version of it. */
module GatewayFacts {
  import opened Results
  import opened Remote
  import opened GatewayRules
  import opened GatewaySpec

  // ----- appending to a listing -----

  lemma {:induction false} FirstBuildAppended(builds: seq<Build>, b: Build, name: string)
    requires FirstBuildNamed(builds, name).None? && b.name == name
    ensures FirstBuildNamed(builds + [b], name) == Some(b)
  {
    var all := builds + [b];
    assert all[|builds|].name == name;
    var k :| 0 <= k < |all| && all[k] == FirstBuildNamed(all, name).value && all[k].name == name;
    assert forall j :: 0 <= j < |builds| ==> all[j].name != name;
  }

  lemma {:induction false} FirstSuiteAppended(suites: seq<TestSuite>, s: TestSuite, name: string)
    requires FirstSuiteNamed(suites, name).None? && s.name == name
    ensures FirstSuiteNamed(suites + [s], name) == Some(s)
  {
    var all := suites + [s];
    assert all[|suites|].name == name;
    var k :| 0 <= k < |all| && all[k] == FirstSuiteNamed(all, name).value && all[k].name == name;
    assert forall j :: 0 <= j < |suites| ==> all[j].name != name;
  }

  lemma {:induction false} FirstProjectAppended(projects: seq<TestProject>, p: TestProject, name: string)
    requires FirstProjectNamed(projects, name).None? && p.name == name
    ensures FirstProjectNamed(projects + [p], name) == Some(p)
  {
    if projects != [] {
      assert (projects + [p])[1..] == projects[1..] + [p];
      FirstProjectAppended(projects[1..], p, name);
    }
  }

  // ----- projects, builds and suites -----

  /** The project `getProject` settles on carries the requested name and is the one the
      server now finds first under that name; a created one got the prefix derived from it. */
  lemma ProjectLookupSettles(db: Db, projectName: string)
    requires db.readFault.None?
    ensures var (r, db1) := ProjectLookupFor(db, projectName);
            r.Ok? ==> r.value.name == projectName
                      && FirstProjectNamed(db1.projects, projectName) == Some(r.value)
                      && (db1 != db ==> ProjectPrefix(projectName) == Ok(r.value.prefix))
  {
    var (r, db1) := ProjectLookupFor(db, projectName);
    if r.Ok? && db1 != db {
      FirstProjectAppended(db.projects, r.value, projectName);
    }
  }

  /** A build obtained for a plan carries the requested name and belongs to the plan, and
      asking again for the same name returns it without creating anything. */
  lemma BuildForSettles(db: Db, plan: TestPlan, buildName: string)
    requires db.readFault.None?
    ensures var (r, db1) := BuildFor(db, Some(plan), buildName);
            r.Ok? ==> r.value.name == buildName && r.value.planId == plan.id
                      && BuildFor(db1, Some(plan), buildName) == (r, db1)
  {
    var listing := BuildsOf(db.builds, plan.id);
    var (r, db1) := BuildFor(db, Some(plan), buildName);
    if FirstBuildNamed(listing, buildName).Some? {
      assert FirstBuildNamed(listing, buildName).value in listing;
    } else if r.Ok? {
      var b := Build(db.nextId, buildName, plan.id);
      assert db1.builds == db.builds + [b];
      assert db1.builds[..|db1.builds| - 1] == db.builds;
      assert BuildsOf(db1.builds, plan.id) == listing + [b];
      FirstBuildAppended(listing, b, buildName);
    }
  }

  /** A suite obtained for a project carries the requested name and the project's id, and
      asking again for the same name returns it without creating anything. */
  lemma SuiteForSettles(db: Db, project: TestProject, suiteName: string)
    requires db.readFault.None?
    ensures var (r, db1) := SuiteFor(db, project, suiteName);
            r.Ok? ==> r.value.name == suiteName && r.value.testProjectId == Some(project.id)
                      && SuiteFor(db1, project, suiteName) == (r, db1)
  {
    var listing := SuitesOf(db.suites, project.id);
    var (r, db1) := SuiteFor(db, project, suiteName);
    if FirstSuiteNamed(listing, suiteName).None? && r.Ok? {
      var n := SuiteNode(db.nextId, suiteName, project.id);
      assert db1.suites == db.suites + [n];
      assert db1.suites[..|db1.suites| - 1] == db.suites;
      assert SuitesOf(db1.suites, project.id) == listing + [TestSuite(n.id, suiteName, None)];
      FirstSuiteAppended(listing, TestSuite(n.id, suiteName, None), suiteName);
    }
  }

  // ----- plan membership -----

  /** After a successful `addTestCaseToPlan` the plan holds the case at the same or a
      newer version, and repeating the call changes nothing. */
  lemma {:induction false} MembershipForSettles(db: Db, testCase: TestCase, plan: TestPlan, build: Build)
    requires db.readFault.None?
    ensures var (r, db1) := MembershipFor(db, testCase, Some(plan), Some(build));
            r.Ok? ==> HoldsSameOrNewer(CasesOfPlan(db1.links, plan.id), testCase)
                      && MembershipFor(db1, testCase, Some(plan), Some(build)) == (r, db1)
  {
    var (r, db1) := MembershipFor(db, testCase, Some(plan), Some(build));
    var listing := CasesOfPlan(db.links, plan.id);
    if !HoldsSameOrNewer(listing, testCase) && r.Ok? {
      var c := VersionOf(db.cases, testCase.id, testCase.version).value;
      assert db1.links == db.links + [PlanLink(plan.id, c)];
      assert db1.links[..|db1.links| - 1] == db.links;
      var after := CasesOfPlan(db1.links, plan.id);
      assert after == listing + [c];
      assert after[|listing|].id == testCase.id && testCase.version <= after[|listing|].version;
    }
  }

  /** A plan accepts a case (or already holds it) when it holds no older version of it. */
  lemma {:induction false} MembershipSucceedsUnlessSuperseding(db: Db, testCase: TestCase, plan: TestPlan, build: Build)
    requires db.readFault.None? && db.writeFault.None?
    requires VersionOf(db.cases, testCase.id, testCase.version).Some?
    requires !SupersedesLinked(testCase, CasesOfPlan(db.links, plan.id))
    ensures MembershipFor(db, testCase, Some(plan), Some(build)).0 == Ok(())
  {
    var listing := CasesOfPlan(db.links, plan.id);
    if !HoldsSameOrNewer(listing, testCase) {
      forall l | l in db.links && l.planId == plan.id ensures l.testCase.id != testCase.id {
        assert PlanLink(plan.id, l.testCase) == l;
        assert l.testCase in listing;
      }
    }
  }

  /** A plan that holds the case only at older versions refuses the newer one: the
      server keeps one version of a case per plan. */
  lemma MembershipRefusedWhenSuperseding(db: Db, testCase: TestCase, plan: TestPlan, build: Build)
    requires db.readFault.None? && db.writeFault.None?
    requires SupersedesLinked(testCase, CasesOfPlan(db.links, plan.id))
    requires !HoldsSameOrNewer(CasesOfPlan(db.links, plan.id), testCase)
    ensures MembershipFor(db, testCase, Some(plan), Some(build)).0 == Err(ApiError(AlreadyLinked))
  {
    var listing := CasesOfPlan(db.links, plan.id);
    var k :| 0 <= k < |listing| && listing[k].id == testCase.id && testCase.version > listing[k].version;
    assert listing[k] in listing;
    assert PlanLink(plan.id, listing[k]) in db.links;
  }

  // ----- test cases -----

  /** `createTestCase` hands back either the case it found, unchanged on the server and
      with matching steps, or a case it has just stored with the given name, suite and steps. */
  lemma CaseForReusesOnlyMatchingSteps(db: Db, caseName: string, suite: TestSuite, project: TestProject, steps: seq<TestCaseStep>)
    ensures var (r, db1) := CaseFor(db, caseName, suite, project, steps);
            r.Ok? ==>
              (db1 == db && StepsMatch(steps, r.value.steps))
              || (db1.cases == db.cases + [r.value] && r.value.name == caseName
                  && r.value.suiteId == suite.id && r.value.steps == steps)
  {
    var (r, db1) := CaseFor(db, caseName, suite, project, steps);
    if r.Ok? && db1 != db {
      var c := NewCase(db, caseName, suite.id, suite.testProjectId, steps).0.value;
      assert db1.cases == db.cases + [c];
      assert LatestVersion(db1.cases, c.id) == Some(c);
    }
  }

  /** Steps that repeat an action (a data-driven method run several times) never match,
      so every run stores one more version of the case. */
  lemma RepeatedActionsAlwaysAddVersion(db: Db, caseName: string, suite: TestSuite, project: TestProject, steps: seq<TestCaseStep>)
    requires !DistinctActions(steps)
    requires db.readFault.None? && db.writeFault.None? && suite.testProjectId.Some?
    ensures var (r, db1) := CaseFor(db, caseName, suite, project, steps);
            r.Ok? && db1.cases == db.cases + [r.value] && r.value.steps == steps
  {
    ClassifiesServerMessages();
    var found := CaseIdByName(db, caseName, suite.name, project.name);
    if found.Ok? {
      var existing := CaseById(db, found.value);
      if existing.Ok? {
        RepeatedActionNeverMatches(steps, existing.value.steps);
      }
    }
    var c := NewCase(db, caseName, suite.id, suite.testProjectId, steps).0.value;
    var db1 := NewCase(db, caseName, suite.id, suite.testProjectId, steps).1;
    assert db1.cases == db.cases + [c];
    assert LatestVersion(db1.cases, c.id) == Some(c);
  }

  /** The suite is stored under the project, and no other suite of the project has its name. */
  predicate SuiteNamedOnce(suites: seq<SuiteNode>, suite: TestSuite, projectId: nat) {
    SuiteNode(suite.id, suite.name, projectId) in suites
    && forall n :: n in suites && n.projectId == projectId && n.name == suite.name ==> n.id == suite.id
  }

  lemma {:induction false} SameNameAppended(cases: seq<TestCase>, c: TestCase, name: string, suiteId: nat)
    ensures SameNameInSuite(cases + [c], name, suiteId) ==
            if SameNameInSuite(cases, name, suiteId).Some? then SameNameInSuite(cases, name, suiteId)
            else if c.name == name && c.suiteId == suiteId then Some(c) else None
  {
    if cases != [] {
      assert (cases + [c])[1..] == cases[1..] + [c];
      SameNameAppended(cases[1..], c, name, suiteId);
    }
  }

  /** With suite names unique in the project, the server's lookup by case and suite name
      finds the first case of that name in that very suite. */
  lemma {:induction false} LookupBySuiteName(cases: seq<TestCase>, suites: seq<SuiteNode>, caseName: string, suite: TestSuite, projectId: nat)
    requires SuiteNamedOnce(suites, suite, projectId)
    ensures FirstCaseIn(cases, suites, caseName, suite.name, projectId)
            == if SameNameInSuite(cases, caseName, suite.id).Some? then Some(SameNameInSuite(cases, caseName, suite.id).value.id) else None
  {
    if cases != [] {
      LookupBySuiteName(cases[1..], suites, caseName, suite, projectId);
      if cases[0].suiteId == suite.id {
        assert SuiteNode(suite.id, suite.name, projectId) in suites;
      }
    }
  }

  /** Once `createTestCase` has stored a case whose steps repeat no action, running it again
      with the same steps reuses that case and stores nothing. */
  lemma CaseForSettles(db: Db, caseName: string, suite: TestSuite, project: TestProject, steps: seq<TestCaseStep>)
    requires db.readFault.None? && DistinctActions(steps)
    requires FirstProjectNamed(db.projects, project.name) == Some(project)
    requires SuiteNamedOnce(db.suites, suite, project.id)
    ensures var (r, db1) := CaseFor(db, caseName, suite, project, steps);
            r.Ok? ==> CaseFor(db1, caseName, suite, project, steps) == (r, db1)
  {
    var (r, db1) := CaseFor(db, caseName, suite, project, steps);
    if r.Ok? && db1 != db {
      var c := NewCase(db, caseName, suite.id, suite.testProjectId, steps).0.value;
      assert db1.cases == db.cases + [c];
      SameNameAppended(db.cases, c, caseName, suite.id);
      LookupBySuiteName(db1.cases, db1.suites, caseName, suite, project.id);
      assert FindCaseId(db1, caseName, suite.name, project.name) == Some(c.id);
      assert LatestVersion(db1.cases, c.id) == Some(c);
      assert StepsMatch(steps, c.steps);
    }
  }

  /** `addTestCaseToPlan` changes nothing but the plan links, and only adds to them. */
  lemma MembershipForLinksOnly(db: Db, testCase: TestCase, plan: Option<TestPlan>, build: Option<Build>)
    ensures var (r, db1) := MembershipFor(db, testCase, plan, build);
            db1 == db.(links := db1.links) && db.links <= db1.links
  {
  }

  /** `setTestResult` reports one execution, with the next id and the given case, plan,
      build, status and notes, or changes nothing when it fails. */
  lemma ResultForFacts(db: Db, testCase: TestCase, plan: Option<TestPlan>, build: Option<Build>, status: Option<ExecutionStatus>, notes: string)
    ensures var (r, db1) := ResultFor(db, testCase, plan, build, status, notes);
            (r.Ok? ==> plan.Some? && build.Some? && status.Some?
                       && db1 == db.(executions := db1.executions, nextId := db.nextId + 1)
                       && db1.executions == db.executions + [Execution(db.nextId, testCase.id, plan.value.id, build.value.id, status.value, notes)]
                       && r.value == (if db.answersReports then Some(db.nextId) else None))
            && (r.Err? ==> db1 == db)
  {
  }
}
