/** The legacy `testng/TestlinkIntegrationContext`. It keeps one plan per project under
    the fixed name "TestNGAutomation", looked up by name and created when the server
    reports it missing, and it can also list the cases of a suite. The remaining calls are
    those of the current context. */
module LegacyGateway {
  import opened Results
  import opened Remote
  import opened GatewayRules
  import opened GatewaySpec
  import opened GatewayFacts
  import opened ProjectHandle

  const PlanName := "TestNGAutomation"

  /** `getPlan`: the project's plan with the fixed name, or a new one. */
  function PlanFor(db: Db, project: TestProject): (Result<TestPlan>, Db) {
    var found := PlanByName(db, PlanName, project.name);
    if found.Ok? then (found, db)
    else if !IsNotFound(found.error) then (found, db)
    else NewPlan(db, PlanName, project.name)
  }

  /** `getProject`: the project by name (created when missing) with its plan. */
  function ProjectFor(db: Db, projectName: string): (Result<(TestProject, TestPlan)>, Db) {
    var (project, db1) := ProjectLookupFor(db, projectName);
    if project.Err? then (Err(project.error), db1)
    else
      var (plan, db2) := PlanFor(db1, project.value);
      if plan.Err? then (Err(plan.error), db2) else (Ok((project.value, plan.value)), db2)
  }

  /** `getTestCases(suite)`: the suite's cases, or none when the server reports the suite missing. */
  function SuiteCasesFor(db: Db, suite: TestSuite): Result<seq<TestCase>> {
    var listed := SuiteCases(db, suite.id);
    if listed.Err? && IsNotFound(listed.error) then Ok([]) else listed
  }

  /** No project has two plans with this name. */
  ghost predicate NamedOnce(plans: seq<TestPlan>, name: string) {
    forall i, j :: 0 <= i < j < |plans| && plans[i].name == name && plans[j].name == name
                   ==> plans[i].projectId != plans[j].projectId
  }

  lemma {:induction false} FirstPlanAppended(plans: seq<TestPlan>, p: TestPlan, name: string, projectId: nat)
    requires FirstPlanNamed(plans, name, projectId).None? && p.name == name && p.projectId == projectId
    ensures FirstPlanNamed(plans + [p], name, projectId) == Some(p)
  {
    if plans != [] {
      assert (plans + [p])[1..] == plans[1..] + [p];
      FirstPlanAppended(plans[1..], p, name, projectId);
    }
  }

  /** The plan `getPlan` settles on has the fixed name, a later call returns it again
      without creating anything, and no project ever gets a second plan of that name. */
  lemma PlanForSettles(db: Db, project: TestProject)
    requires db.readFault.None?
    ensures var (r, db1) := PlanFor(db, project);
            (NamedOnce(db.plans, PlanName) ==> NamedOnce(db1.plans, PlanName))
            && (r.Ok? ==> r.value.name == PlanName && PlanFor(db1, project) == (r, db1))
  {
    var (r, db1) := PlanFor(db, project);
    var owner := FirstProjectNamed(db.projects, project.name);
    if owner.Some? && FirstPlanNamed(db.plans, PlanName, owner.value.id).None? && r.Ok? {
      var p := TestPlan(db.nextId, PlanName, owner.value.id);
      assert db1.plans == db.plans + [p];
      FirstPlanAppended(db.plans, p, PlanName, owner.value.id);
      if NamedOnce(db.plans, PlanName) {
        forall i, j | 0 <= i < j < |db1.plans| && db1.plans[i].name == PlanName && db1.plans[j].name == PlanName
          ensures db1.plans[i].projectId != db1.plans[j].projectId
        {
          if j == |db.plans| {
            assert db.plans[i] in db.plans;
          }
        }
      }
    }
  }

  /** Running `getProject` again against the server it left behind answers the same
      project and plan and creates nothing. */
  lemma ProjectForSettles(db: Db, projectName: string)
    requires db.readFault.None?
    ensures var (r, db1) := ProjectFor(db, projectName);
            r.Ok? ==> ProjectFor(db1, projectName) == (r, db1)
  {
    var (project, db0) := ProjectLookupFor(db, projectName);
    var (r, db1) := ProjectFor(db, projectName);
    if r.Ok? {
      ProjectLookupSettles(db, projectName);
      PlanForSettles(db0, project.value);
      assert db1.projects == db0.projects;
      assert FirstProjectNamed(db1.projects, projectName) == Some(project.value);
      assert ProjectLookupFor(db1, projectName) == (project, db1);
    }
  }

  /** The legacy gateway object; `remoteApi` is `null` when no connection could be set up. */
  class TestlinkIntegrationContext {
    const remoteApi: RemoteStore?

    constructor (remoteApi: RemoteStore?)
      ensures this.remoteApi == remoteApi
    {
      this.remoteApi := remoteApi;
    }

    /** `getProject` */
    method GetProject(projectName: string) returns (r: Result<TestlinkProject>)
      modifies remoteApi
      ensures remoteApi == null ==> r == Err(ApiError(NoConnection))
      ensures remoteApi != null ==>
        var (expected, db1) := ProjectFor(old(remoteApi.db), projectName);
        remoteApi.db == db1 && r.Ok? == expected.Ok?
        && (r.Err? ==> r.error == expected.error)
        && (r.Ok? ==> fresh(r.value) && r.value.project == expected.value.0
                      && r.value.plan == Some(expected.value.1) && r.value.build == None)
    {
      if remoteApi == null {
        return Err(ApiError(NoConnection));
      }
      var found := remoteApi.GetTestProjectByName(projectName);
      var project: TestProject;
      if found.Ok? {
        project := found.value;
      } else {
        var verdict := CheckApiExceptionNotFound(found.error);
        if verdict.Fail? {
          return Err(verdict.error);
        }
        var prefix := ProjectPrefix(projectName);
        if prefix.Err? {
          return Err(prefix.error);
        }
        var created := remoteApi.CreateTestProject(projectName, prefix.value);
        if created.Err? {
          return Err(created.error);
        }
        project := created.value;
      }
      var handle := new TestlinkProject(project);
      var plan := GetPlan(project);
      if plan.Err? {
        return Err(plan.error);
      }
      handle.SetPlan(Some(plan.value));
      r := Ok(handle);
    }

    /** `getPlan` */
    method GetPlan(project: TestProject) returns (r: Result<TestPlan>)
      modifies remoteApi
      ensures remoteApi == null ==> r == Err(ApiError(NoConnection))
      ensures remoteApi != null ==> (r, remoteApi.db) == PlanFor(old(remoteApi.db), project)
    {
      if remoteApi == null {
        return Err(ApiError(NoConnection));
      }
      r := remoteApi.GetTestPlanByName(PlanName, project.name);
      if r.Err? {
        var verdict := CheckApiExceptionNotFound(r.error);
        if verdict.Fail? {
          return;
        }
        r := remoteApi.CreateTestPlan(PlanName, project.name);
      }
    }

    /** `getBuild` */
    method GetBuild(plan: Option<TestPlan>, buildName: string) returns (r: Result<Build>)
      modifies remoteApi
      ensures remoteApi == null ==> r == Err(ApiError(NoConnection))
      ensures remoteApi != null ==> (r, remoteApi.db) == BuildFor(old(remoteApi.db), plan, buildName)
    {
      if remoteApi == null {
        return Err(ApiError(NoConnection));
      }
      if plan.None? {
        return Err(NullPointer);
      }
      var listed := remoteApi.GetBuildsForTestPlan(plan.value.id);
      if listed.Err? {
        var verdict := CheckApiExceptionNotFound(listed.error);
        if verdict.Fail? {
          return Err(verdict.error);
        }
      } else {
        var builds := listed.value;
        for i := 0 to |builds|
          invariant forall j :: 0 <= j < i ==> builds[j].name != buildName
        {
          if builds[i].name == buildName {
            FirstBuildNamedAt(builds, buildName, i);
            return Ok(builds[i]);
          }
        }
      }
      r := remoteApi.CreateBuild(plan.value.id, buildName);
    }

    /** `getSuite` */
    method GetSuite(project: TestProject, suiteName: string) returns (r: Result<TestSuite>)
      modifies remoteApi
      ensures remoteApi == null ==> r == Err(ApiError(NoConnection))
      ensures remoteApi != null ==> (r, remoteApi.db) == SuiteFor(old(remoteApi.db), project, suiteName)
    {
      if remoteApi == null {
        return Err(ApiError(NoConnection));
      }
      var listed := remoteApi.GetFirstLevelTestSuitesForTestProject(project.id);
      if listed.Err? {
        var verdict := CheckApiExceptionNotFound(listed.error);
        if verdict.Fail? {
          return Err(verdict.error);
        }
      } else {
        var suites := listed.value;
        for i := 0 to |suites|
          invariant forall j :: 0 <= j < i ==> suites[j].name != suiteName
        {
          if suites[i].name == suiteName {
            FirstSuiteNamedAt(suites, suiteName, i);
            return Ok(suites[i].(testProjectId := Some(project.id)));
          }
        }
      }
      var created := remoteApi.CreateTestSuite(project.id, suiteName);
      if created.Err? {
        return created;
      }
      r := Ok(created.value.(testProjectId := Some(project.id)));
    }

    /** `getTestCases(suite)`: a query, so the server is left as it was. */
    method GetTestCasesOfSuite(suite: TestSuite) returns (r: Result<seq<TestCase>>)
      ensures remoteApi == null ==> r == Err(ApiError(NoConnection))
      ensures remoteApi != null ==> r == SuiteCasesFor(remoteApi.db, suite)
    {
      if remoteApi == null {
        return Err(ApiError(NoConnection));
      }
      r := remoteApi.GetTestCasesForTestSuite(suite.id);
      if r.Err? {
        var verdict := CheckApiExceptionNotFound(r.error);
        if verdict.Pass? {
          r := Ok([]);
        }
      }
    }

    /** `getTestCases(plan, build)`: a query, so the server is left as it was. */
    method GetTestCases(plan: Option<TestPlan>, build: Option<Build>) returns (r: Result<seq<TestCase>>)
      ensures remoteApi == null ==> r == Err(ApiError(NoConnection))
      ensures remoteApi != null ==> r == PlanCasesFor(remoteApi.db, plan, build)
    {
      if remoteApi == null {
        return Err(ApiError(NoConnection));
      }
      if plan.None? || build.None? {
        return Err(NullPointer);
      }
      var listed := remoteApi.GetTestCasesForTestPlan(plan.value.id);
      if listed.Err? {
        var verdict := CheckApiExceptionNotFound(listed.error);
        if verdict.Fail? {
          return Err(verdict.error);
        }
        return Ok([]);
      }
      r := listed;
    }

    /** `createTestCase` (it checks no connection). */
    method CreateTestCase(caseName: string, suite: TestSuite, project: TestProject, steps: seq<TestCaseStep>) returns (r: Result<TestCase>)
      modifies remoteApi
      ensures remoteApi == null ==> r == Err(NullPointer)
      ensures remoteApi != null ==> (r, remoteApi.db) == CaseFor(old(remoteApi.db), caseName, suite, project, steps)
    {
      if remoteApi == null {
        return Err(NullPointer);
      }
      var failure: Option<Error> := None;
      var found := remoteApi.GetTestCaseIdByName(caseName, suite.name, project.name);
      if found.Ok? {
        var existing := remoteApi.GetTestCase(found.value);
        if existing.Ok? {
          var same := CompareSteps(steps, existing.value.steps);
          if same {
            return existing;
          }
        } else {
          failure := Some(existing.error);
        }
      } else {
        failure := Some(found.error);
      }
      if failure.Some? {
        var verdict := CheckApiExceptionNotFound(failure.value);
        if verdict.Fail? {
          return Err(verdict.error);
        }
      }
      var created := remoteApi.CreateTestCase(caseName, suite.id, suite.testProjectId, steps);
      if created.Err? {
        return created;
      }
      r := remoteApi.GetTestCase(created.value.id);
    }

    /** `addTestCaseToPlan` */
    method AddTestCaseToPlan(testCase: TestCase, plan: Option<TestPlan>, build: Option<Build>) returns (r: Result<()>)
      modifies remoteApi
      ensures remoteApi == null ==> r == Err(ApiError(NoConnection))
      ensures remoteApi != null ==> (r, remoteApi.db) == MembershipFor(old(remoteApi.db), testCase, plan, build)
    {
      var listed := GetTestCases(plan, build);
      if listed.Err? {
        return Err(listed.error);
      }
      var cases := listed.value;
      for i := 0 to |cases|
        invariant forall j :: 0 <= j < i ==> !(cases[j].id == testCase.id && testCase.version <= cases[j].version)
      {
        if cases[i].id == testCase.id && testCase.version <= cases[i].version {
          return Ok(());
        }
      }
      r := remoteApi.AddTestCaseToTestPlan(plan.value.id, testCase.id, testCase.version);
    }

    /** `setTestResult` with `reportTestCaseResult`: the execution id, if the server answers one. */
    method SetTestResult(testCase: TestCase, plan: Option<TestPlan>, build: Option<Build>, status: Option<ExecutionStatus>, notes: string) returns (r: Result<Option<nat>>)
      modifies remoteApi
      ensures remoteApi == null ==> r == Err(NullPointer)
      ensures remoteApi != null ==> (r, remoteApi.db) == ResultFor(old(remoteApi.db), testCase, plan, build, status, notes)
    {
      if plan.None? || build.None? || status.None? || remoteApi == null {
        return Err(NullPointer);
      }
      r := remoteApi.ReportTestCaseResult(testCase.id, plan.value.id, status.value, build.value.id, notes);
    }
  }
}
