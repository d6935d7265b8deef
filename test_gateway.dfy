/** The current `test/TestlinkIntegrationContext`: the gateway through which the listener
    reaches the TestLink server. It differs from the legacy one in how it picks the plan:
    the automation plan with the highest id among those whose name starts with
    "TestNGAutomation-", or a new one stamped with the current time. */
module TestGateway {
  import opened Results
  import opened Text
  import opened Remote
  import opened GatewayRules
  import opened GatewaySpec
  import opened GatewayFacts
  import opened ProjectHandle

  const AutomationPrefix := "TestNGAutomation-"

  predicate IsAutomationPlan(plan: TestPlan) {
    AutomationPrefix <= plan.name
  }

  /** The automation plan with the highest id; among equal ids the first one listed. */
  function NewestPlan(plans: seq<TestPlan>): (r: Option<TestPlan>)
    ensures r.None? <==> forall p :: p in plans ==> !IsAutomationPlan(p)
    ensures r.Some? ==> r.value in plans && IsAutomationPlan(r.value)
                        && forall p :: p in plans && IsAutomationPlan(p) ==> p.id <= r.value.id
  {
    if plans == [] then None
    else
      var prior := NewestPlan(plans[..|plans| - 1]);
      var last := plans[|plans| - 1];
      assert forall p :: p in plans ==> p in plans[..|plans| - 1] || p == last;
      if IsAutomationPlan(last) && (prior.None? || prior.value.id < last.id) then Some(last) else prior
  }

  /** `getPlan`: the newest automation plan of the project, or a new one named after the
      timestamp `now`. A not-found error, from the listing or the creation, yields no plan. */
  function PlanFor(db: Db, project: TestProject, now: string): (Result<Option<TestPlan>>, Db) {
    var listed := ProjectPlans(db, project.id);
    if listed.Err? then (if IsNotFound(listed.error) then Ok(None) else Err(listed.error), db)
    else if NewestPlan(listed.value).Some? then (Ok(NewestPlan(listed.value)), db)
    else
      var (created, db1) := NewPlan(db, AutomationPrefix + now, project.name);
      if created.Ok? then (Ok(Some(created.value)), db1)
      else (if IsNotFound(created.error) then Ok(None) else Err(created.error), db1)
  }

  /** `getProject`: the project by name (created when missing) with its plan. */
  function ProjectFor(db: Db, projectName: string, now: string): (Result<(TestProject, Option<TestPlan>)>, Db) {
    var (project, db1) := ProjectLookupFor(db, projectName);
    if project.Err? then (Err(project.error), db1)
    else
      var (plan, db2) := PlanFor(db1, project.value, now);
      if plan.Err? then (Err(plan.error), db2) else (Ok((project.value, plan.value)), db2)
  }

  /** `getPlan` changes no project. */
  lemma PlanForKeepsProjects(db: Db, project: TestProject, now: string)
    ensures PlanFor(db, project, now).1.projects == db.projects
  {
  }

  /** The plan `getPlan` settles on is an automation plan of the project, and a later call,
      at any other time, picks the same plan and creates nothing. */
  lemma PlanForSettles(db: Db, project: TestProject, now: string, later: string)
    requires db.readFault.None?
    requires FirstProjectNamed(db.projects, project.name) == Some(project)
    ensures var (r, db1) := PlanFor(db, project, now);
            r.Ok? && r.value.Some? ==>
              IsAutomationPlan(r.value.value) && r.value.value.projectId == project.id
              && PlanFor(db1, project, later) == (r, db1)
  {
    var listing := PlansOf(db.plans, project.id);
    var (r, db1) := PlanFor(db, project, now);
    if NewestPlan(listing).Some? {
      assert NewestPlan(listing).value in listing;
    } else if r.Ok? && r.value.Some? {
      var p := TestPlan(db.nextId, AutomationPrefix + now, project.id);
      assert db1.plans == db.plans + [p];
      assert db1.plans[..|db1.plans| - 1] == db.plans;
      assert PlansOf(db1.plans, project.id) == listing + [p];
      assert (listing + [p])[..|listing|] == listing;
      assert AutomationPrefix <= p.name;
    }
  }

  /** Running `getProject` again against the server it left behind, at any later time,
      answers the same project and plan and creates nothing: a second test run reuses them. */
  lemma ProjectForSettles(db: Db, projectName: string, now: string, later: string)
    requires db.readFault.None?
    ensures var (r, db1) := ProjectFor(db, projectName, now);
            r.Ok? && r.value.1.Some? ==> ProjectFor(db1, projectName, later) == (r, db1)
  {
    var (project, db0) := ProjectLookupFor(db, projectName);
    var (r, db1) := ProjectFor(db, projectName, now);
    if r.Ok? && r.value.1.Some? {
      ProjectLookupSettles(db, projectName);
      PlanForSettles(db0, project.value, now, later);
      PlanForKeepsProjects(db0, project.value, now);
      assert FirstProjectNamed(db1.projects, projectName) == Some(project.value);
      assert ProjectLookupFor(db1, projectName) == (project, db1);
    }
  }

  /** The gateway object; `remoteApi` is `null` when no connection could be set up. */
  class TestlinkIntegrationContext {
    const remoteApi: RemoteStore?

    constructor (remoteApi: RemoteStore?)
      ensures this.remoteApi == remoteApi
    {
      this.remoteApi := remoteApi;
    }

    /** `getProject` */
    method GetProject(projectName: string, now: string) returns (r: Result<TestlinkProject>)
      modifies remoteApi
      ensures remoteApi == null ==> r == Err(ApiError(NoConnection))
      ensures remoteApi != null ==>
        var (expected, db1) := ProjectFor(old(remoteApi.db), projectName, now);
        remoteApi.db == db1 && r.Ok? == expected.Ok?
        && (r.Err? ==> r.error == expected.error)
        && (r.Ok? ==> fresh(r.value) && r.value.project == expected.value.0
                      && r.value.plan == expected.value.1 && r.value.build == None)
    {
      if remoteApi == null {
        return Err(ApiError(NoConnection));
      }
      var found := remoteApi.GetTestProjectByName(projectName);
      var project: TestProject;
      if found.Ok? {
        project := found.value;
      } else {
        var verdict := CheckApiExceptionNotFound(found.error);
        if verdict.Fail? {
          return Err(verdict.error);
        }
        var prefix := ProjectPrefix(projectName);
        if prefix.Err? {
          return Err(prefix.error);
        }
        var created := remoteApi.CreateTestProject(projectName, prefix.value);
        if created.Err? {
          return Err(created.error);
        }
        project := created.value;
      }
      var handle := new TestlinkProject(project);
      var plan := GetPlan(project, now);
      if plan.Err? {
        return Err(plan.error);
      }
      handle.SetPlan(plan.value);
      r := Ok(handle);
    }

    /** `getPlan`, with the loop that keeps the automation plan of highest id. */
    method GetPlan(project: TestProject, now: string) returns (r: Result<Option<TestPlan>>)
      modifies remoteApi
      ensures remoteApi == null ==> r == Err(ApiError(NoConnection))
      ensures remoteApi != null ==> (r, remoteApi.db) == PlanFor(old(remoteApi.db), project, now)
    {
      if remoteApi == null {
        return Err(ApiError(NoConnection));
      }
      var listed := remoteApi.GetProjectTestPlans(project.id);
      if listed.Err? {
        var verdict := CheckApiExceptionNotFound(listed.error);
        if verdict.Fail? {
          return Err(verdict.error);
        }
        return Ok(None);
      }
      var plans := listed.value;
      var plan: Option<TestPlan> := None;
      for i := 0 to |plans|
        invariant plan == NewestPlan(plans[..i])
      {
        assert plans[..i + 1][..i] == plans[..i];
        if IsAutomationPlan(plans[i]) && (plan.None? || plan.value.id < plans[i].id) {
          plan := Some(plans[i]);
        }
      }
      assert plans[..|plans|] == plans;
      if plan.Some? {
        return Ok(plan);
      }
      var created := CreatePlan(project, now);
      if created.Err? {
        var verdict := CheckApiExceptionNotFound(created.error);
        if verdict.Fail? {
          return Err(verdict.error);
        }
        return Ok(None);
      }
      r := Ok(Some(created.value));
    }

    /** `createPlan`: a plan named after the timestamp `now` (it checks no connection). */
    method CreatePlan(project: TestProject, now: string) returns (r: Result<TestPlan>)
      modifies remoteApi
      ensures remoteApi == null ==> r == Err(NullPointer)
      ensures remoteApi != null ==>
        (r, remoteApi.db) == NewPlan(old(remoteApi.db), AutomationPrefix + now, project.name)
    {
      if remoteApi == null {
        return Err(NullPointer);
      }
      r := remoteApi.CreateTestPlan(AutomationPrefix + now, project.name);
    }

    /** `getBuild` */
    method GetBuild(plan: Option<TestPlan>, buildName: string) returns (r: Result<Build>)
      modifies remoteApi
      ensures remoteApi == null ==> r == Err(ApiError(NoConnection))
      ensures remoteApi != null ==> (r, remoteApi.db) == BuildFor(old(remoteApi.db), plan, buildName)
    {
      if remoteApi == null {
        return Err(ApiError(NoConnection));
      }
      if plan.None? {
        return Err(NullPointer);
      }
      var listed := remoteApi.GetBuildsForTestPlan(plan.value.id);
      if listed.Err? {
        var verdict := CheckApiExceptionNotFound(listed.error);
        if verdict.Fail? {
          return Err(verdict.error);
        }
      } else {
        var builds := listed.value;
        for i := 0 to |builds|
          invariant forall j :: 0 <= j < i ==> builds[j].name != buildName
        {
          if builds[i].name == buildName {
            FirstBuildNamedAt(builds, buildName, i);
            return Ok(builds[i]);
          }
        }
      }
      r := remoteApi.CreateBuild(plan.value.id, buildName);
    }

    /** `getSuite` */
    method GetSuite(project: TestProject, suiteName: string) returns (r: Result<TestSuite>)
      modifies remoteApi
      ensures remoteApi == null ==> r == Err(ApiError(NoConnection))
      ensures remoteApi != null ==> (r, remoteApi.db) == SuiteFor(old(remoteApi.db), project, suiteName)
    {
      if remoteApi == null {
        return Err(ApiError(NoConnection));
      }
      var listed := remoteApi.GetFirstLevelTestSuitesForTestProject(project.id);
      if listed.Err? {
        var verdict := CheckApiExceptionNotFound(listed.error);
        if verdict.Fail? {
          return Err(verdict.error);
        }
      } else {
        var suites := listed.value;
        for i := 0 to |suites|
          invariant forall j :: 0 <= j < i ==> suites[j].name != suiteName
        {
          if suites[i].name == suiteName {
            FirstSuiteNamedAt(suites, suiteName, i);
            return Ok(suites[i].(testProjectId := Some(project.id)));
          }
        }
      }
      var created := remoteApi.CreateTestSuite(project.id, suiteName);
      if created.Err? {
        return created;
      }
      r := Ok(created.value.(testProjectId := Some(project.id)));
    }

    /** `getTestCases(plan, build)`: a query, so the server is left as it was. */
    method GetTestCases(plan: Option<TestPlan>, build: Option<Build>) returns (r: Result<seq<TestCase>>)
      ensures remoteApi == null ==> r == Err(ApiError(NoConnection))
      ensures remoteApi != null ==> r == PlanCasesFor(remoteApi.db, plan, build)
    {
      if remoteApi == null {
        return Err(ApiError(NoConnection));
      }
      if plan.None? || build.None? {
        return Err(NullPointer);
      }
      var listed := remoteApi.GetTestCasesForTestPlan(plan.value.id);
      if listed.Err? {
        var verdict := CheckApiExceptionNotFound(listed.error);
        if verdict.Fail? {
          return Err(verdict.error);
        }
        return Ok([]);
      }
      r := listed;
    }

    /** `createTestCase` (it checks no connection). */
    method CreateTestCase(caseName: string, suite: TestSuite, project: TestProject, steps: seq<TestCaseStep>) returns (r: Result<TestCase>)
      modifies remoteApi
      ensures remoteApi == null ==> r == Err(NullPointer)
      ensures remoteApi != null ==> (r, remoteApi.db) == CaseFor(old(remoteApi.db), caseName, suite, project, steps)
    {
      if remoteApi == null {
        return Err(NullPointer);
      }
      var failure: Option<Error> := None;
      var found := remoteApi.GetTestCaseIdByName(caseName, suite.name, project.name);
      if found.Ok? {
        var existing := remoteApi.GetTestCase(found.value);
        if existing.Ok? {
          var same := CompareSteps(steps, existing.value.steps);
          if same {
            return existing;
          }
        } else {
          failure := Some(existing.error);
        }
      } else {
        failure := Some(found.error);
      }
      if failure.Some? {
        var verdict := CheckApiExceptionNotFound(failure.value);
        if verdict.Fail? {
          return Err(verdict.error);
        }
      }
      var created := remoteApi.CreateTestCase(caseName, suite.id, suite.testProjectId, steps);
      if created.Err? {
        return created;
      }
      r := remoteApi.GetTestCase(created.value.id);
    }

    /** `addTestCaseToPlan` */
    method AddTestCaseToPlan(testCase: TestCase, plan: Option<TestPlan>, build: Option<Build>) returns (r: Result<()>)
      modifies remoteApi
      ensures remoteApi == null ==> r == Err(ApiError(NoConnection))
      ensures remoteApi != null ==> (r, remoteApi.db) == MembershipFor(old(remoteApi.db), testCase, plan, build)
    {
      var listed := GetTestCases(plan, build);
      if listed.Err? {
        return Err(listed.error);
      }
      var cases := listed.value;
      for i := 0 to |cases|
        invariant forall j :: 0 <= j < i ==> !(cases[j].id == testCase.id && testCase.version <= cases[j].version)
      {
        if cases[i].id == testCase.id && testCase.version <= cases[i].version {
          return Ok(());
        }
      }
      r := remoteApi.AddTestCaseToTestPlan(plan.value.id, testCase.id, testCase.version);
    }

    /** `setTestResult` with `reportTestCaseResult`: the execution id, if the server answers one. */
    method SetTestResult(testCase: TestCase, plan: Option<TestPlan>, build: Option<Build>, status: Option<ExecutionStatus>, notes: string) returns (r: Result<Option<nat>>)
      modifies remoteApi
      ensures remoteApi == null ==> r == Err(NullPointer)
      ensures remoteApi != null ==> (r, remoteApi.db) == ResultFor(old(remoteApi.db), testCase, plan, build, status, notes)
    {
      if plan.None? || build.None? || status.None? || remoteApi == null {
        return Err(NullPointer);
      }
      r := remoteApi.ReportTestCaseResult(testCase.id, plan.value.id, status.value, build.value.id, notes);
    }

    /** `saveAttachment`: an attachment whose content cannot be read is skipped. */
    method SaveAttachment(executionId: Option<nat>, attachment: Attachment) returns (r: Result<()>)
      modifies remoteApi
      ensures remoteApi == null ==> r == (if attachment.base64Lines.None? then Ok(()) else Err(NullPointer))
      ensures remoteApi != null ==> (r, remoteApi.db) == AttachmentFor(old(remoteApi.db), executionId, attachment)
    {
      if attachment.base64Lines.None? {
        return Ok(());
      }
      var content := JoinLines(attachment.base64Lines.value);
      if remoteApi == null {
        return Err(NullPointer);
      }
      r := remoteApi.UploadExecutionAttachment(executionId, AttachmentKey(attachment), CreatedBy,
                                               AttachmentFileName(attachment), attachment.contentType, content);
    }
  }
}
