/** An in-memory stand-in for the TestLink server behind the `TestLinkAPI` client.
    The server is opaque to the modelled code: all it sees are the calls below, each of
    which either looks something up (and may raise an API error) or appends a record.
    Identifiers are drawn from one counter, so a newer entity always has a larger id. */
module Remote {
  import opened Results

  datatype ExecutionStatus = Passed | Failed | Blocked

  datatype TestProject = TestProject(id: nat, name: string, prefix: string)

  datatype TestPlan = TestPlan(id: nat, name: string, projectId: nat)

  datatype Build = Build(id: nat, name: string, planId: nat)

  /** A suite as the client sees it; `testProjectId` is a client-side field that the
      server leaves unset and the caller may fill in. */
  datatype TestSuite = TestSuite(id: nat, name: string, testProjectId: Option<nat>)

  /** A suite as the server stores it, under its project. */
  datatype SuiteNode = SuiteNode(id: nat, name: string, projectId: nat)

  /** One step of a remote test case. The client leaves `number` unset unless it numbers the steps. */
  datatype TestCaseStep = TestCaseStep(number: Option<int>, actions: string, expectedResults: string)

  /** One version of a remote test case; all versions of a case share its `id`. */
  datatype TestCase = TestCase(id: nat, version: nat, name: string, suiteId: nat, steps: seq<TestCaseStep>)

  /** A case version assigned to a plan. */
  datatype PlanLink = PlanLink(planId: nat, testCase: TestCase)

  datatype Execution = Execution(id: nat, caseId: nat, planId: nat, buildId: nat, status: ExecutionStatus, notes: string)

  datatype Upload = Upload(executionId: nat, title: string, description: string, fileName: string, fileType: string, content: string)

  /** The whole server state. `readFault`/`writeFault`, when set, make every query or every
      creating call raise an API error with that message (an unreachable or failing server);
      `answersReports` is false when the server answers result reports with something other
      than a response array, so that the client sees no execution id. */
  datatype Db = Db(
    projects: seq<TestProject>,
    plans: seq<TestPlan>,
    builds: seq<Build>,
    suites: seq<SuiteNode>,
    cases: seq<TestCase>,
    links: seq<PlanLink>,
    executions: seq<Execution>,
    uploads: seq<Upload>,
    nextId: nat,
    readFault: Option<string>,
    writeFault: Option<string>,
    answersReports: bool)

  const ProjectMissing := "The test project does not exist."
  const PlanMissing := "The test plan does not exist."
  const CaseMissing := "No test case exists with this name."
  const VersionMissing := "The test case version does not exist."
  const DuplicateSuite := "A test suite with this name is already present at this level."
  const AlreadyLinked := "Another version of this test case is already linked to the test plan."
  const ProjectIdMissing := "Missing parameter: test project id."
  const ExecutionIdMissing := "Missing parameter: execution id."

  // ----- lookups used by the queries -----

  function FirstProjectNamed(projects: seq<TestProject>, name: string): (r: Option<TestProject>)
    ensures r.Some? ==> r.value in projects && r.value.name == name
    ensures r.None? ==> forall p :: p in projects ==> p.name != name
  {
    if projects == [] then None
    else if projects[0].name == name then Some(projects[0])
    else FirstProjectNamed(projects[1..], name)
  }

  function FirstPlanNamed(plans: seq<TestPlan>, name: string, projectId: nat): (r: Option<TestPlan>)
    ensures r.Some? ==> r.value in plans && r.value.name == name && r.value.projectId == projectId
    ensures r.None? ==> forall p :: p in plans ==> !(p.name == name && p.projectId == projectId)
  {
    if plans == [] then None
    else if plans[0].name == name && plans[0].projectId == projectId then Some(plans[0])
    else FirstPlanNamed(plans[1..], name, projectId)
  }

  function PlansOf(plans: seq<TestPlan>, projectId: nat): (r: seq<TestPlan>)
    ensures forall p :: p in r <==> p in plans && p.projectId == projectId
  {
    if plans == [] then []
    else PlansOf(plans[..|plans| - 1], projectId)
         + (if plans[|plans| - 1].projectId == projectId then [plans[|plans| - 1]] else [])
  }

  function BuildsOf(builds: seq<Build>, planId: nat): (r: seq<Build>)
    ensures forall b :: b in r <==> b in builds && b.planId == planId
  {
    if builds == [] then []
    else BuildsOf(builds[..|builds| - 1], planId)
         + (if builds[|builds| - 1].planId == planId then [builds[|builds| - 1]] else [])
  }

  function SuitesOf(suites: seq<SuiteNode>, projectId: nat): (r: seq<TestSuite>)
    ensures forall s :: s in r ==> s.testProjectId.None?
    ensures forall n :: n in suites && n.projectId == projectId ==> TestSuite(n.id, n.name, None) in r
    ensures forall s :: s in r ==> SuiteNode(s.id, s.name, projectId) in suites
  {
    if suites == [] then []
    else SuitesOf(suites[..|suites| - 1], projectId)
         + (if suites[|suites| - 1].projectId == projectId
            then [TestSuite(suites[|suites| - 1].id, suites[|suites| - 1].name, None)] else [])
  }

  function CasesOfPlan(links: seq<PlanLink>, planId: nat): (r: seq<TestCase>)
    ensures forall c :: c in r <==> PlanLink(planId, c) in links
  {
    if links == [] then []
    else CasesOfPlan(links[..|links| - 1], planId)
         + (if links[|links| - 1].planId == planId then [links[|links| - 1].testCase] else [])
  }

  function CasesOfSuite(cases: seq<TestCase>, suiteId: nat): (r: seq<TestCase>)
    ensures forall c :: c in r <==> c in cases && c.suiteId == suiteId
  {
    if cases == [] then []
    else (if cases[0].suiteId == suiteId then [cases[0]] else []) + CasesOfSuite(cases[1..], suiteId)
  }

  /** The newest stored version of the case with this id: the last one appended. */
  function LatestVersion(cases: seq<TestCase>, id: nat): (r: Option<TestCase>)
    ensures r.Some? ==> r.value in cases && r.value.id == id
    ensures r.None? ==> forall c :: c in cases ==> c.id != id
  {
    if cases == [] then None
    else if cases[|cases| - 1].id == id then Some(cases[|cases| - 1])
    else LatestVersion(cases[..|cases| - 1], id)
  }

  /** The id of the first stored case with this name that lives in a suite with this
      name of the given project. */
  function FirstCaseIn(cases: seq<TestCase>, suites: seq<SuiteNode>, caseName: string, suiteName: string, projectId: nat): (r: Option<nat>)
    ensures r.Some? ==> exists c :: c in cases && c.id == r.value && c.name == caseName
  {
    if cases == [] then None
    else if cases[0].name == caseName
            && exists n :: n in suites && n.id == cases[0].suiteId && n.name == suiteName && n.projectId == projectId
    then Some(cases[0].id)
    else FirstCaseIn(cases[1..], suites, caseName, suiteName, projectId)
  }

  function FindCaseId(db: Db, caseName: string, suiteName: string, projectName: string): Option<nat> {
    match FirstProjectNamed(db.projects, projectName)
    case None => None
    case Some(p) => FirstCaseIn(db.cases, db.suites, caseName, suiteName, p.id)
  }

  /** A case with this name already lives in this suite (the duplicate test of `createTestCase`). */
  function SameNameInSuite(cases: seq<TestCase>, name: string, suiteId: nat): (r: Option<TestCase>)
    ensures r.Some? ==> r.value in cases && r.value.name == name && r.value.suiteId == suiteId
  {
    if cases == [] then None
    else if cases[0].name == name && cases[0].suiteId == suiteId then Some(cases[0])
    else SameNameInSuite(cases[1..], name, suiteId)
  }

  function VersionOf(cases: seq<TestCase>, id: nat, version: nat): (r: Option<TestCase>)
    ensures r.Some? ==> r.value in cases && r.value.id == id && r.value.version == version
  {
    if cases == [] then None
    else if cases[0].id == id && cases[0].version == version then Some(cases[0])
    else VersionOf(cases[1..], id, version)
  }

  function LinkedIds(links: seq<PlanLink>, planId: nat): (r: set<nat>)
    ensures forall id :: id in r <==> exists l :: l in links && l.planId == planId && l.testCase.id == id
  {
    set l | l in links && l.planId == planId :: l.testCase.id
  }

  // ----- the server's answer to each client call -----

  function ProjectByName(db: Db, name: string): Result<TestProject> {
    if db.readFault.Some? then Err(ApiError(db.readFault.value))
    else match FirstProjectNamed(db.projects, name)
      case Some(p) => Ok(p)
      case None => Err(ApiError(ProjectMissing))
  }

  function ProjectPlans(db: Db, projectId: nat): Result<seq<TestPlan>> {
    if db.readFault.Some? then Err(ApiError(db.readFault.value)) else Ok(PlansOf(db.plans, projectId))
  }

  function PlanByName(db: Db, planName: string, projectName: string): Result<TestPlan> {
    if db.readFault.Some? then Err(ApiError(db.readFault.value))
    else match FirstProjectNamed(db.projects, projectName)
      case None => Err(ApiError(ProjectMissing))
      case Some(p) =>
        match FirstPlanNamed(db.plans, planName, p.id)
        case Some(plan) => Ok(plan)
        case None => Err(ApiError(PlanMissing))
  }

  function PlanBuilds(db: Db, planId: nat): Result<seq<Build>> {
    if db.readFault.Some? then Err(ApiError(db.readFault.value)) else Ok(BuildsOf(db.builds, planId))
  }

  function ProjectSuites(db: Db, projectId: nat): Result<seq<TestSuite>> {
    if db.readFault.Some? then Err(ApiError(db.readFault.value)) else Ok(SuitesOf(db.suites, projectId))
  }

  function PlanCases(db: Db, planId: nat): Result<seq<TestCase>> {
    if db.readFault.Some? then Err(ApiError(db.readFault.value)) else Ok(CasesOfPlan(db.links, planId))
  }

  function SuiteCases(db: Db, suiteId: nat): Result<seq<TestCase>> {
    if db.readFault.Some? then Err(ApiError(db.readFault.value)) else Ok(CasesOfSuite(db.cases, suiteId))
  }

  function CaseIdByName(db: Db, caseName: string, suiteName: string, projectName: string): Result<nat> {
    if db.readFault.Some? then Err(ApiError(db.readFault.value))
    else match FindCaseId(db, caseName, suiteName, projectName)
      case Some(id) => Ok(id)
      case None => Err(ApiError(CaseMissing))
  }

  function CaseById(db: Db, id: nat): Result<TestCase> {
    if db.readFault.Some? then Err(ApiError(db.readFault.value))
    else match LatestVersion(db.cases, id)
      case Some(c) => Ok(c)
      case None => Err(ApiError(CaseMissing))
  }

  function NewProject(db: Db, name: string, prefix: string): (Result<TestProject>, Db) {
    if db.writeFault.Some? then (Err(ApiError(db.writeFault.value)), db)
    else
      var p := TestProject(db.nextId, name, prefix);
      (Ok(p), db.(projects := db.projects + [p], nextId := db.nextId + 1))
  }

  function NewPlan(db: Db, name: string, projectName: string): (Result<TestPlan>, Db) {
    if db.writeFault.Some? then (Err(ApiError(db.writeFault.value)), db)
    else match FirstProjectNamed(db.projects, projectName)
      case None => (Err(ApiError(ProjectMissing)), db)
      case Some(project) =>
        var p := TestPlan(db.nextId, name, project.id);
        (Ok(p), db.(plans := db.plans + [p], nextId := db.nextId + 1))
  }

  function NewBuild(db: Db, planId: nat, name: string): (Result<Build>, Db) {
    if db.writeFault.Some? then (Err(ApiError(db.writeFault.value)), db)
    else
      var b := Build(db.nextId, name, planId);
      (Ok(b), db.(builds := db.builds + [b], nextId := db.nextId + 1))
  }

  /** Creation with `ActionOnDuplicate.BLOCK`: a second suite of the same name is refused. */
  function NewSuite(db: Db, projectId: nat, name: string): (Result<TestSuite>, Db) {
    if db.writeFault.Some? then (Err(ApiError(db.writeFault.value)), db)
    else if exists n :: n in db.suites && n.projectId == projectId && n.name == name then
      (Err(ApiError(DuplicateSuite)), db)
    else
      var n := SuiteNode(db.nextId, name, projectId);
      (Ok(TestSuite(n.id, name, None)), db.(suites := db.suites + [n], nextId := db.nextId + 1))
  }

  /** Creation with `ActionOnDuplicate.CREATE_NEW_VERSION`: a case whose name is already
      taken in the suite gets a new version under the old id, otherwise a new id at version 1. */
  function NewCase(db: Db, name: string, suiteId: nat, projectId: Option<nat>, steps: seq<TestCaseStep>): (Result<TestCase>, Db) {
    if db.writeFault.Some? then (Err(ApiError(db.writeFault.value)), db)
    else if projectId.None? then (Err(ApiError(ProjectIdMissing)), db)
    else
      var c := match SameNameInSuite(db.cases, name, suiteId)
        case Some(prior) =>
          var latest := LatestVersion(db.cases, prior.id);
          TestCase(prior.id, latest.value.version + 1, name, suiteId, steps)
        case None => TestCase(db.nextId, 1, name, suiteId, steps);
      (Ok(c), db.(cases := db.cases + [c], nextId := db.nextId + 1))
  }

  /** A plan holds at most one version of a case: linking a second one is refused. */
  function NewLink(db: Db, planId: nat, caseId: nat, version: nat): (Result<()>, Db) {
    if db.writeFault.Some? then (Err(ApiError(db.writeFault.value)), db)
    else if caseId in LinkedIds(db.links, planId) then (Err(ApiError(AlreadyLinked)), db)
    else match VersionOf(db.cases, caseId, version)
      case None => (Err(ApiError(VersionMissing)), db)
      case Some(c) => (Ok(()), db.(links := db.links + [PlanLink(planId, c)]))
  }

  function NewExecution(db: Db, caseId: nat, planId: nat, status: ExecutionStatus, buildId: nat, notes: string): (Result<Option<nat>>, Db) {
    if db.writeFault.Some? then (Err(ApiError(db.writeFault.value)), db)
    else
      var e := Execution(db.nextId, caseId, planId, buildId, status, notes);
      (Ok(if db.answersReports then Some(e.id) else None),
       db.(executions := db.executions + [e], nextId := db.nextId + 1))
  }

  /** An upload needs the id of an execution. */
  function NewUpload(db: Db, executionId: Option<nat>, title: string, description: string, fileName: string, fileType: string, content: string): (Result<()>, Db) {
    if db.writeFault.Some? then (Err(ApiError(db.writeFault.value)), db)
    else if executionId.None? then (Err(ApiError(ExecutionIdMissing)), db)
    else (Ok(()), db.(uploads := db.uploads + [Upload(executionId.value, title, description, fileName, fileType, content)]))
  }

  /** The server behind the client: its state changes only through the calls below. */
  class RemoteStore {
    var db: Db

    constructor (initial: Db)
      ensures db == initial
    {
      db := initial;
    }

    method GetTestProjectByName(name: string) returns (r: Result<TestProject>)
      ensures r == ProjectByName(db, name)
    {
      r := ProjectByName(db, name);
    }

    method GetProjectTestPlans(projectId: nat) returns (r: Result<seq<TestPlan>>)
      ensures r == ProjectPlans(db, projectId)
    {
      r := ProjectPlans(db, projectId);
    }

    method GetTestPlanByName(planName: string, projectName: string) returns (r: Result<TestPlan>)
      ensures r == PlanByName(db, planName, projectName)
    {
      r := PlanByName(db, planName, projectName);
    }

    method GetBuildsForTestPlan(planId: nat) returns (r: Result<seq<Build>>)
      ensures r == PlanBuilds(db, planId)
    {
      r := PlanBuilds(db, planId);
    }

    method GetFirstLevelTestSuitesForTestProject(projectId: nat) returns (r: Result<seq<TestSuite>>)
      ensures r == ProjectSuites(db, projectId)
    {
      r := ProjectSuites(db, projectId);
    }

    method GetTestCasesForTestPlan(planId: nat) returns (r: Result<seq<TestCase>>)
      ensures r == PlanCases(db, planId)
    {
      r := PlanCases(db, planId);
    }

    method GetTestCasesForTestSuite(suiteId: nat) returns (r: Result<seq<TestCase>>)
      ensures r == SuiteCases(db, suiteId)
    {
      r := SuiteCases(db, suiteId);
    }

    method GetTestCaseIdByName(caseName: string, suiteName: string, projectName: string) returns (r: Result<nat>)
      ensures r == CaseIdByName(db, caseName, suiteName, projectName)
    {
      r := CaseIdByName(db, caseName, suiteName, projectName);
    }

    method GetTestCase(id: nat) returns (r: Result<TestCase>)
      ensures r == CaseById(db, id)
    {
      r := CaseById(db, id);
    }

    method CreateTestProject(name: string, prefix: string) returns (r: Result<TestProject>)
      modifies this
      ensures (r, db) == NewProject(old(db), name, prefix)
    {
      r, db := NewProject(db, name, prefix).0, NewProject(db, name, prefix).1;
    }

    method CreateTestPlan(name: string, projectName: string) returns (r: Result<TestPlan>)
      modifies this
      ensures (r, db) == NewPlan(old(db), name, projectName)
    {
      r, db := NewPlan(db, name, projectName).0, NewPlan(db, name, projectName).1;
    }

    method CreateBuild(planId: nat, name: string) returns (r: Result<Build>)
      modifies this
      ensures (r, db) == NewBuild(old(db), planId, name)
    {
      r, db := NewBuild(db, planId, name).0, NewBuild(db, planId, name).1;
    }

    method CreateTestSuite(projectId: nat, name: string) returns (r: Result<TestSuite>)
      modifies this
      ensures (r, db) == NewSuite(old(db), projectId, name)
    {
      r, db := NewSuite(db, projectId, name).0, NewSuite(db, projectId, name).1;
    }

    method CreateTestCase(name: string, suiteId: nat, projectId: Option<nat>, steps: seq<TestCaseStep>) returns (r: Result<TestCase>)
      modifies this
      ensures (r, db) == NewCase(old(db), name, suiteId, projectId, steps)
    {
      r, db := NewCase(db, name, suiteId, projectId, steps).0, NewCase(db, name, suiteId, projectId, steps).1;
    }

    method AddTestCaseToTestPlan(planId: nat, caseId: nat, version: nat) returns (r: Result<()>)
      modifies this
      ensures (r, db) == NewLink(old(db), planId, caseId, version)
    {
      r, db := NewLink(db, planId, caseId, version).0, NewLink(db, planId, caseId, version).1;
    }

    method ReportTestCaseResult(caseId: nat, planId: nat, status: ExecutionStatus, buildId: nat, notes: string) returns (r: Result<Option<nat>>)
      modifies this
      ensures (r, db) == NewExecution(old(db), caseId, planId, status, buildId, notes)
    {
      r, db := NewExecution(db, caseId, planId, status, buildId, notes).0, NewExecution(db, caseId, planId, status, buildId, notes).1;
    }

    method UploadExecutionAttachment(executionId: Option<nat>, title: string, description: string, fileName: string, fileType: string, content: string) returns (r: Result<()>)
      modifies this
      ensures (r, db) == NewUpload(old(db), executionId, title, description, fileName, fileType, content)
    {
      r, db := NewUpload(db, executionId, title, description, fileName, fileType, content).0, NewUpload(db, executionId, title, description, fileName, fileType, content).1;
    }
  }
}
