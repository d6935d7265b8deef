/** The legacy `testng/TestlinkIntegrationListener`: the same collection of one case per
    test instance, without attachments, with unnumbered steps and the full stack trace of
    a failure; at the end of the run each case is stored, linked to the project's fixed
    plan and reported. Its context hands out a project without a build, so the first link
    of a run already fails and no execution is ever reported. The listener is modelled
    over the corrected case holder `CaseHolder`; `AsWrittenFinishFor` is `onFinish` with
    the legacy case class as written, whose step list is never set. */
module LegacyListener {
  import opened Results
  import opened Remote
  import opened GatewayRules
  import opened GatewaySpec
  import opened StepHolder
  import opened CaseHolder
  import opened ProjectHandle
  import opened LegacyGateway
  import opened ListenerRules

  /** One turn of the loop of `onFinish`: the case stored with unnumbered steps, linked
      to the plan, and its result reported with the protocol as notes. */
  function ReportNext(prior: (Result<()>, Db), record: CaseRecord, suite: TestSuite, project: TestProject,
                      plan: Option<TestPlan>, build: Option<Build>, nl: string): (Result<()>, Db)
  {
    if prior.0.Err? then prior
    else
      var (created, db1) := CaseFor(prior.1, record.testCaseName, suite, project, LegacyCaseSteps(record.steps));
      if created.Err? then (Err(created.error), db1)
      else
        var (linked, db2) := MembershipFor(db1, created.value, plan, build);
        if linked.Err? then (linked, db2)
        else
          var (reported, db3) := ResultFor(db2, created.value, plan, build, record.status, CaseProtocol(record, nl));
          (if reported.Err? then Err(reported.error) else Ok(()), db3)
  }

  /** The loop of `onFinish` over the instances' cases in the map's order, stopping at the
      first error. */
  function ReportAll(db: Db, records: seq<CaseRecord>, suite: TestSuite, project: TestProject,
                     plan: Option<TestPlan>, build: Option<Build>, nl: string): (Result<()>, Db)
  {
    if records == [] then (Ok(()), db)
    else ReportNext(ReportAll(db, records[..|records| - 1], suite, project, plan, build, nl),
                    records[|records| - 1], suite, project, plan, build, nl)
  }

  /** `onFinish` once the listener has a project. */
  function LegacyFinishFor(db: Db, project: TestProject, plan: Option<TestPlan>, build: Option<Build>,
                           records: seq<CaseRecord>, suiteName: string, nl: string): (Outcome, Db)
  {
    var (suite, db1) := SuiteFor(db, project, suiteName);
    if suite.Err? then (Fail(suite.error), db1)
    else
      var (reported, db2) := ReportAll(db1, records, suite.value, project, plan, build, nl);
      (OutcomeOf(reported), db2)
  }

  lemma ReportAllNext(db: Db, records: seq<CaseRecord>, i: nat, suite: TestSuite, project: TestProject,
                      plan: Option<TestPlan>, build: Option<Build>, nl: string)
    requires i < |records|
    ensures ReportAll(db, records[..i + 1], suite, project, plan, build, nl)
            == ReportNext(ReportAll(db, records[..i], suite, project, plan, build, nl), records[i], suite, project, plan, build, nl)
  {
    assert records[..i + 1][..i] == records[..i];
  }

  /** The loop's step: when the cases before `i` were all reported, the loop after case `i`
      is where `ReportNext` takes it. */
  lemma ReportAllStep(db0: Db, records: seq<CaseRecord>, i: nat, db: Db, next: (Result<()>, Db), suite: TestSuite,
                      project: TestProject, plan: Option<TestPlan>, build: Option<Build>, nl: string)
    requires i < |records|
    requires ReportAll(db0, records[..i], suite, project, plan, build, nl) == (Ok(()), db)
    requires next == ReportNext((Ok(()), db), records[i], suite, project, plan, build, nl)
    ensures ReportAll(db0, records[..i + 1], suite, project, plan, build, nl) == next
  {
    ReportAllNext(db0, records, i, suite, project, plan, build, nl);
  }

  /** Once a case fails, the loop reports nothing more. */
  lemma {:induction false} ReportAllStops(db: Db, records: seq<CaseRecord>, n: nat, suite: TestSuite, project: TestProject,
                                          plan: Option<TestPlan>, build: Option<Build>, nl: string)
    requires n <= |records| && ReportAll(db, records[..n], suite, project, plan, build, nl).0.Err?
    ensures ReportAll(db, records, suite, project, plan, build, nl) == ReportAll(db, records[..n], suite, project, plan, build, nl)
    decreases |records|
  {
    if n < |records| {
      var init := records[..|records| - 1];
      assert init[..n] == records[..n];
      ReportAllStops(db, init, n, suite, project, plan, build, nl);
    } else {
      assert records[..n] == records;
    }
  }

  /** Storing a case touches neither the plan links nor the executions. */
  lemma CaseForKeepsReports(db: Db, caseName: string, suite: TestSuite, project: TestProject, steps: seq<TestCaseStep>)
    ensures var (r, db1) := CaseFor(db, caseName, suite, project, steps);
            db1.links == db.links && db1.executions == db.executions
  {
  }

  /** Without a build the loop fails on its first case, after at most storing that case:
      no case is linked and no execution is reported. */
  lemma {:induction false} NoBuildReportsNothing(db: Db, records: seq<CaseRecord>, suite: TestSuite, project: TestProject,
                                                 plan: Option<TestPlan>, nl: string)
    requires records != []
    ensures var (r, db1) := ReportAll(db, records, suite, project, plan, None, nl);
            r.Err? && db1.links == db.links && db1.executions == db.executions
  {
    var init := records[..|records| - 1];
    if init != [] {
      NoBuildReportsNothing(db, init, suite, project, plan, nl);
    } else {
      var record := records[0];
      CaseForKeepsReports(db, record.testCaseName, suite, project, LegacyCaseSteps(record.steps));
    }
  }

  /** A run of the legacy listener with at least one case ends in an error and reports
      nothing, whatever the server holds: `onStart` leaves the build unset. */
  lemma LegacyFinishReportsNothing(db: Db, project: TestProject, plan: Option<TestPlan>,
                                   records: seq<CaseRecord>, suiteName: string, nl: string)
    requires records != []
    ensures var (r, db1) := LegacyFinishFor(db, project, plan, None, records, suiteName, nl);
            r.Fail? && db1.links == db.links && db1.executions == db.executions
  {
    var (suite, db1) := SuiteFor(db, project, suiteName);
    if suite.Ok? {
      NoBuildReportsNothing(db1, records, suite.value, project, plan, nl);
    }
  }

  /** `onFinish` as the legacy classes are written. No member of the legacy `TestlinkCase`
      ever assigns its step list (`LegacyCaseHolder`), so `getSteps()` is `null` for every
      case and the loop over the steps throws on the first case, before that case is
      stored. Only the number of cases matters. */
  function AsWrittenFinishFor(db: Db, project: TestProject, caseCount: nat, suiteName: string): (Outcome, Db)
  {
    var (suite, db1) := SuiteFor(db, project, suiteName);
    if suite.Err? then (Fail(suite.error), db1)
    else if caseCount == 0 then (Pass, db1)
    else (Fail(NullPointer), db1)
  }

  /** As written, a legacy run with at least one case fails and stores no case: the server
      holds only what the suite lookup made. */
  lemma AsWrittenFinishStoresNothing(db: Db, project: TestProject, caseCount: nat, suiteName: string)
    requires caseCount > 0
    ensures var (r, db1) := AsWrittenFinishFor(db, project, caseCount, suiteName);
            r.Fail? && db1 == SuiteFor(db, project, suiteName).1
            && db1.cases == db.cases && db1.links == db.links && db1.executions == db.executions
  {
  }

  /** The listener. The case map is created together with the project handle, and every
      callback returns at once while there is no handle, so the map is never used before
      it exists. */
  class TestlinkIntegrationListener {
    var tlContext: TestlinkIntegrationContext?
    var tlProject: TestlinkProject?
    var testCases: map<string, TestlinkCase>

    /** Each case sits under its own name, and a project handle comes with a context. */
    ghost predicate Valid()
      reads this
    {
      (tlProject != null ==> tlContext != null)
      && forall k :: k in testCases ==> testCases[k].testCaseName == k
    }

    constructor ()
      ensures Valid()
      ensures tlContext == null && tlProject == null && testCases == map[]
    {
      tlContext := null;
      tlProject := null;
      testCases := map[];
    }

    /** The cases' values, in the given order of their names. */
    function RecordsOf(order: seq<string>): (r: seq<CaseRecord>)
      requires forall i :: 0 <= i < |order| ==> order[i] in testCases
      reads this, testCases.Values, set c, k | c in testCases.Values && 0 <= k < |c.steps| :: c.steps[k]
      ensures |r| == |order|
      ensures forall i :: 0 <= i < |order| ==> r[i] == testCases[order[i]].Record()
    {
      if order == [] then []
      else RecordsOf(order[..|order| - 1]) + [testCases[order[|order| - 1]].Record()]
    }

    /** `onTestSuccess`, `onTestFailure`, `onTestSkipped` and
        `onTestFailedButWithinSuccessPercentage`: a step is added to the instance's case
        (created on first use) and, except on a skip, the case status is set. */
    method OnTestResult(result: TestResult, cb: Callback) returns (r: Outcome)
      requires Valid()
      modifies this, testCases.Values
      ensures Valid()
      ensures tlContext == old(tlContext) && tlProject == old(tlProject)
      ensures old(tlProject) == null ==>
                r == Pass && testCases == old(testCases)
                && forall k :: k in testCases ==> testCases[k].Record() == old(testCases[k].Record())
      ensures old(tlProject) != null ==>
                var name := result.instanceName;
                var prior := if name in old(testCases) then old(testCases[name].Record()) else NewRecord(name);
                testCases.Keys == old(testCases.Keys) + {name}
                && (forall k :: k in old(testCases) ==> testCases[k] == old(testCases[k]))
                && (forall k :: k in old(testCases) && k != name ==> testCases[k].Record() == old(testCases[k].Record()))
                && match ParametersText(result.parameters)
                   case Err(e) =>
                     r == Fail(e) && testCases[name].Record() == prior
                   case Ok(text) =>
                     r == Pass
                     && testCases[name].Record()
                        == Logged(prior, result, cb, result.fullStackTrace, text, FormatDuration(result.endMillis - result.startMillis))
    {
      if tlProject == null {
        return Pass;
      }
      r := Observe(result, cb, FormatDuration(result.endMillis - result.startMillis));
    }

    /** A callback once there is a project handle. */
    method Observe(result: TestResult, cb: Callback, duration: string) returns (r: Outcome)
      requires Valid() && tlProject != null
      modifies this, testCases.Values
      ensures Valid()
      ensures tlContext == old(tlContext) && tlProject == old(tlProject)
      ensures var name := result.instanceName;
              var prior := if name in old(testCases) then old(testCases[name].Record()) else NewRecord(name);
              testCases.Keys == old(testCases.Keys) + {name}
              && (forall k :: k in old(testCases) ==> testCases[k] == old(testCases[k]))
              && (forall k :: k in old(testCases) && k != name ==> testCases[k].Record() == old(testCases[k].Record()))
              && match ParametersText(result.parameters)
                 case Err(e) =>
                   r == Fail(e) && testCases[name].Record() == prior
                 case Ok(text) =>
                   r == Pass && testCases[name].Record() == Logged(prior, result, cb, result.fullStackTrace, text, duration)
    {
      var name := result.instanceName;
      var tlCase := GetTestCase(name);
      ghost var prior := tlCase.Record();
      var parameters := PrintParameters(result.parameters);
      assert tlCase.Record() == prior;
      if parameters.Err? {
        r := Fail(parameters.error);
      } else {
        // the callback's second `getTestCase` finds the same case
        LogStep(tlCase, result, cb, result.fullStackTrace, parameters.value, duration);
        r := Pass;
      }
      forall k | k in old(testCases) && k != name
        ensures testCases[k].Record() == old(testCases[k].Record())
      {
        assert testCases[k].testCaseName != tlCase.testCaseName;
        RecordKept(testCases[k]);
      }
    }

    /** `getTestCase`: the instance's case, created empty and put in the map on first use. */
    method GetTestCase(name: string) returns (tlCase: TestlinkCase)
      requires Valid()
      modifies this
      ensures Valid()
      ensures tlContext == old(tlContext) && tlProject == old(tlProject)
      ensures testCases == old(testCases)[name := tlCase]
      ensures name in old(testCases) ==> tlCase == old(testCases[name]) && tlCase.Record() == old(tlCase.Record())
      ensures name !in old(testCases) ==> fresh(tlCase) && tlCase.Record() == NewRecord(name)
    {
      if name in testCases {
        tlCase := testCases[name];
      } else {
        tlCase := new TestlinkCase(name);
        testCases := testCases[name := tlCase];
      }
    }

    /** `onStart`: without both system properties nothing happens; otherwise the context is
        taken and the project (with its plan, and without a build) is looked up or
        created; only then is the case map created, empty. */
    method OnStart(buildName: Option<string>, projectName: Option<string>, context: TestlinkIntegrationContext)
      returns (r: Outcome)
      requires Valid()
      modifies this, context.remoteApi
      ensures Valid()
      ensures projectName.None? || buildName.None? ==>
                r == Pass && tlContext == old(tlContext) && tlProject == old(tlProject) && testCases == old(testCases)
                && (context.remoteApi != null ==> context.remoteApi.db == old(context.remoteApi.db))
      ensures projectName.Some? && buildName.Some? ==>
                tlContext == context
                && (context.remoteApi == null ==>
                      r == Fail(ApiError(NoConnection)) && tlProject == old(tlProject) && testCases == old(testCases))
                && (context.remoteApi != null ==>
                      var (p, db1) := LegacyGateway.ProjectFor(old(context.remoteApi.db), projectName.value);
                      context.remoteApi.db == db1
                      && (p.Err? ==> r == Fail(p.error) && tlProject == old(tlProject) && testCases == old(testCases))
                      && (p.Ok? ==> r == Pass && tlProject != null && fresh(tlProject)
                                    && tlProject.project == p.value.0 && tlProject.plan == Some(p.value.1)
                                    && tlProject.build == None && testCases == map[]))
    {
      if projectName.None? || buildName.None? {
        return Pass;
      }
      tlContext := context;
      var project := context.GetProject(projectName.value);
      if project.Err? {
        return Fail(project.error);
      }
      tlProject := project.value;
      testCases := map[];
      r := Pass;
    }

    /** `onFinish`: nothing without a project handle; otherwise the suite is looked up or
        created and every instance's case stored, linked and reported. */
    method OnFinish(suiteName: string, order: seq<string>, nl: string) returns (r: Outcome)
      requires Valid()
      requires tlProject != null ==> Lists(order, testCases)
      modifies if tlContext != null then {tlContext.remoteApi} else {}
      ensures tlProject == null ==>
                r == Pass && (tlContext != null && tlContext.remoteApi != null ==> tlContext.remoteApi.db == old(tlContext.remoteApi.db))
      ensures tlProject != null && tlContext.remoteApi == null ==> r == Fail(ApiError(NoConnection))
      ensures tlProject != null && tlContext.remoteApi != null ==>
                (r, tlContext.remoteApi.db)
                == LegacyFinishFor(old(tlContext.remoteApi.db), tlProject.project, tlProject.plan, tlProject.build,
                                   old(RecordsOf(order)), suiteName, nl)
    {
      if tlProject == null {
        return Pass;
      }
      ghost var records := RecordsOf(order);
      var suite := tlContext.GetSuite(tlProject.project, suiteName);
      if suite.Err? {
        return Fail(suite.error);
      }
      r := ReportCases(order, records, suite.value, nl);
    }

    /** The loop of `onFinish`. */
    method ReportCases(order: seq<string>, ghost records: seq<CaseRecord>, suite: TestSuite, nl: string) returns (r: Outcome)
      requires tlProject != null && tlContext != null && tlContext.remoteApi != null
      requires forall i :: 0 <= i < |order| ==> order[i] in testCases
      requires records == RecordsOf(order)
      modifies tlContext.remoteApi
      ensures var (reported, db1) := ReportAll(old(tlContext.remoteApi.db), records, suite, tlProject.project,
                                               tlProject.plan, tlProject.build, nl);
              r == OutcomeOf(reported) && tlContext.remoteApi.db == db1
    {
      ghost var db0 := tlContext.remoteApi.db;
      var project := tlProject.project;
      var plan := tlProject.plan;
      var build := tlProject.build;
      for i := 0 to |order|
        invariant ReportAll(db0, records[..i], suite, project, plan, build, nl) == (Ok(()), tlContext.remoteApi.db)
      {
        var tlCase := testCases[order[i]];
        RecordKept(tlCase);
        ghost var db := tlContext.remoteApi.db;
        var reported := ReportCase(tlCase, suite, nl);
        ReportAllStep(db0, records, i, db, (reported, tlContext.remoteApi.db), suite, project, plan, build, nl);
        if reported.Err? {
          ReportAllStops(db0, records, i + 1, suite, project, plan, build, nl);
          return Fail(reported.error);
        }
        assert reported == Ok(());
      }
      assert records[..|order|] == records;
      r := Pass;
    }

    /** One turn of the loop of `onFinish`: the case stored, linked to the plan and its
        result reported with the protocol as notes. */
    method ReportCase(tlCase: TestlinkCase, suite: TestSuite, nl: string) returns (r: Result<()>)
      requires tlProject != null && tlContext != null && tlContext.remoteApi != null
      modifies tlContext.remoteApi
      ensures (r, tlContext.remoteApi.db)
              == ReportNext((Ok(()), old(tlContext.remoteApi.db)), old(tlCase.Record()), suite, tlProject.project,
                            tlProject.plan, tlProject.build, nl)
    {
      var steps, protocol := DraftCase(tlCase, false, nl);
      var created := tlContext.CreateTestCase(tlCase.testCaseName, suite, tlProject.project, steps);
      if created.Err? {
        return Err(created.error);
      }
      r := tlContext.AddTestCaseToPlan(created.value, tlProject.plan, tlProject.build);
      if r.Err? {
        return;
      }
      var reported := tlContext.SetTestResult(created.value, tlProject.plan, tlProject.build, tlCase.status, protocol);
      r := if reported.Err? then Err(reported.error) else Ok(());
    }
  }
}
