/** The current `test/TestlinkIntegrationListener`: it collects one case per test instance
    while TestNG runs, then at the end of the run stores each case (a new version when its
    steps changed), moves to a new plan when a linked case got a new version, links the
    cases to the plan and reports one execution per case, each with every attachment the
    tests handed over. */
module TestListener {
  import opened Results
  import opened Text
  import opened Remote
  import opened GatewayRules
  import opened GatewaySpec
  import opened GatewayFacts
  import opened StepHolder
  import opened CaseHolder
  import opened ProjectHandle
  import opened TestGateway
  import opened ListenerRules
  import opened UploadLayout

  /** A case as `onFinish` hands it to the server: the case the server answered with, the
      status recorded for the instance and the protocol written for it. */
  datatype Drafted = Drafted(testCase: TestCase, status: Option<ExecutionStatus>, protocol: string)

  /** What `onFinish` leaves behind: its outcome, the plan and build of the project handle
      and the server. */
  datatype Finish = Finish(outcome: Outcome, plan: Option<TestPlan>, build: Option<Build>, db: Db)

  /** The first loop of `onFinish`: each instance's case stored (or found unchanged) in
      the run's order, stopping at the first error. */
  function CreateAll(db: Db, records: seq<CaseRecord>, suite: TestSuite, project: TestProject, nl: string): (Result<seq<Drafted>>, Db) {
    if records == [] then (Ok([]), db)
    else CreateNext(CreateAll(db, records[..|records| - 1], suite, project, nl), records[|records| - 1], suite, project, nl)
  }

  /** One turn of that loop, after the earlier ones. */
  function CreateNext(prior: (Result<seq<Drafted>>, Db), record: CaseRecord, suite: TestSuite, project: TestProject, nl: string): (Result<seq<Drafted>>, Db) {
    if prior.0.Err? then prior
    else
      var (created, db2) := CaseFor(prior.1, record.testCaseName, suite, project, CaseSteps(record.steps));
      if created.Err? then (Err(created.error), db2)
      else (Ok(prior.0.value + [Drafted(created.value, record.status, CaseProtocol(record, nl))]), db2)
  }

  lemma CreateAllNext(db: Db, records: seq<CaseRecord>, i: nat, suite: TestSuite, project: TestProject, nl: string)
    requires i < |records|
    ensures CreateAll(db, records[..i + 1], suite, project, nl)
            == CreateNext(CreateAll(db, records[..i], suite, project, nl), records[i], suite, project, nl)
  {
    assert records[..i + 1][..i] == records[..i];
  }

  /** Some stored case is a newer version of a case the plan already holds. */
  predicate NeedsNewPlan(drafted: seq<Drafted>, existing: seq<TestCase>) {
    exists i :: 0 <= i < |drafted| && SupersedesLinked(drafted[i].testCase, existing)
  }

  /** One more stored case needs a new plan exactly when it supersedes a linked case. */
  lemma NeedsNewPlanAppend(drafted: seq<Drafted>, d: Drafted, existing: seq<TestCase>)
    ensures NeedsNewPlan(drafted + [d], existing) <==> NeedsNewPlan(drafted, existing) || SupersedesLinked(d.testCase, existing)
  {
    if NeedsNewPlan(drafted, existing) {
      var i :| 0 <= i < |drafted| && SupersedesLinked(drafted[i].testCase, existing);
      assert (drafted + [d])[i] == drafted[i];
    }
    if SupersedesLinked(d.testCase, existing) {
      assert (drafted + [d])[|drafted|] == d;
    }
    if NeedsNewPlan(drafted + [d], existing) {
      var i :| 0 <= i < |drafted + [d]| && SupersedesLinked((drafted + [d])[i].testCase, existing);
      if i < |drafted| {
        assert (drafted + [d])[i] == drafted[i];
      }
    }
  }

  /** Every attachment saved against one execution, stopping at the first error. */
  function UploadAll(db: Db, executionId: Option<nat>, attachments: seq<Attachment>): (Result<()>, Db) {
    if attachments == [] then (Ok(()), db)
    else
      var (prior, db1) := UploadAll(db, executionId, attachments[..|attachments| - 1]);
      if prior.Err? then (prior, db1)
      else AttachmentFor(db1, executionId, attachments[|attachments| - 1])
  }

  /** The last loop of `onFinish`: each case linked to the plan, its result reported and
      every attachment saved against that execution, stopping at the first error. */
  function CommitAll(db: Db, drafted: seq<Drafted>, plan: Option<TestPlan>, build: Option<Build>, attachments: seq<Attachment>): (Result<()>, Db) {
    if drafted == [] then (Ok(()), db)
    else
      var (prior, db1) := CommitAll(db, drafted[..|drafted| - 1], plan, build, attachments);
      if prior.Err? then (prior, db1)
      else
        var d := drafted[|drafted| - 1];
        var (linked, db2) := MembershipFor(db1, d.testCase, plan, build);
        if linked.Err? then (linked, db2)
        else
          var (reported, db3) := ResultFor(db2, d.testCase, plan, build, d.status, d.protocol);
          if reported.Err? then (Err(reported.error), db3)
          else UploadAll(db3, reported.value, attachments)
  }

  /** `onFinish` once the listener has a project: `records` is `None` when the case map
      was never created, and otherwise lists the instances' cases in the map's order. */
  function FinishFor(db: Db, project: TestProject, plan: Option<TestPlan>, build: Option<Build>,
                     records: Option<seq<CaseRecord>>, suiteName: string, attachments: seq<Attachment>,
                     now: string, nl: string): Finish
  {
    var (suite, db1) := SuiteFor(db, project, suiteName);
    if suite.Err? then Finish(Fail(suite.error), plan, build, db1)
    else StoreStage(db1, project, plan, build, suite.value, records, attachments, now, nl)
  }

  /** `onFinish` once it has the suite: the plan's cases are listed, then the instances'
      cases stored, then `CommitStage`. */
  function StoreStage(db: Db, project: TestProject, plan: Option<TestPlan>, build: Option<Build>, suite: TestSuite,
                      records: Option<seq<CaseRecord>>, attachments: seq<Attachment>, now: string, nl: string): Finish
  {
    var existing := PlanCasesFor(db, plan, build);
    if existing.Err? then Finish(Fail(existing.error), plan, build, db)
    else if records.None? then Finish(Fail(NullPointer), plan, build, db)
    else
      var (drafted, db1) := CreateAll(db, records.value, suite, project, nl);
      if drafted.Err? then Finish(Fail(drafted.error), plan, build, db1)
      else CommitStage(db1, project, plan, build, drafted.value, NeedsNewPlan(drafted.value, existing.value), attachments, now)
  }

  /** The rest of `onFinish` once the cases are stored: a new plan and a build of the same
      name when `newPlan`, then the last loop against the plan and build in use. */
  function CommitStage(db: Db, project: TestProject, plan: Option<TestPlan>, build: Option<Build>,
                       drafted: seq<Drafted>, newPlan: bool, attachments: seq<Attachment>, now: string): Finish
    requires newPlan ==> build.Some?
  {
    if !newPlan then
      var (committed, db1) := CommitAll(db, drafted, plan, build, attachments);
      Finish(OutcomeOf(committed), plan, build, db1)
    else
      var (created, db1) := NewPlan(db, AutomationPrefix + now, project.name);
      if created.Err? then Finish(Fail(created.error), plan, build, db1)
      else
        var (newBuild, db2) := BuildFor(db1, Some(created.value), build.value.name);
        if newBuild.Err? then Finish(Fail(newBuild.error), Some(created.value), build, db2)
        else
          var (committed, db3) := CommitAll(db2, drafted, Some(created.value), Some(newBuild.value), attachments);
          Finish(OutcomeOf(committed), Some(created.value), Some(newBuild.value), db3)
  }

  // ----- properties -----

  /** Every upload from position `from` on belongs to the execution. */
  predicate UploadedAgainst(uploads: seq<Upload>, from: nat, executionId: nat) {
    forall k :: from <= k < |uploads| ==> uploads[k].executionId == executionId
  }

  /** `saveAttachment` either appends one upload against the execution (a readable
      attachment on a writable server, given an execution id) or changes nothing; it
      fails exactly when a readable attachment meets a write fault or a missing id. */
  lemma AttachmentForFacts(db: Db, executionId: Option<nat>, attachment: Attachment)
    ensures var (r, db1) := AttachmentFor(db, executionId, attachment);
            (r.Err? <==> attachment.base64Lines.Some? && (db.writeFault.Some? || executionId.None?))
            && (r.Ok? && attachment.base64Lines.Some? ==>
                  executionId.Some? && db1 == db.(uploads := db1.uploads)
                  && |db1.uploads| == |db.uploads| + 1 && db1.uploads[..|db.uploads|] == db.uploads
                  && db1.uploads[|db.uploads|].executionId == executionId.value)
            && (r.Err? || attachment.base64Lines.None? ==> db1 == db)
  {
    var (r, db1) := AttachmentFor(db, executionId, attachment);
    if r.Ok? && attachment.base64Lines.Some? {
      assert db1.uploads[..|db.uploads|] == db.uploads;
    }
  }

  /** Saving attachments touches only the uploads and only appends to them; with a
      writable server and an execution id it always succeeds. */
  lemma {:induction false} UploadAllKeeps(db: Db, executionId: Option<nat>, attachments: seq<Attachment>)
    ensures var (r, db1) := UploadAll(db, executionId, attachments);
            db1 == db.(uploads := db1.uploads) && db.uploads <= db1.uploads
            && (db.writeFault.None? && executionId.Some? ==> r.Ok?)
  {
    if attachments != [] {
      var init := attachments[..|attachments| - 1];
      UploadAllKeeps(db, executionId, init);
      var (prior, db1) := UploadAll(db, executionId, init);
      if prior.Ok? {
        AttachmentForFacts(db1, executionId, attachments[|attachments| - 1]);
      }
    }
  }

  /** When saving succeeds there is one new upload per readable attachment, each against
      the execution. */
  lemma {:induction false} UploadAllCounts(db: Db, executionId: Option<nat>, attachments: seq<Attachment>)
    ensures var (r, db1) := UploadAll(db, executionId, attachments);
            r.Ok? ==> |db1.uploads| == |db.uploads| + ReadableCount(attachments)
                      && (ReadableCount(attachments) > 0 ==>
                            executionId.Some? && UploadedAgainst(db1.uploads, |db.uploads|, executionId.value))
  {
    if attachments != [] {
      var init := attachments[..|attachments| - 1];
      UploadAllCounts(db, executionId, init);
      var (prior, db1) := UploadAll(db, executionId, init);
      if prior.Ok? {
        AttachmentForFacts(db1, executionId, attachments[|attachments| - 1]);
      }
    }
  }

  /** When the last loop of `onFinish` succeeds, every case had a status, and exactly one
      execution was reported per case, in order, against the plan and build, with the
      case's status and protocol as notes. */
  lemma {:induction false} CommitReportsEveryCase(db: Db, drafted: seq<Drafted>, plan: Option<TestPlan>, build: Option<Build>, attachments: seq<Attachment>)
    ensures var (r, db1) := CommitAll(db, drafted, plan, build, attachments);
            db.executions <= db1.executions
            && (r.Ok? ==>
                  |db1.executions| == |db.executions| + |drafted|
                  && forall i :: 0 <= i < |drafted| ==>
                       drafted[i].status.Some? && plan.Some? && build.Some?
                       && db1.executions[|db.executions| + i].caseId == drafted[i].testCase.id
                       && db1.executions[|db.executions| + i].planId == plan.value.id
                       && db1.executions[|db.executions| + i].buildId == build.value.id
                       && db1.executions[|db.executions| + i].status == drafted[i].status.value
                       && db1.executions[|db.executions| + i].notes == drafted[i].protocol)
  {
    if drafted != [] {
      var init := drafted[..|drafted| - 1];
      CommitReportsEveryCase(db, init, plan, build, attachments);
      var (prior, db1) := CommitAll(db, init, plan, build, attachments);
      if prior.Ok? {
        var d := drafted[|drafted| - 1];
        var (linked, db2) := MembershipFor(db1, d.testCase, plan, build);
        MembershipForLinksOnly(db1, d.testCase, plan, build);
        var (reported, db3) := ResultFor(db2, d.testCase, plan, build, d.status, d.protocol);
        ResultForFacts(db2, d.testCase, plan, build, d.status, d.protocol);
        if linked.Ok? && reported.Ok? {
          UploadAllKeeps(db3, reported.value, attachments);
          var (r, db4) := CommitAll(db, drafted, plan, build, attachments);
          assert db4.executions == db3.executions;
          if r.Ok? {
            forall i | 0 <= i < |drafted|
              ensures drafted[i].status.Some? && plan.Some? && build.Some?
                      && db4.executions[|db.executions| + i].caseId == drafted[i].testCase.id
                      && db4.executions[|db.executions| + i].planId == plan.value.id
                      && db4.executions[|db.executions| + i].buildId == build.value.id
                      && db4.executions[|db.executions| + i].status == drafted[i].status.value
                      && db4.executions[|db.executions| + i].notes == drafted[i].protocol
            {
              if i < |init| {
                assert drafted[i] == init[i];
                assert db4.executions[|db.executions| + i] == db1.executions[|db.executions| + i];
              }
            }
          }
        }
      }
    }
  }

  /** A successful save appends exactly `UploadsFor` the execution; without an execution
      id it succeeds only when nothing is readable. */
  lemma {:induction false} UploadAllAppends(db: Db, executionId: Option<nat>, attachments: seq<Attachment>)
    ensures var (r, db1) := UploadAll(db, executionId, attachments);
            r.Ok? ==> if executionId.Some? then db1.uploads == db.uploads + UploadsFor(executionId.value, attachments)
                      else db1.uploads == db.uploads && ReadableCount(attachments) == 0
  {
    if attachments != [] {
      var init := attachments[..|attachments| - 1];
      UploadAllAppends(db, executionId, init);
      var (prior, db1) := UploadAll(db, executionId, init);
      if prior.Ok? && executionId.Some? {
        var a := attachments[|attachments| - 1];
        if a.base64Lines.Some? {
          var u := Upload(executionId.value, AttachmentKey(a), CreatedBy, AttachmentFileName(a), a.contentType, JoinLines(a.base64Lines.value));
          assert db.uploads + UploadsFor(executionId.value, init) + [u] == db.uploads + (UploadsFor(executionId.value, init) + [u]);
        }
      }
    }
  }

  /** One round of the last loop of `onFinish`: when it succeeds it reports one execution
      and uploads every readable attachment against it. */
  lemma CommitNextUploads(db: Db, d: Drafted, plan: Option<TestPlan>, build: Option<Build>, attachments: seq<Attachment>)
    ensures var (linked, db1) := MembershipFor(db, d.testCase, plan, build);
            var (reported, db2) := ResultFor(db1, d.testCase, plan, build, d.status, d.protocol);
            linked.Ok? && reported.Ok? ==>
              var (r, db3) := UploadAll(db2, reported.value, attachments);
              r.Ok? ==>
              |db3.executions| == |db.executions| + 1
              && db3.executions == db.executions + [db3.executions[|db.executions|]]
              && db3.uploads == db.uploads + UploadsFor(db3.executions[|db.executions|].id, attachments)
  {
    var (linked, db1) := MembershipFor(db, d.testCase, plan, build);
    MembershipForLinksOnly(db, d.testCase, plan, build);
    var (reported, db2) := ResultFor(db1, d.testCase, plan, build, d.status, d.protocol);
    ResultForFacts(db1, d.testCase, plan, build, d.status, d.protocol);
    if linked.Ok? && reported.Ok? {
      UploadAllKeeps(db2, reported.value, attachments);
      UploadAllAppends(db2, reported.value, attachments);
      var (r, db3) := UploadAll(db2, reported.value, attachments);
      if r.Ok? {
        assert db3.executions == db2.executions;
        if reported.value.None? {
          assert UploadsFor(db1.nextId, attachments) == [];
        }
      }
    }
  }

  /** When the last loop of `onFinish` succeeds, the new uploads are, execution by
      execution in the order of the reports, every readable attachment against that
      execution. */
  lemma {:induction false} CommitUploadsInOrder(db: Db, drafted: seq<Drafted>, plan: Option<TestPlan>, build: Option<Build>, attachments: seq<Attachment>)
    ensures var (r, db1) := CommitAll(db, drafted, plan, build, attachments);
            r.Ok? ==> |db.executions| <= |db1.executions|
                      && db1.uploads == db.uploads + UploadsPerExecution(db1.executions[|db.executions|..], attachments)
  {
    if drafted != [] {
      var init := drafted[..|drafted| - 1];
      CommitUploadsInOrder(db, init, plan, build, attachments);
      var (prior, db1) := CommitAll(db, init, plan, build, attachments);
      if prior.Ok? {
        CommitNextUploads(db1, drafted[|drafted| - 1], plan, build, attachments);
        var (r, db4) := CommitAll(db, drafted, plan, build, attachments);
        if r.Ok? {
          var e := db4.executions[|db1.executions|];
          LayoutExtends(db.uploads, db1.uploads, db1.executions, |db.executions|, e, attachments);
        }
      }
    }
  }

  /** When the last loop of `onFinish` succeeds, there is one new execution per case and
      one new upload per case and readable attachment. */
  lemma CommitUploadCount(db: Db, drafted: seq<Drafted>, plan: Option<TestPlan>, build: Option<Build>, attachments: seq<Attachment>)
    ensures var (r, db1) := CommitAll(db, drafted, plan, build, attachments);
            r.Ok? ==> |db1.executions| == |db.executions| + |drafted|
                      && |db1.uploads| == |db.uploads| + |drafted| * ReadableCount(attachments)
  {
    var (r, db1) := CommitAll(db, drafted, plan, build, attachments);
    CommitReportsEveryCase(db, drafted, plan, build, attachments);
    CommitUploadsInOrder(db, drafted, plan, build, attachments);
    if r.Ok? {
      BlocksLengthIsProduct(|drafted|, ReadableCount(attachments));
    }
  }

  /** Every readable attachment is saved once against each reported execution, not only
      against the execution of the test that handed it over: after the old uploads, the
      `i`-th block of `n` new uploads is every readable attachment, in order, against the
      `i`-th new execution. */
  lemma CommitUploadsEveryAttachmentPerCase(db: Db, drafted: seq<Drafted>, plan: Option<TestPlan>, build: Option<Build>, attachments: seq<Attachment>, i: nat)
    requires i < |drafted|
    ensures var (r, db1) := CommitAll(db, drafted, plan, build, attachments);
            var n := ReadableCount(attachments);
            r.Ok? ==> |db1.executions| == |db.executions| + |drafted|
                      && |db.uploads| + i * n + n <= |db1.uploads|
                      && db1.uploads[|db.uploads| + i * n .. |db.uploads| + i * n + n]
                         == UploadsFor(db1.executions[|db.executions| + i].id, attachments)
  {
    var (r, db1) := CommitAll(db, drafted, plan, build, attachments);
    CommitReportsEveryCase(db, drafted, plan, build, attachments);
    CommitUploadsInOrder(db, drafted, plan, build, attachments);
    if r.Ok? {
      var added := db1.executions[|db.executions|..];
      BlockAfterEarlier(db.uploads, db1.uploads, added, attachments, i);
      assert added[i] == db1.executions[|db.executions| + i];
    }
  }

  /** A plan that holds a case at the same or a newer version still does once more links
      are added. */
  lemma HoldsAfterMoreLinks(links: seq<PlanLink>, more: seq<PlanLink>, planId: nat, testCase: TestCase)
    requires links <= more
    requires HoldsSameOrNewer(CasesOfPlan(links, planId), testCase)
    ensures HoldsSameOrNewer(CasesOfPlan(more, planId), testCase)
  {
    var cases := CasesOfPlan(links, planId);
    var k :| 0 <= k < |cases| && cases[k].id == testCase.id && testCase.version <= cases[k].version;
    assert cases[k] in cases;
    var j :| 0 <= j < |links| && links[j] == PlanLink(planId, cases[k]);
    assert more[j] == links[j];
    var moreCases := CasesOfPlan(more, planId);
    assert cases[k] in moreCases;
    var m :| 0 <= m < |moreCases| && moreCases[m] == cases[k];
  }

  /** `addTestCaseToPlan` succeeds only when the plan then holds the case at the same or
      a newer version. */
  lemma MembershipForHolds(db: Db, testCase: TestCase, plan: Option<TestPlan>, build: Option<Build>)
    ensures var (r, db1) := MembershipFor(db, testCase, plan, build);
            r.Ok? ==> plan.Some? && HoldsSameOrNewer(CasesOfPlan(db1.links, plan.value.id), testCase)
  {
    var (r, db1) := MembershipFor(db, testCase, plan, build);
    var listed := PlanCasesFor(db, plan, build);
    if r.Ok? && !(listed.Ok? && HoldsSameOrNewer(listed.value, testCase)) {
      var c := VersionOf(db.cases, testCase.id, testCase.version).value;
      assert db1.links == db.links + [PlanLink(plan.value.id, c)];
      assert db1.links[|db.links|] == PlanLink(plan.value.id, c);
      var cases := CasesOfPlan(db1.links, plan.value.id);
      assert c in cases;
      var k :| 0 <= k < |cases| && cases[k] == c;
    }
  }

  /** The last loop of `onFinish` only adds links, and when it succeeds the plan holds
      every case it handled, at the same or a newer version. */
  lemma {:induction false} CommitLinksEveryCase(db: Db, drafted: seq<Drafted>, plan: Option<TestPlan>, build: Option<Build>, attachments: seq<Attachment>)
    ensures var (r, db1) := CommitAll(db, drafted, plan, build, attachments);
            db.links <= db1.links
            && (r.Ok? ==> forall i :: 0 <= i < |drafted| ==>
                            plan.Some? && HoldsSameOrNewer(CasesOfPlan(db1.links, plan.value.id), drafted[i].testCase))
  {
    if drafted != [] {
      var init := drafted[..|drafted| - 1];
      CommitLinksEveryCase(db, init, plan, build, attachments);
      var (prior, db1) := CommitAll(db, init, plan, build, attachments);
      if prior.Ok? {
        var d := drafted[|drafted| - 1];
        var (linked, db2) := MembershipFor(db1, d.testCase, plan, build);
        MembershipForLinksOnly(db1, d.testCase, plan, build);
        MembershipForHolds(db1, d.testCase, plan, build);
        var (reported, db3) := ResultFor(db2, d.testCase, plan, build, d.status, d.protocol);
        ResultForFacts(db2, d.testCase, plan, build, d.status, d.protocol);
        if linked.Ok? && reported.Ok? {
          UploadAllKeeps(db3, reported.value, attachments);
          var (r, db4) := UploadAll(db3, reported.value, attachments);
          assert db4.links == db2.links;
          if r.Ok? {
            forall i | 0 <= i < |drafted|
              ensures plan.Some? && HoldsSameOrNewer(CasesOfPlan(db4.links, plan.value.id), drafted[i].testCase)
            {
              if i < |init| {
                assert drafted[i] == init[i];
                HoldsAfterMoreLinks(db1.links, db2.links, plan.value.id, drafted[i].testCase);
              }
            }
          }
        }
      }
    }
  }

  /** A `getProject` that creates nothing reads only projects and plans. */
  lemma ProjectForReadsOnly(db: Db, db1: Db, projectName: string, now: string)
    requires ProjectFor(db, projectName, now).1 == db
    requires db1 == db.(builds := db1.builds, nextId := db1.nextId)
    ensures ProjectFor(db1, projectName, now) == (ProjectFor(db, projectName, now).0, db1)
  {
    var (project, db0) := ProjectLookupFor(db, projectName);
    if project.Ok? {
      PlanForKeepsProjects(db0, project.value, now);
    }
    assert db0 == db;
    LookupReadsOnly(db, db1, projectName);
    if project.Ok? {
      PlanReadsOnly(db, db1, project.value, now);
    }
  }

  /** A `getProject` lookup that changed nothing reads no build and no id counter. */
  lemma LookupReadsOnly(db: Db, db1: Db, projectName: string)
    requires ProjectLookupFor(db, projectName).1 == db
    requires db1 == db.(builds := db1.builds, nextId := db1.nextId)
    ensures ProjectLookupFor(db1, projectName) == (ProjectLookupFor(db, projectName).0, db1)
  {
  }

  /** A `getPlan` that changed nothing reads no build and no id counter. */
  lemma PlanReadsOnly(db: Db, db1: Db, project: TestProject, now: string)
    requires PlanFor(db, project, now).1 == db
    requires db1 == db.(builds := db1.builds, nextId := db1.nextId)
    ensures PlanFor(db1, project, now) == (PlanFor(db, project, now).0, db1)
  {
  }

  /** `onStart` settles: run again against the server it left behind, at a later time,
      it finds the same project, plan and build and creates nothing. */
  lemma StartSettles(db: Db, projectName: string, buildName: string, now: string, later: string)
    requires db.readFault.None?
    ensures var (p, db1) := ProjectFor(db, projectName, now);
            p.Ok? && p.value.1.Some? ==>
              var (b, db2) := BuildFor(db1, p.value.1, buildName);
              b.Ok? ==> ProjectFor(db2, projectName, later) == (p, db2)
                        && BuildFor(db2, p.value.1, buildName) == (b, db2)
  {
    var (p, db1) := ProjectFor(db, projectName, now);
    if p.Ok? && p.value.1.Some? {
      var (b, db2) := BuildFor(db1, p.value.1, buildName);
      if b.Ok? {
        ProjectForSettles(db, projectName, now, later);
        BuildForSettles(db1, p.value.1.value, buildName);
        assert db2 == db1.(builds := db2.builds, nextId := db2.nextId);
        ProjectForReadsOnly(db1, db2, projectName, later);
      }
    }
  }

  // ----- the loops stop at their first error -----

  lemma {:induction false} CreateAllStops(db: Db, records: seq<CaseRecord>, n: nat, suite: TestSuite, project: TestProject, nl: string)
    requires n <= |records| && CreateAll(db, records[..n], suite, project, nl).0.Err?
    ensures CreateAll(db, records, suite, project, nl) == CreateAll(db, records[..n], suite, project, nl)
    decreases |records|
  {
    if n < |records| {
      var init := records[..|records| - 1];
      assert init[..n] == records[..n];
      CreateAllStops(db, init, n, suite, project, nl);
    } else {
      assert records[..n] == records;
    }
  }

  lemma {:induction false} UploadAllStops(db: Db, executionId: Option<nat>, attachments: seq<Attachment>, n: nat)
    requires n <= |attachments| && UploadAll(db, executionId, attachments[..n]).0.Err?
    ensures UploadAll(db, executionId, attachments) == UploadAll(db, executionId, attachments[..n])
    decreases |attachments|
  {
    if n < |attachments| {
      var init := attachments[..|attachments| - 1];
      assert init[..n] == attachments[..n];
      UploadAllStops(db, executionId, init, n);
    } else {
      assert attachments[..n] == attachments;
    }
  }

  lemma {:induction false} CommitAllStops(db: Db, drafted: seq<Drafted>, plan: Option<TestPlan>, build: Option<Build>, attachments: seq<Attachment>, n: nat)
    requires n <= |drafted| && CommitAll(db, drafted[..n], plan, build, attachments).0.Err?
    ensures CommitAll(db, drafted, plan, build, attachments) == CommitAll(db, drafted[..n], plan, build, attachments)
    decreases |drafted|
  {
    if n < |drafted| {
      var init := drafted[..|drafted| - 1];
      assert init[..n] == drafted[..n];
      CommitAllStops(db, init, plan, build, attachments, n);
    } else {
      assert drafted[..n] == drafted;
    }
  }

  /** The inner loop of `onFinish`'s first loop: whether the stored case is a newer
      version of one the plan holds. */
  method CheckSupersedes(testCase: TestCase, existing: seq<TestCase>) returns (newer: bool)
    ensures newer <==> SupersedesLinked(testCase, existing)
  {
    newer := false;
    for k := 0 to |existing|
      invariant newer <==> exists j :: 0 <= j < k && existing[j].id == testCase.id && testCase.version > existing[j].version
    {
      if testCase.id == existing[k].id && testCase.version > existing[k].version {
        newer := true;
      }
    }
  }

  function ValuesIn<T>(m: map<string, T>, order: seq<string>): (r: seq<T>)
    requires forall i :: 0 <= i < |order| ==> order[i] in m
    ensures |r| == |order| && forall i :: 0 <= i < |order| ==> r[i] == m[order[i]]
  {
    if order == [] then [] else ValuesIn(m, order[..|order| - 1]) + [m[order[|order| - 1]]]
  }

  /** The listener. `started` is false while the two maps have not been created (they are
      `null` in the source until `onStart` gets past `getBuild`). */
  class TestlinkIntegrationListener {
    var tlContext: TestlinkIntegrationContext?
    var tlProject: TestlinkProject?
    var testCases: map<string, TestlinkCase>
    var attachments: map<string, Attachment>
    var started: bool

    /** Each case sits under its own name, and a project handle comes with a context. */
    ghost predicate Valid()
      reads this
    {
      (tlProject != null ==> tlContext != null)
      && forall k :: k in testCases ==> testCases[k].testCaseName == k
    }

    constructor ()
      ensures Valid()
      ensures tlContext == null && tlProject == null && !started
    {
      tlContext := null;
      tlProject := null;
      testCases := map[];
      attachments := map[];
      started := false;
    }

    /** The cases' values, in the given order of their names. */
    function RecordsOf(order: seq<string>): (r: seq<CaseRecord>)
      requires forall i :: 0 <= i < |order| ==> order[i] in testCases
      reads this, testCases.Values, set c, k | c in testCases.Values && 0 <= k < |c.steps| :: c.steps[k]
      ensures |r| == |order|
      ensures forall i :: 0 <= i < |order| ==> r[i] == testCases[order[i]].Record()
    {
      if order == [] then []
      else RecordsOf(order[..|order| - 1]) + [testCases[order[|order| - 1]].Record()]
    }

    /** `onTestSuccess`, `onTestFailure`, `onTestSkipped` and
        `onTestFailedButWithinSuccessPercentage`: a step is added to the instance's case
        (created on first use) and, except on a skip, the case status is set and the
        test's attachments are taken over. */
    method OnTestResult(result: TestResult, cb: Callback) returns (r: Outcome)
      requires Valid()
      modifies this, testCases.Values
      ensures Valid()
      ensures tlContext == old(tlContext) && tlProject == old(tlProject) && started == old(started)
      ensures old(tlProject) == null || !old(started) ==>
                r == (if old(tlProject) == null then Pass else Fail(NullPointer))
                && testCases == old(testCases) && attachments == old(attachments)
                && forall k :: k in testCases ==> testCases[k].Record() == old(testCases[k].Record())
      ensures old(tlProject) != null && old(started) ==>
                var name := result.instanceName;
                var prior := if name in old(testCases) then old(testCases[name].Record()) else NewRecord(name);
                testCases.Keys == old(testCases.Keys) + {name}
                && (forall k :: k in old(testCases) ==> testCases[k] == old(testCases[k]))
                && (forall k :: k in old(testCases) && k != name ==> testCases[k].Record() == old(testCases[k].Record()))
                && match ParametersText(result.parameters)
                   case Err(e) =>
                     r == Fail(e) && testCases[name].Record() == prior && attachments == old(attachments)
                   case Ok(text) =>
                     r == Pass
                     && testCases[name].Record()
                        == Logged(prior, result, cb, result.stackTrace, text, FormatDuration(result.endMillis - result.startMillis))
                     && attachments == if cb.Skipped? || result.attachments.None? then old(attachments)
                                       else PutAll(old(attachments), result.attachments.value)
    {
      if tlProject == null || !started {
        r := if tlProject == null then Pass else Fail(NullPointer);
        return;
      }
      r := Observe(result, cb, FormatDuration(result.endMillis - result.startMillis));
    }

    /** A callback once the maps exist. */
    method Observe(result: TestResult, cb: Callback, duration: string) returns (r: Outcome)
      requires Valid() && tlProject != null && started
      modifies this, testCases.Values
      ensures Valid()
      ensures tlContext == old(tlContext) && tlProject == old(tlProject) && started == old(started)
      ensures var name := result.instanceName;
              var prior := if name in old(testCases) then old(testCases[name].Record()) else NewRecord(name);
              testCases.Keys == old(testCases.Keys) + {name}
              && (forall k :: k in old(testCases) ==> testCases[k] == old(testCases[k]))
              && (forall k :: k in old(testCases) && k != name ==> testCases[k].Record() == old(testCases[k].Record()))
              && match ParametersText(result.parameters)
                 case Err(e) =>
                   r == Fail(e) && testCases[name].Record() == prior && attachments == old(attachments)
                 case Ok(text) =>
                   r == Pass
                   && testCases[name].Record()
                      == Logged(prior, result, cb, result.stackTrace, text, duration)
                   && attachments == if cb.Skipped? || result.attachments.None? then old(attachments)
                                     else PutAll(old(attachments), result.attachments.value)
    {
      var name := result.instanceName;
      var tlCase := CaseNamed(name);
      ghost var prior := tlCase.Record();
      var parameters := PrintParameters(result.parameters);
      assert tlCase.Record() == prior;
      if parameters.Err? {
        r := Fail(parameters.error);
      } else {
        Apply(tlCase, result, cb, parameters.value, duration);
        r := Pass;
      }
      forall k | k in old(testCases) && k != name
        ensures testCases[k].Record() == old(testCases[k].Record())
      {
        RecordKept(testCases[k]);
      }
    }

    /** The callback's effect on the case and on the attachment map. */
    method Apply(tlCase: TestlinkCase, result: TestResult, cb: Callback, parameters: string, duration: string)
      modifies this, tlCase
      ensures tlContext == old(tlContext) && tlProject == old(tlProject) && started == old(started)
      ensures testCases == old(testCases)
      ensures tlCase.Record()
              == Logged(old(tlCase.Record()), result, cb, result.stackTrace, parameters, duration)
      ensures attachments == if cb.Skipped? || result.attachments.None? then old(attachments)
                             else PutAll(old(attachments), result.attachments.value)
    {
      LogStep(tlCase, result, cb, result.stackTrace, parameters, duration);
      if !cb.Skipped? {
        TransferAttachments(result);
      }
    }

    /** `computeIfAbsent` on the case map: the instance's case, created empty on first use. */
    method CaseNamed(name: string) returns (tlCase: TestlinkCase)
      requires Valid()
      modifies this
      ensures Valid()
      ensures tlContext == old(tlContext) && tlProject == old(tlProject) && started == old(started)
      ensures attachments == old(attachments) && testCases == old(testCases)[name := tlCase]
      ensures name in old(testCases) ==> tlCase == old(testCases[name]) && tlCase.Record() == old(tlCase.Record())
      ensures name !in old(testCases) ==> fresh(tlCase) && tlCase.Record() == NewRecord(name)
    {
      if name in testCases {
        tlCase := testCases[name];
      } else {
        tlCase := new TestlinkCase(name);
        testCases := testCases[name := tlCase];
      }
    }

    /** `transferAttachments`: the test's attachments for the method put under their keys. */
    method TransferAttachments(result: TestResult)
      modifies this
      ensures attachments == if result.attachments.None? then old(attachments)
                             else PutAll(old(attachments), result.attachments.value)
      ensures tlContext == old(tlContext) && tlProject == old(tlProject)
      ensures testCases == old(testCases) && started == old(started)
    {
      if result.attachments.None? {
        return;
      }
      var list := result.attachments.value;
      for i := 0 to |list|
        invariant attachments == PutAll(old(attachments), list[..i])
        invariant tlContext == old(tlContext) && tlProject == old(tlProject)
        invariant testCases == old(testCases) && started == old(started)
      {
        assert list[..i + 1][..i] == list[..i];
        attachments := attachments[AttachmentKey(list[i]) := list[i]];
      }
      assert list[..|list|] == list;
    }
  
    /** `onStart`: without both system properties nothing happens; otherwise the context is
        taken, the project (with its plan) is looked up or created, then the build; only
        when both succeed are the two maps created, empty. */
    method OnStart(buildName: Option<string>, projectName: Option<string>, context: TestlinkIntegrationContext, now: string)
      returns (r: Outcome)
      requires Valid()
      modifies this, context.remoteApi
      ensures Valid()
      ensures projectName.None? || buildName.None? ==>
                r == Pass && tlContext == old(tlContext) && tlProject == old(tlProject) && started == old(started)
                && testCases == old(testCases) && attachments == old(attachments)
                && (context.remoteApi != null ==> context.remoteApi.db == old(context.remoteApi.db))
      ensures projectName.Some? && buildName.Some? ==>
                tlContext == context
                && (context.remoteApi == null ==>
                      r == Fail(ApiError(NoConnection)) && tlProject == old(tlProject) && started == old(started)
                      && testCases == old(testCases) && attachments == old(attachments))
                && (context.remoteApi != null ==>
                      var (p, db1) := ProjectFor(old(context.remoteApi.db), projectName.value, now);
                      if p.Err? then
                        r == Fail(p.error) && context.remoteApi.db == db1 && tlProject == old(tlProject)
                        && started == old(started) && testCases == old(testCases) && attachments == old(attachments)
                      else
                        var (b, db2) := BuildFor(db1, p.value.1, buildName.value);
                        context.remoteApi.db == db2 && tlProject != null && fresh(tlProject)
                        && tlProject.project == p.value.0 && tlProject.plan == p.value.1
                        && (b.Err? ==> r == Fail(b.error) && tlProject.build == None && started == old(started)
                                       && testCases == old(testCases) && attachments == old(attachments))
                        && (b.Ok? ==> r == Pass && tlProject.build == Some(b.value) && started
                                      && testCases == map[] && attachments == map[]))
    {
      if projectName.None? || buildName.None? {
        return Pass;
      }
      tlContext := context;
      var project := context.GetProject(projectName.value, now);
      if project.Err? {
        return Fail(project.error);
      }
      tlProject := project.value;
      var build := context.GetBuild(tlProject.plan, buildName.value);
      if build.Err? {
        return Fail(build.error);
      }
      tlProject.SetBuild(Some(build.value));
      testCases := map[];
      attachments := map[];
      started := true;
      r := Pass;
    }

    /** `onFinish`: the suite is looked up or created and the plan's cases are listed; each
        instance's case is stored; when one of them is a newer version of a linked case a
        new plan and a build of the same name are taken; then each case is linked, its
        result reported and every attachment saved against the execution. */
    method OnFinish(suiteName: string, order: seq<string>, attachmentOrder: seq<string>, now: string, nl: string)
      returns (r: Outcome)
      requires Valid()
      requires started ==> Lists(order, testCases) && Lists(attachmentOrder, attachments)
      modifies tlProject, if tlContext != null then {tlContext.remoteApi} else {}
      ensures tlProject == null ==>
                r == Pass && (tlContext != null && tlContext.remoteApi != null ==> tlContext.remoteApi.db == old(tlContext.remoteApi.db))
      ensures tlProject != null && tlContext.remoteApi == null ==>
                r == Fail(ApiError(NoConnection)) && tlProject.plan == old(tlProject.plan) && tlProject.build == old(tlProject.build)
      ensures tlProject != null && tlContext.remoteApi != null ==>
                var f := FinishFor(old(tlContext.remoteApi.db), old(tlProject.project), old(tlProject.plan), old(tlProject.build),
                                   if started then Some(old(RecordsOf(order))) else None, suiteName,
                                   if started then ValuesIn(attachments, attachmentOrder) else [], now, nl);
                r == f.outcome && tlProject.project == old(tlProject.project)
                && tlProject.plan == f.plan && tlProject.build == f.build && tlContext.remoteApi.db == f.db
    {
      if tlProject == null {
        return Pass;
      }
      ghost var records := if started then Some(RecordsOf(order)) else None;
      var attachmentList := if started then ValuesIn(attachments, attachmentOrder) else [];
      var suite := tlContext.GetSuite(tlProject.project, suiteName);
      if suite.Err? {
        return Fail(suite.error);
      }
      r := Store(suite.value, order, records, attachmentList, now, nl);
    }

    /** `onFinish` once it has the suite. */
    method Store(suite: TestSuite, order: seq<string>, ghost records: Option<seq<CaseRecord>>,
                 attachmentList: seq<Attachment>, now: string, nl: string) returns (r: Outcome)
      requires tlProject != null && tlContext != null && tlContext.remoteApi != null
      requires records.Some? <==> started
      requires started ==> (forall i :: 0 <= i < |order| ==> order[i] in testCases) && records.value == RecordsOf(order)
      modifies tlProject, tlContext.remoteApi
      ensures var f := StoreStage(old(tlContext.remoteApi.db), old(tlProject.project), old(tlProject.plan), old(tlProject.build),
                                  suite, records, attachmentList, now, nl);
              r == f.outcome && tlProject.project == old(tlProject.project)
              && tlProject.plan == f.plan && tlProject.build == f.build && tlContext.remoteApi.db == f.db
    {
      var existing := tlContext.GetTestCases(tlProject.plan, tlProject.build);
      if existing.Err? {
        return Fail(existing.error);
      }
      if !started {
        return Fail(NullPointer);
      }
      ghost var db1 := tlContext.remoteApi.db;
      var drafted, newPlan := CreateCases(order, records.value, suite, tlProject.project, existing.value, nl);
      if drafted.Err? {
        return Fail(drafted.error);
      }
      ghost var db2 := tlContext.remoteApi.db;
      assert StoreStage(old(tlContext.remoteApi.db), old(tlProject.project), old(tlProject.plan), old(tlProject.build),
                        suite, records, attachmentList, now, nl)
             == CommitStage(db2, tlProject.project, tlProject.plan, tlProject.build, drafted.value, newPlan, attachmentList, now);
      r := Conclude(drafted.value, newPlan, attachmentList, now);
    }

    /** The end of `onFinish`: the switch to a new plan and build, then the last loop. */
    method Conclude(drafted: seq<Drafted>, newPlan: bool, attachmentList: seq<Attachment>, now: string) returns (r: Outcome)
      requires tlProject != null && tlContext != null && tlContext.remoteApi != null
      requires newPlan ==> tlProject.build.Some?
      modifies tlProject, tlContext.remoteApi
      ensures var f := CommitStage(old(tlContext.remoteApi.db), old(tlProject.project), old(tlProject.plan), old(tlProject.build),
                                   drafted, newPlan, attachmentList, now);
              r == f.outcome && tlProject.project == old(tlProject.project)
              && tlProject.plan == f.plan && tlProject.build == f.build && tlContext.remoteApi.db == f.db
    {
      if newPlan {
        var plan := tlContext.CreatePlan(tlProject.project, now);
        if plan.Err? {
          return Fail(plan.error);
        }
        tlProject.SetPlan(Some(plan.value));
        var build := tlContext.GetBuild(tlProject.plan, tlProject.build.value.name);
        if build.Err? {
          return Fail(build.error);
        }
        tlProject.SetBuild(Some(build.value));
      }
      r := CommitCases(drafted, attachmentList);
    }

    /** The first loop of `onFinish`, with the inner loop that looks for a superseded case. */
    method CreateCases(order: seq<string>, ghost records: seq<CaseRecord>, suite: TestSuite, project: TestProject, existing: seq<TestCase>, nl: string)
      returns (drafted: Result<seq<Drafted>>, newPlan: bool)
      requires tlContext != null && tlContext.remoteApi != null
      requires forall i :: 0 <= i < |order| ==> order[i] in testCases
      requires records == RecordsOf(order)
      modifies tlContext.remoteApi
      ensures (drafted, tlContext.remoteApi.db) == CreateAll(old(tlContext.remoteApi.db), records, suite, project, nl)
      ensures drafted.Ok? ==> newPlan == NeedsNewPlan(drafted.value, existing)
    {
      ghost var db0 := tlContext.remoteApi.db;
      var list: seq<Drafted> := [];
      newPlan := false;
      for i := 0 to |order|
        invariant (Ok(list), tlContext.remoteApi.db) == CreateAll(db0, records[..i], suite, project, nl)
        invariant newPlan == NeedsNewPlan(list, existing)
      {
        var tlCase := testCases[order[i]];
        RecordKept(tlCase);
        var steps, protocol := DraftCase(tlCase, true, nl);
        CreateAllNext(db0, records, i, suite, project, nl);
        var created := tlContext.CreateTestCase(tlCase.testCaseName, suite, project, steps);
        if created.Err? {
          CreateAllStops(db0, records, i + 1, suite, project, nl);
          return Err(created.error), newPlan;
        }
        var newer := CheckSupersedes(created.value, existing);
        var d := Drafted(created.value, tlCase.status, protocol);
        NeedsNewPlanAppend(list, d, existing);
        list := list + [d];
        newPlan := newPlan || newer;
      }
      assert records[..|order|] == records;
      drafted := Ok(list);
    }

    /** The last loop of `onFinish`. */
    method CommitCases(drafted: seq<Drafted>, attachmentList: seq<Attachment>) returns (r: Outcome)
      requires tlContext != null && tlContext.remoteApi != null && tlProject != null
      modifies tlContext.remoteApi
      ensures var (committed, db1) := CommitAll(old(tlContext.remoteApi.db), drafted, tlProject.plan, tlProject.build, attachmentList);
              r == OutcomeOf(committed) && tlContext.remoteApi.db == db1
    {
      ghost var db0 := tlContext.remoteApi.db;
      var plan := tlProject.plan;
      var build := tlProject.build;
      for i := 0 to |drafted|
        invariant CommitAll(db0, drafted[..i], plan, build, attachmentList) == (Ok(()), tlContext.remoteApi.db)
      {
        var d := drafted[i];
        assert drafted[..i + 1][..i] == drafted[..i];
        var linked := tlContext.AddTestCaseToPlan(d.testCase, plan, build);
        if linked.Err? {
          CommitAllStops(db0, drafted, plan, build, attachmentList, i + 1);
          return Fail(linked.error);
        }
        var reported := tlContext.SetTestResult(d.testCase, plan, build, d.status, d.protocol);
        if reported.Err? {
          CommitAllStops(db0, drafted, plan, build, attachmentList, i + 1);
          return Fail(reported.error);
        }
        var uploaded := SaveAll(reported.value, attachmentList);
        if uploaded.Err? {
          CommitAllStops(db0, drafted, plan, build, attachmentList, i + 1);
          return Fail(uploaded.error);
        }
      }
      assert drafted[..|drafted|] == drafted;
      r := Pass;
    }

    /** The `forEach` over the attachments for one execution. */
    method SaveAll(executionId: Option<nat>, attachmentList: seq<Attachment>) returns (r: Result<()>)
      requires tlContext != null && tlContext.remoteApi != null
      modifies tlContext.remoteApi
      ensures (r, tlContext.remoteApi.db) == UploadAll(old(tlContext.remoteApi.db), executionId, attachmentList)
    {
      ghost var db0 := tlContext.remoteApi.db;
      for i := 0 to |attachmentList|
        invariant UploadAll(db0, executionId, attachmentList[..i]) == (Ok(()), tlContext.remoteApi.db)
      {
        assert attachmentList[..i + 1][..i] == attachmentList[..i];
        var saved := tlContext.SaveAttachment(executionId, attachmentList[i]);
        if saved.Err? {
          UploadAllStops(db0, executionId, attachmentList, i + 1);
          return saved;
        }
      }
      assert attachmentList[..|attachmentList|] == attachmentList;
      r := Ok(());
    }
  }
}
