# TestLinkNgIntegration in Dafny

TestLinkNgIntegration is a TestNG listener that mirrors a test run into a TestLink
server. While the tests run, the listener collects one *case* per test-class instance.
Each callback of a test method adds one *step* to that case, records the status and
duration, and (in the current package) takes over the test's attachments. At the end
of the run, the listener does three things:

- it stores each case in the project's suite, as a new version when its steps changed;
- it links each case to the automation test plan and build;
- it reports one execution per case, with a text protocol as notes, and uploads the
  attachments against that execution.

The repository ships two generations of this code:

- the current package `com.datengaertnerei.test`;
- the legacy package `com.datengaertnerei.testng`.

Both are modelled here.

How the model is built:

- **The server.** The TestLink server and its `TestLinkAPI` client are not part of
  the repository. `Remote` (remote.dfy) stands in for them. It is a value `Db` holding
  projects, plans, builds, suites, case versions, plan links, executions and uploads.
  Each API call is a function from a `Db` to a result and a new `Db`. Injected read
  and write faults stand for transport failures. The class `Remote.RemoteStore` is
  the client object whose calls update that state.
- **The gateways.** The two `TestlinkIntegrationContext` classes are
  `TestGateway.TestlinkIntegrationContext` and
  `LegacyGateway.TestlinkIntegrationContext`. Each method is proved equal to a
  specification function over the server state (`BuildFor`, `SuiteFor`, `CaseFor`,
  `MembershipFor`, ...). The loops of `getPlan`, `getBuild`, `getSuite`,
  `compareSteps` and `addTestCaseToPlan` are kept as loops with invariants.
- **Errors and null.** Java exceptions become `Err` values (`ApiError`,
  `NullPointer`). A Java `null` becomes `None`, or a `null` reference.
- **The accumulators.** The step, the two cases and the legacy project handle are
  classes with the same fields and setters: `StepHolder`, `CaseHolder`,
  `LegacyCaseHolder` and `ProjectHandle`.
- **The listeners.** They are `TestListener.TestlinkIntegrationListener` and
  `LegacyListener.TestlinkIntegrationListener`. Their callbacks are proved to update
  the instance's case exactly as `ListenerRules.Logged` says. Their `onFinish` is
  proved equal to a specification function of the whole end-of-run conversation with
  the server (`TestListener.FinishFor`, `LegacyListener.LegacyFinishFor`). The lemmas
  beside those functions state what a run leaves on the server.

What is proved beyond the per-method contracts:

- **Idempotence.** Looking up or creating a project, plan, build, suite, case or
  plan membership settles: repeating the call finds what the first one left behind
  and creates nothing.
- **Prefix rule.** A project's prefix is derived from the last dot-separated piece of
  its name.
- **compareSteps.** It accepts exactly the equal-length, duplicate-free permutations
  of the stored actions. A data-driven method that runs several times per instance
  therefore stores a new case version on every run.
- **Every case is reported.** After a successful `onFinish`, each case has exactly
  one execution, with its own status and protocol, and the plan holds the case at
  the same or a newer version. After the old uploads, the new uploads come in one
  block per execution, in the order of the reports. Each block holds every readable
  attachment, in order, against that execution, not just against the execution of
  the test that supplied it.
- **The callbacks.** Duration text, parameter text, step order and the case status
  are all fixed by the callbacks: a skip never sets the case status, and the last
  callback that is not a skip decides it.
- **The legacy listener reports nothing.** Its `onStart` never gives the project a
  build. So `onFinish` fails on the first case, before anything is linked or
  reported (`LegacyListener.LegacyFinishReportsNothing`). With its case class as
  written it fails even earlier, at the first case's step list, before any case is
  stored (`LegacyListener.AsWrittenFinishStoresNothing`).

## Model

| member | source | states |
|---|---|---|
| Text.Contains | src/main/java/com/datengaertnerei/test/TestlinkIntegrationContext.java:459 | `String.contains`: true exactly when the text occurs at some index of the string |
| Text.IntToString | src/main/java/com/datengaertnerei/test/TestlinkIntegrationListener.java:214-215 | `%d`: a non-empty decimal text that starts with `-` exactly for negative numbers |
| Text.DecimalRoundTrip | src/main/java/com/datengaertnerei/test/TestlinkIntegrationListener.java:214-215 | reading `%d`'s digits back gives the number |
| Text.IntToStringInjective | src/main/java/com/datengaertnerei/test/TestlinkIntegrationListener.java:214-215 | different numbers print differently, so the duration text fixes its hours, minutes and seconds |
| Text.JoinLines | src/main/java/com/datengaertnerei/test/TestlinkIntegrationContext.java:344-346 | `Collectors.joining("\n")`: no lines give the empty text, one line is itself; a line feed goes only between two lines |
| GatewayRules.CheckApiExceptionNotFound | src/main/java/com/datengaertnerei/test/TestlinkIntegrationContext.java:458-462 | an API error passes as "not found" exactly when it is an API error whose message contains "exist"; any other error is rethrown unchanged |
| GatewayRules.ClassifiesServerMessages | src/main/java/com/datengaertnerei/test/TestlinkIntegrationContext.java:458-462 | the server's missing-project, missing-plan, missing-case and missing-version answers count as not-found, while a NullPointer or index error never does |
| GatewayRules.SplitOnDots | src/main/java/com/datengaertnerei/test/TestlinkIntegrationContext.java:104 | splitting on dots always yields at least one piece |
| GatewayRules.StripVowels | src/main/java/com/datengaertnerei/test/TestlinkIntegrationContext.java:105-106 | removing vowels drops every vowel and keeps every other character exactly as often as the input has it; the result is never longer, and a vowel-free text comes back unchanged |
| GatewayRules.TrimTrailingDots | src/main/java/com/datengaertnerei/test/TestlinkIntegrationContext.java:104 | the result is the longest prefix of the input not ending in a dot; only dots were removed |
| GatewayRules.AfterLastDot | src/main/java/com/datengaertnerei/test/TestlinkIntegrationContext.java:104-106 | the result is the dot-free suffix of the input that is either the whole input or directly preceded by a dot, which fixes it uniquely |
| GatewayRules.SplitLastPiece | src/main/java/com/datengaertnerei/test/TestlinkIntegrationContext.java:104 | the last piece of the dot split is the text after the last dot |
| GatewayRules.DropTrailingDots | src/main/java/com/datengaertnerei/test/TestlinkIntegrationContext.java:104 | trailing dots do not change Java's split, which drops trailing empty pieces |
| GatewayRules.LastPieceIsAfterLastDot | src/main/java/com/datengaertnerei/test/TestlinkIntegrationContext.java:104-106 | Java's split is empty exactly for a name made only of dots; otherwise its last piece is the text after the last dot once trailing dots are removed |
| GatewayRules.AfterLastDotWithoutDots | src/main/java/com/datengaertnerei/test/TestlinkIntegrationContext.java:104-106 | a dot-free name is its own last piece |
| GatewayRules.JavaSplitOnDots | src/main/java/com/datengaertnerei/test/TestlinkIntegrationContext.java:104 | Java's split on dots: the whole name when it holds no dot, otherwise the pieces between dots without the trailing empty ones; `LastPieceIsAfterLastDot` relates its last piece to the text after the last dot |
| GatewayRules.ProjectPrefix | src/main/java/com/datengaertnerei/test/TestlinkIntegrationContext.java:104-106 | a new project's prefix is the vowel-free last piece of the dot split, and indexing an empty split (a name made only of dots) throws; `ProjectPrefixFacts` states the result |
| GatewayRules.ProjectPrefixFacts | src/main/java/com/datengaertnerei/test/TestlinkIntegrationContext.java:104-106 | the prefix rule fails exactly for a non-empty name made only of dots; otherwise the prefix is the vowel-free form of the last dot-separated piece once trailing dots are dropped, so it holds no vowel and no dot |
| GatewayRules.CompareSteps | src/main/java/com/datengaertnerei/test/TestlinkIntegrationContext.java:297-311 | the loops answer "unchanged" exactly when both lists have the same length, the new list repeats no action, and both lists hold the same set of actions |
| GatewayRules.ActionSetSplit | src/main/java/com/datengaertnerei/test/TestlinkIntegrationContext.java:297-311 | the action set of a step list is the set of all but its last step plus the last action |
| GatewayRules.DistinctSplit | src/main/java/com/datengaertnerei/test/TestlinkIntegrationContext.java:297-311 | a step list repeats no action exactly when its front repeats none and the last action is new |
| GatewayRules.DistinctCardinality | src/main/java/com/datengaertnerei/test/TestlinkIntegrationContext.java:297-311 | the action set is never larger than the list, and is exactly as large when no action repeats; this is the size test compareSteps relies on |
| GatewayRules.StepsMatchIsPermutation | src/main/java/com/datengaertnerei/test/TestlinkIntegrationContext.java:297-311 | an "unchanged" answer is symmetric, and both lists are duplicate-free |
| GatewayRules.RepeatedActionNeverMatches | src/main/java/com/datengaertnerei/test/TestlinkIntegrationContext.java:297-311 | a list that repeats an action, on either side, is never judged unchanged |
| GatewayRules.FirstBuildNamed | src/main/java/com/datengaertnerei/test/TestlinkIntegrationContext.java:174-179 | the search finds nothing exactly when no build of the plan has the name; a found build is listed and carries the name |
| GatewayRules.FirstBuildNamedAt | src/main/java/com/datengaertnerei/test/TestlinkIntegrationContext.java:174-179 | the loop's early return finds the first build of that name |
| GatewayRules.FirstSuiteNamed | src/main/java/com/datengaertnerei/test/TestlinkIntegrationContext.java:199-205 | the search finds nothing exactly when no first-level suite has the name; a found suite is listed and carries the name |
| GatewayRules.FirstSuiteNamedAt | src/main/java/com/datengaertnerei/test/TestlinkIntegrationContext.java:199-205 | the loop's early return finds the first suite of that name |
| GatewaySpec.PlanCasesFor | src/main/java/com/datengaertnerei/test/TestlinkIntegrationContext.java:229-243 | listing a plan's cases can succeed only when both the plan and the build are set |
| GatewaySpec.AttachmentKey | src/main/java/com/datengaertnerei/test/TestlinkIntegrationContext.java:349 | an attachment's upload title (the client's second argument) is its content id, or its `toString()` when it has none; the listener keys its map the same way |
| GatewaySpec.AttachmentFileName | src/main/java/com/datengaertnerei/test/TestlinkIntegrationContext.java:351-353 | the upload's file name (the client's fourth argument) is the content location, or `toString()` when there is none |
| GatewaySpec.ProjectLookupFor | src/main/java/com/datengaertnerei/test/TestlinkIntegrationContext.java:96-111 | the project by name; only a not-found answer leads to creating it with the derived prefix, and any other error is passed on; `GetProject` is proved to follow it and `ProjectLookupSettles` that it settles |
| GatewaySpec.BuildFor | src/main/java/com/datengaertnerei/test/TestlinkIntegrationContext.java:170-186 | a null plan throws; otherwise the first build of the plan with that name, or a new one when there is none or the listing is not found; `GetBuild` is proved to follow it and `BuildForSettles` that it settles |
| GatewaySpec.SuiteFor | src/main/java/com/datengaertnerei/test/TestlinkIntegrationContext.java:195-220 | the first top-level suite of the project with that name, or a new one, tagged with the project's id either way; `GetSuite` is proved to follow it and `SuiteForSettles` that it settles |
| GatewaySpec.CaseFor | src/main/java/com/datengaertnerei/test/TestlinkIntegrationContext.java:254-288 | the newest version of the case with that name is kept when `compareSteps` matches its steps; otherwise a new case or version is created and read back; `CaseForReusesOnlyMatchingSteps` and `CaseForSettles` state the outcome |
| GatewaySpec.MembershipFor | src/main/java/com/datengaertnerei/test/TestlinkIntegrationContext.java:321-333 | the plan's cases are listed; nothing is asked of the server when one of them has the same id at the same or a newer version, otherwise that version is linked; `MembershipForSettles` and `TestListener.MembershipForHolds` state the outcome |
| GatewaySpec.ResultFor | src/main/java/com/datengaertnerei/test/TestlinkIntegrationContext.java:372-440 | a null plan, build or status throws before the server is called; otherwise one execution is reported with the case, plan, build, status and notes; `ResultForFacts` states the new state |
| GatewaySpec.AttachmentFor | src/main/java/com/datengaertnerei/test/TestlinkIntegrationContext.java:341-359 | an attachment whose content cannot be read is skipped; otherwise its joined base64 lines are uploaded under `AttachmentKey` and `AttachmentFileName`; `TestListener.AttachmentForFacts` states the outcome |
| GatewayFacts.FirstBuildAppended | src/main/java/com/datengaertnerei/test/TestlinkIntegrationContext.java:170-186 | a newly created build is found first under its name when none existed before |
| GatewayFacts.FirstSuiteAppended | src/main/java/com/datengaertnerei/test/TestlinkIntegrationContext.java:195-220 | a newly created suite is found first under its name when none existed before |
| GatewayFacts.FirstProjectAppended | src/main/java/com/datengaertnerei/test/TestlinkIntegrationContext.java:96-111 | a newly created project is found first under its name when none existed before |
| GatewayFacts.ProjectLookupSettles | src/main/java/com/datengaertnerei/test/TestlinkIntegrationContext.java:96-111 | the project found or created has the requested name and is the one the server now finds under it; a created project got the prefix derived from its name |
| GatewayFacts.BuildForSettles | src/main/java/com/datengaertnerei/test/TestlinkIntegrationContext.java:170-186 | the build found or created belongs to the plan and has the name; asking again returns it and changes nothing |
| GatewayFacts.SuiteForSettles | src/main/java/com/datengaertnerei/test/TestlinkIntegrationContext.java:195-220 | the suite found or created has the name and the project's id; asking again returns it and changes nothing |
| GatewayFacts.MembershipForSettles | src/main/java/com/datengaertnerei/test/TestlinkIntegrationContext.java:321-333 | after a successful link, the plan holds the case at the same or a newer version, and repeating the link changes nothing |
| GatewayFacts.MembershipSucceedsUnlessSuperseding | src/main/java/com/datengaertnerei/test/TestlinkIntegrationContext.java:321-333 | on a healthy server, a plan that holds no older version of an existing case accepts it |
| GatewayFacts.MembershipRefusedWhenSuperseding | src/main/java/com/datengaertnerei/test/TestlinkIntegrationContext.java:321-333 | a plan that holds the case only at older versions refuses the newer one; this rests on the server stand-in `Remote.NewLink` refusing a case id the plan already links, which is the behaviour the comment at src/main/java/com/datengaertnerei/test/TestlinkIntegrationListener.java lines 166-167 expects, and it is why onFinish switches to a new plan |
| GatewayFacts.CaseForReusesOnlyMatchingSteps | src/main/java/com/datengaertnerei/test/TestlinkIntegrationContext.java:254-288 | createTestCase returns either a stored case whose steps match, with the server unchanged, or a newly appended case with the given name, suite and steps |
| GatewayFacts.RepeatedActionsAlwaysAddVersion | src/main/java/com/datengaertnerei/test/TestlinkIntegrationContext.java:254-311 | steps that repeat an action always store one more case version, on a healthy server |
| GatewayFacts.SameNameAppended | src/main/java/com/datengaertnerei/test/TestlinkIntegrationContext.java:260-264 | appending a case changes the first case of a name in a suite only when none existed and the new case has that name and suite |
| GatewayFacts.LookupBySuiteName | src/main/java/com/datengaertnerei/test/TestlinkIntegrationContext.java:260-264 | with suite names unique in the project, the lookup by case and suite name finds the first case of that name in that very suite |
| GatewayFacts.CaseForSettles | src/main/java/com/datengaertnerei/test/TestlinkIntegrationContext.java:254-288 | once a case with duplicate-free steps is stored, running createTestCase again with the same steps reuses it and stores nothing |
| GatewayFacts.MembershipForLinksOnly | src/main/java/com/datengaertnerei/test/TestlinkIntegrationContext.java:321-333 | linking a case changes only the plan links, and only adds to them |
| GatewayFacts.ResultForFacts | src/main/java/com/datengaertnerei/test/TestlinkIntegrationContext.java:372-440 | a successful report appends exactly one execution with the case, plan, build, status and notes, and needs all of plan, build and status; a failed one changes nothing; the execution id comes back only when the server answers one |
| StepHolder.TestlinkStep.constructor | src/main/java/com/datengaertnerei/test/TestlinkStep.java:15-18 | a new step has the method name and parameter text, and no stack trace or status |
| StepHolder.TestlinkStep.SetTestStepName | src/main/java/com/datengaertnerei/test/TestlinkStep.java:24-26 | sets the name and nothing else |
| StepHolder.TestlinkStep.SetParameters | src/main/java/com/datengaertnerei/test/TestlinkStep.java:32-34 | sets the parameter text and nothing else |
| StepHolder.TestlinkStep.SetStackTrace | src/main/java/com/datengaertnerei/test/TestlinkStep.java:40-42 | sets the stack trace and nothing else |
| StepHolder.TestlinkStep.SetStatus | src/main/java/com/datengaertnerei/test/TestlinkStep.java:48-50 | sets the status and nothing else |
| CaseHolder.StepRecords | src/main/java/com/datengaertnerei/test/TestlinkCase.java:27-29 | the values of the case's steps, one per step: what `getSteps()` hands to `onFinish` |
| CaseHolder.StepRecordsAppend | src/main/java/com/datengaertnerei/test/TestlinkCase.java:23-25 | adding a step appends its values at the end |
| CaseHolder.StepRecordsAt | src/main/java/com/datengaertnerei/test/TestlinkCase.java:27-29 | the i-th value is the i-th step's |
| CaseHolder.StepRecordsKept | src/main/java/com/datengaertnerei/test/TestlinkCase.java:27-29 | steps left alone keep their values |
| CaseHolder.RecordKept | src/main/java/com/datengaertnerei/test/TestlinkCase.java:7-46 | a case whose fields and steps were left alone has the same values |
| CaseHolder.TestlinkCase.constructor | src/main/java/com/datengaertnerei/test/TestlinkCase.java:14-17 | a new case has its name, an empty step list, and no status or duration |
| CaseHolder.TestlinkCase.AddStep | src/main/java/com/datengaertnerei/test/TestlinkCase.java:23-25 | the step is appended at the end and nothing else changes |
| CaseHolder.TestlinkCase.SetDuration | src/main/java/com/datengaertnerei/test/TestlinkCase.java:35-37 | sets the duration and nothing else |
| CaseHolder.TestlinkCase.SetStatus | src/main/java/com/datengaertnerei/test/TestlinkCase.java:43-45 | sets the status and nothing else |
| LegacyCaseHolder.TestlinkCase.constructor | src/main/java/com/datengaertnerei/testng/TestlinkCase.java:13-15 | a new legacy case has its name and a null step list |
| LegacyCaseHolder.TestlinkCase.AddStep | src/main/java/com/datengaertnerei/testng/TestlinkCase.java:21-23 | adding to the null list throws a NullPointerException; a list, if there were one, would get the step appended |
| LegacyCaseHolder.TestlinkCase.SetDuration | src/main/java/com/datengaertnerei/testng/TestlinkCase.java:33-35 | sets the duration and nothing else |
| LegacyCaseHolder.TestlinkCase.SetStatus | src/main/java/com/datengaertnerei/testng/TestlinkCase.java:41-43 | sets the status and nothing else |
| LegacyCaseHolder.FirstStepFails | src/main/java/com/datengaertnerei/testng/TestlinkCase.java:13-23 | the first step added to any legacy case fails with a NullPointerException |
| ProjectHandle.TestlinkProject.constructor | src/main/java/com/datengaertnerei/testng/TestlinkProject.java:36-38 | a handle holds the project, with no plan or build |
| ProjectHandle.TestlinkProject.SetBuild | src/main/java/com/datengaertnerei/testng/TestlinkProject.java:16-18 | sets the build and nothing else |
| ProjectHandle.TestlinkProject.SetPlan | src/main/java/com/datengaertnerei/testng/TestlinkProject.java:24-26 | sets the plan and nothing else |
| ProjectHandle.TestlinkProject.SetProject | src/main/java/com/datengaertnerei/testng/TestlinkProject.java:32-34 | sets the project and nothing else |
| TestGateway.NewestPlan | src/main/java/com/datengaertnerei/test/TestlinkIntegrationContext.java:129-136 | picks a listed automation plan (name starting "TestNGAutomation-") whose id is at least that of every other automation plan; finds none exactly when no plan is one |
| TestGateway.PlanFor | src/main/java/com/datengaertnerei/test/TestlinkIntegrationContext.java:125-161 | the newest automation plan of the project, or a new one named after the time; a not-found answer from the listing or the creation yields no plan; `PlanForSettles` states that it settles |
| TestGateway.ProjectFor | src/main/java/com/datengaertnerei/test/TestlinkIntegrationContext.java:96-116 | the project (found or created) together with its plan, failing with the first error; `ProjectForSettles` states that it settles |
| TestGateway.PlanForKeepsProjects | src/main/java/com/datengaertnerei/test/TestlinkIntegrationContext.java:125-161 | getPlan creates no project |
| TestGateway.PlanForSettles | src/main/java/com/datengaertnerei/test/TestlinkIntegrationContext.java:125-161 | the plan found or created is an automation plan of the project, and a later call, at any time, picks the same plan and creates nothing |
| TestGateway.ProjectForSettles | src/main/java/com/datengaertnerei/test/TestlinkIntegrationContext.java:96-145 | a second getProject against the server left by the first answers the same project and plan and creates nothing |
| TestGateway.TestlinkIntegrationContext.constructor | src/main/java/com/datengaertnerei/test/TestlinkIntegrationContext.java:59-74 | the context holds the connection, or none |
| TestGateway.TestlinkIntegrationContext.GetProject | src/main/java/com/datengaertnerei/test/TestlinkIntegrationContext.java:96-116 | fails without a connection; otherwise the server moves as ProjectFor says, and a fresh handle holds the project and its plan, with no build |
| TestGateway.TestlinkIntegrationContext.GetPlan | src/main/java/com/datengaertnerei/test/TestlinkIntegrationContext.java:125-145 | the loop over the plans plus the creation give exactly PlanFor's answer and server state |
| TestGateway.TestlinkIntegrationContext.CreatePlan | src/main/java/com/datengaertnerei/test/TestlinkIntegrationContext.java:153-161 | without a connection it throws a NullPointerException; otherwise it creates a plan named "TestNGAutomation-" plus the time |
| TestGateway.TestlinkIntegrationContext.GetBuild | src/main/java/com/datengaertnerei/test/TestlinkIntegrationContext.java:170-186 | the loop over the builds plus the creation give exactly BuildFor's answer and server state |
| TestGateway.TestlinkIntegrationContext.GetSuite | src/main/java/com/datengaertnerei/test/TestlinkIntegrationContext.java:195-220 | the loop over the first-level suites plus the creation give exactly SuiteFor's answer and server state |
| TestGateway.TestlinkIntegrationContext.GetTestCases | src/main/java/com/datengaertnerei/test/TestlinkIntegrationContext.java:229-243 | answers the plan's cases for the build, and an empty list on not-found, without changing the server |
| TestGateway.TestlinkIntegrationContext.CreateTestCase | src/main/java/com/datengaertnerei/test/TestlinkIntegrationContext.java:254-288 | without a connection it throws a NullPointerException; otherwise it reuses a case whose steps match, or stores a new version, as CaseFor says |
| TestGateway.TestlinkIntegrationContext.AddTestCaseToPlan | src/main/java/com/datengaertnerei/test/TestlinkIntegrationContext.java:321-333 | the loop over the plan's cases plus the link call give exactly MembershipFor's answer and server state |
| TestGateway.TestlinkIntegrationContext.SetTestResult | src/main/java/com/datengaertnerei/test/TestlinkIntegrationContext.java:372-440 | without a connection it throws a NullPointerException; otherwise it reports the execution as ResultFor says |
| TestGateway.TestlinkIntegrationContext.SaveAttachment | src/main/java/com/datengaertnerei/test/TestlinkIntegrationContext.java:341-359 | an unreadable attachment is skipped; a readable one is uploaded against the execution as AttachmentFor says, and throws without a connection |
| LegacyGateway.FirstPlanAppended | src/main/java/com/datengaertnerei/testng/TestlinkIntegrationContext.java:119-130 | a newly created plan is found first under its name in the project when none existed before |
| LegacyGateway.PlanFor | src/main/java/com/datengaertnerei/testng/TestlinkIntegrationContext.java:119-130 | the project's plan with the fixed name "TestNGAutomation", created when the server reports it missing; `PlanForSettles` states that it settles |
| LegacyGateway.ProjectFor | src/main/java/com/datengaertnerei/testng/TestlinkIntegrationContext.java:91-111 | the project (found or created) together with that plan, failing with the first error; `ProjectForSettles` states that it settles |
| LegacyGateway.SuiteCasesFor | src/main/java/com/datengaertnerei/testng/TestlinkIntegrationContext.java:193-204 | the suite's cases, or none when the server reports the suite missing; `GetTestCasesOfSuite` is proved to follow it |
| LegacyGateway.PlanForSettles | src/main/java/com/datengaertnerei/testng/TestlinkIntegrationContext.java:119-130 | the plan found or created is named "TestNGAutomation"; asking again returns it and creates nothing; no project ever gets a second plan of that name |
| LegacyGateway.ProjectForSettles | src/main/java/com/datengaertnerei/testng/TestlinkIntegrationContext.java:91-130 | a second getProject answers the same project and plan and creates nothing |
| LegacyGateway.TestlinkIntegrationContext.constructor | src/main/java/com/datengaertnerei/testng/TestlinkIntegrationContext.java:54-69 | the context holds the connection, or none |
| LegacyGateway.TestlinkIntegrationContext.GetProject | src/main/java/com/datengaertnerei/testng/TestlinkIntegrationContext.java:91-111 | fails without a connection; otherwise the server moves as the legacy ProjectFor says, and a fresh handle holds the project and its fixed plan, with no build |
| LegacyGateway.TestlinkIntegrationContext.GetPlan | src/main/java/com/datengaertnerei/testng/TestlinkIntegrationContext.java:119-130 | returns the project's "TestNGAutomation" plan, created when reported missing, as the legacy PlanFor says |
| LegacyGateway.TestlinkIntegrationContext.GetBuild | src/main/java/com/datengaertnerei/testng/TestlinkIntegrationContext.java:139-155 | the loop over the builds plus the creation give exactly BuildFor's answer and server state |
| LegacyGateway.TestlinkIntegrationContext.GetSuite | src/main/java/com/datengaertnerei/testng/TestlinkIntegrationContext.java:162-187 | the loop over the suites plus the creation give exactly SuiteFor's answer and server state |
| LegacyGateway.TestlinkIntegrationContext.GetTestCasesOfSuite | src/main/java/com/datengaertnerei/testng/TestlinkIntegrationContext.java:193-204 | answers the suite's cases, and an empty list on not-found, without changing the server |
| LegacyGateway.TestlinkIntegrationContext.GetTestCases | src/main/java/com/datengaertnerei/testng/TestlinkIntegrationContext.java:211-225 | answers the plan's cases for the build, and an empty list on not-found, without changing the server |
| LegacyGateway.TestlinkIntegrationContext.CreateTestCase | src/main/java/com/datengaertnerei/testng/TestlinkIntegrationContext.java:234-291 | without a connection it throws a NullPointerException; otherwise it reuses a case whose steps match, or stores a new version, as CaseFor says |
| LegacyGateway.TestlinkIntegrationContext.AddTestCaseToPlan | src/main/java/com/datengaertnerei/testng/TestlinkIntegrationContext.java:299-311 | the loop over the plan's cases plus the link call give exactly MembershipFor's answer and server state |
| LegacyGateway.TestlinkIntegrationContext.SetTestResult | src/main/java/com/datengaertnerei/testng/TestlinkIntegrationContext.java:322-387 | without a connection it throws a NullPointerException; otherwise it reports the execution as ResultFor says |
| ListenerRules.TruncDivideTwice | src/main/java/com/datengaertnerei/test/TestlinkIntegrationListener.java:213-215 | truncating division by 60 twice equals truncating division by 3600, for negative durations too |
| ListenerRules.DurationAddsUp | src/main/java/com/datengaertnerei/test/TestlinkIntegrationListener.java:213-215 | the hours, minutes and seconds printed add up to the duration's whole seconds, with minutes and seconds each below 60 in magnitude |
| ListenerRules.FormatDuration | src/main/java/com/datengaertnerei/test/TestlinkIntegrationListener.java:213-215 | the "%d hours, %d mins, %d seconds" text of the elapsed time, with Java's truncating division; `DurationAddsUp` states what the three numbers are |
| ListenerRules.ParameterListFails | src/main/java/com/datengaertnerei/test/TestlinkIntegrationListener.java:193-205 | listing the arguments throws a NullPointerException exactly when one argument is null |
| ListenerRules.ParametersTextFacts | src/main/java/com/datengaertnerei/test/TestlinkIntegrationListener.java:193-205 | the text is "No parameters." exactly for a method without arguments, fails exactly on a null argument, and otherwise starts with "Parameters:" |
| ListenerRules.PrintParameters | src/main/java/com/datengaertnerei/test/TestlinkIntegrationListener.java:193-205 | the loop appending argument by argument builds exactly ParametersText |
| ListenerRules.ParametersText | src/main/java/com/datengaertnerei/test/TestlinkIntegrationListener.java:193-205 | no parameters give "No parameters." and a line break; otherwise "Parameters:", a line break and each parameter's class name and text; a null parameter throws; `ParametersTextFacts` and `PrintParameters` state this |
| ListenerRules.CaseSteps | src/main/java/com/datengaertnerei/test/TestlinkIntegrationListener.java:146-152 | one remote step per recorded step, numbered from 0 in recording order, whose action names the method and which expects a successful run |
| ListenerRules.LegacyCaseSteps | src/main/java/com/datengaertnerei/testng/TestlinkIntegrationListener.java:108-112 | one unnumbered remote step per recorded step, whose action names the method |
| ListenerRules.ActionNamesMethod | src/main/java/com/datengaertnerei/test/TestlinkIntegrationListener.java:219-225 | two steps get the same action exactly when they ran the same method |
| ListenerRules.DistinctActionsOfNames | src/main/java/com/datengaertnerei/test/TestlinkIntegrationListener.java:219-225 | steps made one per recorded step repeat no action exactly when no method name repeats |
| ListenerRules.DistinctStepsIffDistinctMethods | src/main/java/com/datengaertnerei/test/TestlinkIntegrationListener.java:146-152 | a case's remote steps, numbered or not, repeat no action exactly when no method ran twice in the instance |
| ListenerRules.ProtocolAppend | src/main/java/com/datengaertnerei/test/TestlinkIntegrationListener.java:186-191 | the protocol of the first steps is a prefix of the whole protocol, and appending blocks composes |
| ListenerRules.StepBlockFacts | src/main/java/com/datengaertnerei/test/TestlinkIntegrationListener.java:186-191 | a step's block of the protocol starts with the step's name, ": ", its status and a line separator; then come an empty line, "Parameters:" and the parameters on their own line; it ends with the stack trace, or "null" when there is none |
| ListenerRules.CaseProtocol | src/main/java/com/datengaertnerei/test/TestlinkIntegrationListener.java:181-191 | the execution notes: the case's header line, then one step block per step in order; `ProtocolAppend` and `StepBlockFacts` state its layout |
| ListenerRules.DraftAppend | src/main/java/com/datengaertnerei/test/TestlinkIntegrationListener.java:146-152 | one more recorded step adds exactly one remote step, numbered by its position, and one protocol block |
| ListenerRules.DraftCase | src/main/java/com/datengaertnerei/test/TestlinkIntegrationListener.java:143-152 | the loop over a case's steps builds exactly CaseSteps (or LegacyCaseSteps) and the case's protocol |
| ListenerRules.CreateTestCaseStep | src/main/java/com/datengaertnerei/test/TestlinkIntegrationListener.java:219-225 | an unnumbered automated step expecting a successful run, whose action is "Execute method " followed by exactly the method's name |
| ListenerRules.LogStep | src/main/java/com/datengaertnerei/test/TestlinkIntegrationListener.java:41-105 | a callback appends one step for the method and sets the duration; it records the trace only on a failure, and the case status unless it is a skip |
| ListenerRules.Logged | src/main/java/com/datengaertnerei/test/TestlinkIntegrationListener.java:207-217 | one callback appends a step for the method, sets the duration text and updates the status unless it is a skip; `LogStep` and `OnTestResult` are proved to follow it, and `ReplaySteps` and `ReplayStatus` state what a run of callbacks leaves |
| ListenerRules.ReplaySteps | src/main/java/com/datengaertnerei/test/TestlinkIntegrationListener.java:41-105 | after a run the case holds one step per callback, in callback order, each with the method's name and the callback's status |
| ListenerRules.ReplayStatus | src/main/java/com/datengaertnerei/test/TestlinkIntegrationListener.java:41-105 | the case has no status exactly when every callback was a skip; otherwise its status is that of the last callback that was not one |
| ListenerRules.PutAllKeepsLast | src/main/java/com/datengaertnerei/test/TestlinkIntegrationListener.java:67-82 | after transferring attachments the map holds a key exactly when it held it before or an attachment has it; a later attachment replaces an earlier one with the same key; other entries are kept |
| ListenerRules.PutAll | src/main/java/com/datengaertnerei/test/TestlinkIntegrationListener.java:67-82 | each attachment is put under its key in order, so a later one replaces an earlier one; `PutAllKeepsLast` states the resulting map |
| TestListener.CreateAllNext | src/main/java/com/datengaertnerei/test/TestlinkIntegrationListener.java:142-164 | the first loop after one more case is one more CreateNext turn |
| TestListener.CreateAll | src/main/java/com/datengaertnerei/test/TestlinkIntegrationListener.java:141-164 | the first loop of onFinish stores each instance's case in order and keeps its status and protocol, stopping at the first error; `CreateAllNext` and `CreateAllStops` state its steps |
| TestListener.NeedsNewPlanAppend | src/main/java/com/datengaertnerei/test/TestlinkIntegrationListener.java:159-163 | one more stored case needs a new plan exactly when it supersedes a case the plan holds |
| TestListener.NeedsNewPlan | src/main/java/com/datengaertnerei/test/TestlinkIntegrationListener.java:158-163 | a new plan is needed exactly when some stored case has the id of a case in the plan at a higher version; `NeedsNewPlanAppend` and `CheckSupersedes` state how the loop computes it |
| TestListener.AttachmentForFacts | src/main/java/com/datengaertnerei/test/TestlinkIntegrationContext.java:341-359 | saving an attachment fails exactly when a readable one meets a write fault or a missing execution id; on success it appends one upload against the execution, otherwise nothing changes |
| TestListener.UploadAllKeeps | src/main/java/com/datengaertnerei/test/TestlinkIntegrationListener.java:177 | saving the attachments touches only the uploads and only appends to them; with a writable server and an execution id it succeeds |
| TestListener.UploadAllCounts | src/main/java/com/datengaertnerei/test/TestlinkIntegrationListener.java:177 | a successful save adds one upload per readable attachment, each against the execution |
| TestListener.CommitReportsEveryCase | src/main/java/com/datengaertnerei/test/TestlinkIntegrationListener.java:173-178 | when the last loop succeeds, every case had a status, and exactly one execution per case was reported, in order, against the plan and build, with the case's status and protocol |
| TestListener.CommitUploadCount | src/main/java/com/datengaertnerei/test/TestlinkIntegrationListener.java:173-178 | after a successful last loop there is one new execution per case and (cases × readable attachments) new uploads |
| TestListener.CommitUploadsEveryAttachmentPerCase | src/main/java/com/datengaertnerei/test/TestlinkIntegrationListener.java:173-178 | after a successful last loop, for every case index i, the i-th block of new uploads (it starts i times the readable count after the old uploads) is every readable attachment, in order, against the i-th new execution: each attachment goes against every execution, not only against the one of the test that supplied it |
| TestListener.UploadAll | src/main/java/com/datengaertnerei/test/TestlinkIntegrationListener.java:177 | every attachment saved against one execution, in order, stopping at the first error; `UploadAllAppends`, `UploadAllKeeps` and `UploadAllStops` state the outcome |
| TestListener.CommitAll | src/main/java/com/datengaertnerei/test/TestlinkIntegrationListener.java:173-178 | the last loop of onFinish: per case, link it to the plan, report its result and save every attachment against that execution, stopping at the first error; `CommitReportsEveryCase`, `CommitLinksEveryCase` and `CommitUploadsEveryAttachmentPerCase` state what it leaves |
| TestListener.FinishFor | src/main/java/com/datengaertnerei/test/TestlinkIntegrationListener.java:130-179 | onFinish once there is a project: the suite, then `StoreStage`; a failed suite lookup ends the run with that error; `OnFinish` is proved to follow it |
| TestListener.StoreStage | src/main/java/com/datengaertnerei/test/TestlinkIntegrationListener.java:133-164 | the plan's cases are listed, the instances' cases stored, and whether a new plan is needed is decided before `CommitStage`; a missing case map throws |
| TestListener.CommitStage | src/main/java/com/datengaertnerei/test/TestlinkIntegrationListener.java:166-178 | when a new plan is needed, a plan named after the time and a build with the old build's name are made, and the last loop runs against them; otherwise it runs against the current plan and build |
| UploadLayout.UploadsFor | src/main/java/com/datengaertnerei/test/TestlinkIntegrationListener.java:177 | the uploads made against one execution: one per readable attachment, in order, with the attachment's key as title, its location as file name, its content type and its joined lines |
| UploadLayout.UploadsForAgainst | src/main/java/com/datengaertnerei/test/TestlinkIntegrationContext.java:347-355 | every upload in that block is against the execution and described as created by the integration |
| UploadLayout.UploadsPerExecution | src/main/java/com/datengaertnerei/test/TestlinkIntegrationListener.java:173-178 | the uploads of the last loop: one `UploadsFor` block per execution, in the order of the reports, each of the readable attachments' count |
| UploadLayout.UploadsPerExecutionBlock | src/main/java/com/datengaertnerei/test/TestlinkIntegrationListener.java:173-178 | the i-th block of that layout is the readable attachments against the i-th execution |
| UploadLayout.BlockAfterEarlier | src/main/java/com/datengaertnerei/test/TestlinkIntegrationListener.java:173-178 | after earlier uploads and one block per execution, the i-th block of readable-count uploads (it starts i times that count after the earlier ones) is every readable attachment, in order, against the i-th execution |
| UploadLayout.LayoutExtends | src/main/java/com/datengaertnerei/test/TestlinkIntegrationListener.java:173-178 | uploads laid out one block per execution after earlier ones stay so when the next execution's block is appended |
| TestListener.UploadAllAppends | src/main/java/com/datengaertnerei/test/TestlinkIntegrationListener.java:177 | a successful save appends exactly the `UploadsFor` block of the execution; without an execution id it succeeds only when no attachment is readable |
| TestListener.CommitNextUploads | src/main/java/com/datengaertnerei/test/TestlinkIntegrationListener.java:174-177 | one successful turn of the last loop adds exactly one execution and, after the earlier uploads, the `UploadsFor` block against it |
| TestListener.CommitUploadsInOrder | src/main/java/com/datengaertnerei/test/TestlinkIntegrationListener.java:173-178 | after a successful last loop, the new uploads are the `UploadsPerExecution` layout over the new executions |
| TestListener.HoldsAfterMoreLinks | src/main/java/com/datengaertnerei/test/TestlinkIntegrationContext.java:321-333 | a plan that holds a case at the same or a newer version still does after more links are added |
| TestListener.MembershipForHolds | src/main/java/com/datengaertnerei/test/TestlinkIntegrationContext.java:321-333 | when addTestCaseToPlan succeeds, the plan then holds the case at the same or a newer version |
| TestListener.CommitLinksEveryCase | src/main/java/com/datengaertnerei/test/TestlinkIntegrationListener.java:173-178 | the last loop only adds plan links, and after a successful run the plan holds every stored case at the same or a newer version |
| TestListener.ProjectForReadsOnly | src/main/java/com/datengaertnerei/test/TestlinkIntegrationContext.java:96-145 | a getProject that creates nothing reads only projects and plans, so creating a build does not change its answer |
| TestListener.StartSettles | src/main/java/com/datengaertnerei/test/TestlinkIntegrationListener.java:108-127 | onStart run again, later, against the server it left behind finds the same project, plan and build and creates nothing |
| TestListener.CreateAllStops | src/main/java/com/datengaertnerei/test/TestlinkIntegrationListener.java:142-164 | once a case fails to be stored, the first loop does nothing more |
| TestListener.UploadAllStops | src/main/java/com/datengaertnerei/test/TestlinkIntegrationListener.java:177 | once an upload fails, no further attachment is saved |
| TestListener.CommitAllStops | src/main/java/com/datengaertnerei/test/TestlinkIntegrationListener.java:173-178 | once a case fails, the last loop does nothing more |
| TestListener.CheckSupersedes | src/main/java/com/datengaertnerei/test/TestlinkIntegrationListener.java:159-163 | the inner loop flags a new plan exactly when the stored case is a newer version of a case the plan holds |
| TestListener.ValuesIn | src/main/java/com/datengaertnerei/test/TestlinkIntegrationListener.java:142 | the map's values in a given key order, one per key |
| TestListener.TestlinkIntegrationListener.constructor | src/main/java/com/datengaertnerei/test/TestlinkIntegrationListener.java:27-33 | a new listener has no context, no project and no maps |
| TestListener.TestlinkIntegrationListener.RecordsOf | src/main/java/com/datengaertnerei/test/TestlinkIntegrationListener.java:142 | the cases' records in the given order of their names |
| TestListener.TestlinkIntegrationListener.OnTestResult | src/main/java/com/datengaertnerei/test/TestlinkIntegrationListener.java:41-105 | without a project nothing happens; with a project but no maps the callback throws a NullPointerException; otherwise the instance's case (created on first use) is updated as Logged says and no other case changes, while attachments are taken over except on a skip; a null argument throws before any step is added |
| TestListener.TestlinkIntegrationListener.Observe | src/main/java/com/datengaertnerei/test/TestlinkIntegrationListener.java:207-217 | the callback's effect once the maps exist, as Logged and PutAll say |
| TestListener.TestlinkIntegrationListener.Apply | src/main/java/com/datengaertnerei/test/TestlinkIntegrationListener.java:41-105 | the case follows Logged; the attachment map follows PutAll unless the callback is a skip |
| TestListener.TestlinkIntegrationListener.CaseNamed | src/main/java/com/datengaertnerei/test/TestlinkIntegrationListener.java:208-209 | computeIfAbsent returns the existing case unchanged, or a fresh empty one put under the name |
| TestListener.TestlinkIntegrationListener.TransferAttachments | src/main/java/com/datengaertnerei/test/TestlinkIntegrationListener.java:67-82 | the test's attachments for the method are put under their keys, as PutAll says |
| TestListener.TestlinkIntegrationListener.OnStart | src/main/java/com/datengaertnerei/test/TestlinkIntegrationListener.java:108-127 | without both properties nothing happens; otherwise the project, plan and build are obtained as ProjectFor and BuildFor say, and the empty maps are created only when both succeed |
| TestListener.TestlinkIntegrationListener.OnFinish | src/main/java/com/datengaertnerei/test/TestlinkIntegrationListener.java:130-179 | without a project nothing happens; otherwise the outcome, the handle's plan and build and the server state are exactly FinishFor's |
| TestListener.TestlinkIntegrationListener.Store | src/main/java/com/datengaertnerei/test/TestlinkIntegrationListener.java:135-171 | once the suite is known, the rest of onFinish follows StoreStage |
| TestListener.TestlinkIntegrationListener.Conclude | src/main/java/com/datengaertnerei/test/TestlinkIntegrationListener.java:166-178 | the switch to a new plan and build, then the last loop, follow CommitStage |
| TestListener.TestlinkIntegrationListener.CreateCases | src/main/java/com/datengaertnerei/test/TestlinkIntegrationListener.java:142-164 | the first loop stores the cases as CreateAll says, and flags a new plan exactly when a stored case supersedes a linked one |
| TestListener.TestlinkIntegrationListener.CommitCases | src/main/java/com/datengaertnerei/test/TestlinkIntegrationListener.java:173-178 | the last loop links, reports and uploads as CommitAll says |
| TestListener.TestlinkIntegrationListener.SaveAll | src/main/java/com/datengaertnerei/test/TestlinkIntegrationListener.java:177 | every attachment is saved against the execution as UploadAll says |
| LegacyListener.ReportAllNext | src/main/java/com/datengaertnerei/testng/TestlinkIntegrationListener.java:104-124 | the loop after one more case is one more ReportNext turn |
| LegacyListener.ReportNext | src/main/java/com/datengaertnerei/testng/TestlinkIntegrationListener.java:105-123 | one turn of the loop: the case is stored with unnumbered steps, linked to the plan and its result reported with the protocol as notes, stopping at the first error; this is the corrected holder's behaviour, see "## Left out" |
| LegacyListener.ReportAll | src/main/java/com/datengaertnerei/testng/TestlinkIntegrationListener.java:104-124 | the loop over the instances' cases in the map's order, stopping at the first error; `ReportAllNext`, `ReportAllStep` and `ReportAllStops` state its steps |
| LegacyListener.LegacyFinishFor | src/main/java/com/datengaertnerei/testng/TestlinkIntegrationListener.java:98-125 | onFinish once there is a project: the suite, then the loop; `LegacyFinishReportsNothing` states that it reports nothing, and `OnFinish` is proved to follow it |
| LegacyListener.AsWrittenFinishFor | src/main/java/com/datengaertnerei/testng/TestlinkIntegrationListener.java:97-113 | onFinish with the legacy case class as written: the suite, then a NullPointerException at the first case's `getSteps()` |
| LegacyListener.AsWrittenFinishStoresNothing | src/main/java/com/datengaertnerei/testng/TestlinkIntegrationListener.java:97-113 | as written, a run with a case fails and stores, links and reports nothing; only the suite lookup may have changed the server |
| LegacyListener.ReportAllStep | src/main/java/com/datengaertnerei/testng/TestlinkIntegrationListener.java:104-124 | after error-free turns, the next turn extends the loop |
| LegacyListener.ReportAllStops | src/main/java/com/datengaertnerei/testng/TestlinkIntegrationListener.java:104-124 | once a case fails, the loop does nothing more |
| LegacyListener.CaseForKeepsReports | src/main/java/com/datengaertnerei/testng/TestlinkIntegrationListener.java:113-114 | storing a case touches neither plan links nor executions |
| LegacyListener.NoBuildReportsNothing | src/main/java/com/datengaertnerei/testng/TestlinkIntegrationListener.java:104-124 | without a build the loop fails on its first case, and no case is linked or reported |
| LegacyListener.LegacyFinishReportsNothing | src/main/java/com/datengaertnerei/testng/TestlinkIntegrationListener.java:75-125 | a legacy run with at least one case ends in an error having linked and reported nothing, since onStart leaves the build unset |
| LegacyListener.TestlinkIntegrationListener.constructor | src/main/java/com/datengaertnerei/testng/TestlinkIntegrationListener.java:22-26 | a new listener has no context and no project |
| LegacyListener.TestlinkIntegrationListener.RecordsOf | src/main/java/com/datengaertnerei/testng/TestlinkIntegrationListener.java:104 | the cases' records in the given order of their names |
| LegacyListener.TestlinkIntegrationListener.OnTestResult | src/main/java/com/datengaertnerei/testng/TestlinkIntegrationListener.java:33-72 | without a project nothing happens; otherwise the instance's case is updated as Logged says, with the full stack trace, and no other case changes |
| LegacyListener.TestlinkIntegrationListener.Observe | src/main/java/com/datengaertnerei/testng/TestlinkIntegrationListener.java:174-186 | the callback's effect once there is a project, as Logged says |
| LegacyListener.TestlinkIntegrationListener.GetTestCase | src/main/java/com/datengaertnerei/testng/TestlinkIntegrationListener.java:151-158 | returns the existing case unchanged, or a fresh empty one put under the name |
| LegacyListener.TestlinkIntegrationListener.OnStart | src/main/java/com/datengaertnerei/testng/TestlinkIntegrationListener.java:75-95 | without both properties nothing happens; otherwise the project and its fixed plan are obtained as the legacy ProjectFor says, with no build, and the case map starts empty |
| LegacyListener.TestlinkIntegrationListener.OnFinish | src/main/java/com/datengaertnerei/testng/TestlinkIntegrationListener.java:97-125 | without a project nothing happens; otherwise the outcome and the server state are exactly LegacyFinishFor's |
| LegacyListener.TestlinkIntegrationListener.ReportCases | src/main/java/com/datengaertnerei/testng/TestlinkIntegrationListener.java:104-124 | the loop over the cases follows ReportAll |
| LegacyListener.TestlinkIntegrationListener.ReportCase | src/main/java/com/datengaertnerei/testng/TestlinkIntegrationListener.java:105-123 | one case is stored with unnumbered steps, linked, and reported with its protocol, as ReportNext says |

## Left out

- Transport: the XML-RPC client, the connection set-up and `doesUserExist` are left
  out. The server is the value `Remote.Db`, and transport failures are the injected
  faults `readFault` and `writeFault`.
- The singleton `getInstance` and the System properties. The context is built from a
  connection that may be `null`. The two listener properties are `Option` parameters
  of `OnStart`.
- Logging: it has no effect on the behaviour.
- Concurrency: the `ConcurrentHashMap` is a `map`, and its unspecified iteration order
  is given to `OnFinish` as an explicit order of its keys.
- The clock. The timestamp that names a new plan is the parameter `now`, and
  `System.lineSeparator()` is the parameter `nl`.
- The constant arguments of the creation calls: author, summary, description,
  importance, the project's feature flags and the plan's active and public flags.
- Integer and long overflow. Ids, version numbers and step numbers are unbounded; the
  duration is computed on unbounded milliseconds.
- `onTestStart` of both listeners: it does nothing.
- `ExceptionUtils.getStackTrace` and `getFullStackTrace` are not modelled. The trace
  texts are inputs of `TestResult`, so a `null` throwable is not modelled.
- The attachment class (javax or jakarta `AttachmentPart`) is reduced to its content
  id, content location, content type, text and base-64 content, which is `None`
  when it cannot be read.
- Test-case identity. `statusMap` and `protocolMap` are keyed by `TestCase` equality.
  The model carries each stored case together with its own status and protocol.
- The code uploads every attachment against every execution, not only against the
  execution of the test that supplied it (`TestListener.CommitUploadsEveryAttachmentPerCase`).
- `compareSteps` never matches two step lists when either one repeats an action
  (`GatewayRules.RepeatedActionNeverMatches`).
- `LegacyListener.TestlinkIntegrationListener.OnTestResult` uses the corrected case
  holder `CaseHolder.TestlinkCase`. With the class as written, every callback would
  end in the NullPointerException shown by `LegacyCaseHolder.FirstStepFails`.
- `LegacyListener.TestlinkIntegrationListener.OnFinish` also uses the corrected holder.
  With the class as written, `onFinish` throws at the first case's `getSteps()`, before
  any case is stored (`LegacyListener.AsWrittenFinishStoresNothing`).
- `LegacyListener.LegacyFinishFor` models `onFinish` over the corrected holder, so a
  first case can be stored before the link fails. As written, no case is stored.
- `LegacyListener.ReportNext` stores the case through the corrected holder's steps. As
  written, the loop throws at `getSteps()` before `createTestCase`.
- `LegacyListener.TestlinkIntegrationListener.ReportCase` follows `ReportNext`, with
  the same difference from the class as written.
- The legacy `getTestCases(suite)` is modelled as
  `LegacyGateway.TestlinkIntegrationContext.GetTestCasesOfSuite`, but no listener
  calls it.
- src/main/java/com/datengaertnerei/testng/TestlinkStep.java is not part of this
  model. The legacy listener's steps are modelled with `StepHolder.TestlinkStep`.
- src/main/java/com/datengaertnerei/test/TestlinkProject.java is not part of this
  model. The current gateway's handle is modelled with
  `ProjectHandle.TestlinkProject`.
- The test classes under src/test are not modelled; they need a live server.

## Findings

| source | as written | input that shows it | evidently intended | confidence | as-written member | corrected member |
|---|---|---|---|---|---|---|
| src/main/java/com/datengaertnerei/testng/TestlinkCase.java:13-23 | the constructor sets only the name; `steps` is never initialised, so `addStep` calls `add` on `null` | the first callback of any test (`onTestSuccess` for any instance) calls `addStep` on a new case | start with an empty list, as the current `test/TestlinkCase` does | not executed | LegacyCaseHolder.FirstStepFails | CaseHolder.TestlinkCase.AddStep |
