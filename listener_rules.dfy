/** The bookkeeping both `TestlinkIntegrationListener`s do without the server: what a
    TestNG result becomes in the case's record, the duration and parameter texts, the
    numbered remote steps, the execution protocol and the attachment map. */
module ListenerRules {
  import opened Results
  import opened Text
  import opened Remote
  import opened StepHolder
  import opened CaseHolder
  import opened GatewayRules
  import opened GatewaySpec

  /** A test method argument: the name of its class and its `toString()`. */
  datatype Parameter = Parameter(className: string, text: string)

  /** The parts of a TestNG `ITestResult` the listeners read. A `None` argument is `null`;
      `stackTrace` and `fullStackTrace` are what `ExceptionUtils.getStackTrace` and
      `getFullStackTrace` make of the throwable; `attachments` is `None` when the test
      instance does not implement `ContainsAttachmentsTestCase`, and otherwise what it
      returns for the method. */
  datatype TestResult = TestResult(
    instanceName: string,
    methodName: string,
    parameters: seq<Option<Parameter>>,
    startMillis: int,
    endMillis: int,
    stackTrace: string,
    fullStackTrace: string,
    attachments: Option<seq<Attachment>>)

  // ----- the duration text -----

  /** Java's `long` division and remainder, which truncate toward zero. */
  function TruncDiv(a: int, b: int): int
    requires b > 0
  {
    if a >= 0 then a / b else -((-a) / b)
  }

  function TruncRem(a: int, b: int): int
    requires b > 0
  {
    a - b * TruncDiv(a, b)
  }

  /** `Duration.ofMillis(ms)` read through `toHours()`, `toMinutesPart()` and
      `toSecondsPart()`; the duration keeps its whole seconds rounded toward minus infinity. */
  function DurationParts(ms: int): (int, int, int) {
    var seconds := ms / 1000;
    (TruncDiv(seconds, 3600), TruncRem(TruncDiv(seconds, 60), 60), TruncRem(seconds, 60))
  }

  /** The `"%d hours, %d mins, %d seconds"` text of a case's duration. */
  function FormatDuration(ms: int): string {
    var (h, m, s) := DurationParts(ms);
    IntToString(h) + " hours, " + IntToString(m) + " mins, " + IntToString(s) + " seconds"
  }

  lemma TruncDivideTwice(a: int)
    ensures TruncDiv(TruncDiv(a, 60), 60) == TruncDiv(a, 3600)
  {
    if a >= 0 {
      assert (a / 60) / 60 == a / 3600;
    } else {
      assert ((-a) / 60) / 60 == (-a) / 3600;
    }
  }

  /** The three numbers always add up to the duration's whole seconds, the minutes and
      seconds stay below 60 in size, and for a non-negative duration they are the hours,
      the minutes past the hour and the seconds past the minute. */
  lemma DurationAddsUp(ms: int)
    ensures var (h, m, s) := DurationParts(ms);
            3600 * h + 60 * m + s == ms / 1000 && -60 < m < 60 && -60 < s < 60
            && (ms >= 0 ==> h == ms / 3600000 && m == (ms / 60000) % 60 && s == (ms / 1000) % 60)
  {
    var seconds := ms / 1000;
    var minutes := TruncDiv(seconds, 60);
    TruncDivideTwice(seconds);
    assert seconds == 60 * minutes + TruncRem(seconds, 60);
    assert minutes == 60 * TruncDiv(minutes, 60) + TruncRem(minutes, 60);
    if ms >= 0 {
      assert (ms / 1000) / 3600 == ms / 3600000;
      assert (ms / 1000) / 60 == ms / 60000;
    }
  }

  // ----- the parameter text -----

  /** The arguments as `printParameters` lists them, each as class name, ": " and text
      with no separator; a `null` argument throws. */
  function ParameterList(params: seq<Option<Parameter>>): Result<string> {
    if params == [] then Ok("")
    else
      var last := params[|params| - 1];
      match ParameterList(params[..|params| - 1])
      case Err(e) => Err(e)
      case Ok(text) =>
        if last.None? then Err(NullPointer) else Ok(text + last.value.className + ": " + last.value.text)
  }

  /** `printParameters` */
  function ParametersText(params: seq<Option<Parameter>>): Result<string> {
    if params == [] then Ok("No parameters.\r\n")
    else match ParameterList(params)
      case Ok(text) => Ok("Parameters:\r\n" + text)
      case Err(e) => Err(e)
  }

  lemma {:induction false} ParameterListFails(params: seq<Option<Parameter>>)
    ensures ParameterList(params).Err? <==> exists i :: 0 <= i < |params| && params[i].None?
    ensures ParameterList(params).Err? ==> ParameterList(params).error == NullPointer
  {
    if params != [] {
      var init := params[..|params| - 1];
      ParameterListFails(init);
      if exists i :: 0 <= i < |init| && init[i].None? {
        var i :| 0 <= i < |init| && init[i].None?;
        assert params[i].None?;
      }
    }
  }

  /** The text says "No parameters." exactly for a method without arguments; otherwise it
      starts with the "Parameters:" line; it fails exactly when an argument is `null`. */
  lemma ParametersTextFacts(params: seq<Option<Parameter>>)
    ensures ParametersText(params) == Ok("No parameters.\r\n") <==> params == []
    ensures ParametersText(params).Err? <==> exists i :: 0 <= i < |params| && params[i].None?
    ensures ParametersText(params).Ok? && params != [] ==> "Parameters:\r\n" <= ParametersText(params).value
  {
    ParameterListFails(params);
    if params != [] && ParametersText(params).Ok? {
      assert ParametersText(params).value[0] == 'P';
    }
  }

  /** `printParameters`, appending to a buffer argument by argument. */
  method PrintParameters(params: seq<Option<Parameter>>) returns (r: Result<string>)
    ensures r == ParametersText(params)
  {
    if |params| == 0 {
      return Ok("No parameters.\r\n");
    }
    var text := "";
    for i := 0 to |params|
      invariant ParameterList(params[..i]) == Ok(text)
    {
      assert params[..i + 1][..i] == params[..i];
      var o := params[i];
      if o.None? {
        ParameterListFails(params[..i + 1]);
        ParameterListFails(params);
        assert params[..i + 1][i].None?;
        assert params[i].None?;
        return Err(NullPointer);
      }
      text := text + o.value.className + ": " + o.value.text;
    }
    assert params[..|params|] == params;
    r := Ok("Parameters:\r\n" + text);
  }

  // ----- the remote steps -----

  const ActionPrefix := "Execute method "
  const ExpectedResult := "Test runs successfully"

  /** `createTestCaseStep`: the action names the method. */
  function ActionFor(step: StepRecord): string {
    ActionPrefix + step.testStepName
  }

  /** The remote steps of the current listener, numbered from 0 in the order recorded. */
  function CaseSteps(steps: seq<StepRecord>): (r: seq<TestCaseStep>)
    ensures |r| == |steps|
    ensures forall i :: 0 <= i < |steps| ==>
              r[i].number == Some(i) && r[i].actions == ActionFor(steps[i]) && r[i].expectedResults == ExpectedResult
  {
    if steps == [] then []
    else CaseSteps(steps[..|steps| - 1])
         + [TestCaseStep(Some(|steps| - 1), ActionFor(steps[|steps| - 1]), ExpectedResult)]
  }

  /** The remote steps of the legacy listener, which leaves them unnumbered. */
  function LegacyCaseSteps(steps: seq<StepRecord>): (r: seq<TestCaseStep>)
    ensures |r| == |steps|
    ensures forall i :: 0 <= i < |steps| ==>
              r[i].number == None && r[i].actions == ActionFor(steps[i]) && r[i].expectedResults == ExpectedResult
  {
    if steps == [] then []
    else LegacyCaseSteps(steps[..|steps| - 1])
         + [TestCaseStep(None, ActionFor(steps[|steps| - 1]), ExpectedResult)]
  }

  predicate DistinctNames(steps: seq<StepRecord>) {
    forall i, j :: 0 <= i < j < |steps| ==> steps[i].testStepName != steps[j].testStepName
  }

  lemma ActionNamesMethod(a: StepRecord, b: StepRecord)
    ensures ActionFor(a) == ActionFor(b) <==> a.testStepName == b.testStepName
  {
    if ActionFor(a) == ActionFor(b) {
      assert a.testStepName == ActionFor(a)[|ActionPrefix|..];
      assert b.testStepName == ActionFor(b)[|ActionPrefix|..];
    }
  }

  /** Remote steps made one per recorded step repeat no action exactly when the recorded
      steps repeat no method name. */
  lemma DistinctActionsOfNames(r: seq<TestCaseStep>, steps: seq<StepRecord>)
    requires |r| == |steps| && forall i :: 0 <= i < |steps| ==> r[i].actions == ActionFor(steps[i])
    ensures DistinctActions(r) <==> DistinctNames(steps)
  {
    forall i, j | 0 <= i < j < |steps|
      ensures r[i].actions == r[j].actions <==> steps[i].testStepName == steps[j].testStepName
    {
      ActionNamesMethod(steps[i], steps[j]);
    }
  }

  /** The remote steps repeat no action exactly when no method ran twice in the instance:
      a method run more than once (a data provider, an invocation count) makes every run
      store a new version of the case. */
  lemma DistinctStepsIffDistinctMethods(steps: seq<StepRecord>)
    ensures DistinctActions(CaseSteps(steps)) <==> DistinctNames(steps)
    ensures DistinctActions(LegacyCaseSteps(steps)) <==> DistinctNames(steps)
  {
    DistinctActionsOfNames(CaseSteps(steps), steps);
    DistinctActionsOfNames(LegacyCaseSteps(steps), steps);
  }

  // ----- the execution protocol -----

  /** A `StringBuilder` appends a `null` value as "null". */
  function NullText(s: Option<string>): string {
    if s.Some? then s.value else "null"
  }

  function StatusText(s: Option<TestStatus>): string {
    match s
    case None => "null"
    case Some(PASSED) => "PASSED"
    case Some(FAILED) => "FAILED"
    case Some(BLOCKED) => "BLOCKED"
  }

  /** The protocol's first line: the case name and its duration. */
  function CaseHeader(record: CaseRecord, nl: string): string {
    record.testCaseName + ": " + NullText(record.duration) + nl
  }

  /** One step's part of the protocol; it ends with the stack trace, "null" for a step
      without one, and no line separator. */
  function StepBlock(step: StepRecord, nl: string): string {
    step.testStepName + ": " + StatusText(step.status) + nl + nl + "Parameters:" + nl
    + step.parameters + nl + NullText(step.stackTrace)
  }

  /** The protocol text after the blocks of `steps` were appended to `header`, one block
      per step in order. */
  function Protocol(header: string, steps: seq<StepRecord>, nl: string): string {
    if steps == [] then header else Protocol(header, steps[..|steps| - 1], nl) + StepBlock(steps[|steps| - 1], nl)
  }

  /** The execution notes sent with the case's result; `nl` is `System.lineSeparator()`. */
  function CaseProtocol(record: CaseRecord, nl: string): string {
    Protocol(CaseHeader(record, nl), record.steps, nl)
  }

  /** What a reader finds in one step's block: the first line names the step and its
      status, an empty line and a "Parameters:" line introduce the parameter text on its
      own line, and the block ends with the stack trace ("null" for a step without one). */
  lemma StepBlockFacts(step: StepRecord, nl: string)
    ensures var title := step.testStepName + ": " + StatusText(step.status) + nl;
            var b := StepBlock(step, nl);
            && title <= b
            && OccursAt(b, nl + "Parameters:" + nl + step.parameters + nl, |title|)
            && var t := NullText(step.stackTrace); |t| <= |b| && b[|b| - |t|..] == t
  {
    var title := step.testStepName + ": " + StatusText(step.status) + nl;
    var middle := nl + "Parameters:" + nl + step.parameters + nl;
    var t := NullText(step.stackTrace);
    assert StepBlock(step, nl) == title + middle + t;
  }

  /** The protocol of the steps recorded so far is a prefix of the protocol of all of
      them: later steps only add blocks at the end, in the order they were recorded. */
  lemma {:induction false} ProtocolAppend(header: string, a: seq<StepRecord>, b: seq<StepRecord>, nl: string)
    ensures Protocol(header, a + b, nl) == Protocol(Protocol(header, a, nl), b, nl)
    ensures Protocol(header, a, nl) <= Protocol(header, a + b, nl)
  {
    if b != [] {
      var init := b[..|b| - 1];
      assert (a + b)[..|a + b| - 1] == a + init;
      ProtocolAppend(header, a, init, nl);
    } else {
      assert a + b == a;
    }
  }

  /** One more recorded step adds one remote step, numbered by its position, and one
      protocol block, both at the end. */
  lemma DraftAppend(header: string, steps: seq<StepRecord>, j: nat, nl: string)
    requires j < |steps|
    ensures CaseSteps(steps[..j + 1]) == CaseSteps(steps[..j]) + [TestCaseStep(Some(j), ActionFor(steps[j]), ExpectedResult)]
    ensures LegacyCaseSteps(steps[..j + 1]) == LegacyCaseSteps(steps[..j]) + [TestCaseStep(None, ActionFor(steps[j]), ExpectedResult)]
    ensures Protocol(header, steps[..j + 1], nl) == Protocol(header, steps[..j], nl) + StepBlock(steps[j], nl)
  {
    assert steps[..j + 1][..j] == steps[..j];
  }

  /** The steps and the execution protocol `onFinish` builds for one case; the current
      listener numbers the steps from 0, the legacy one leaves them unnumbered. */
  method DraftCase(tlCase: TestlinkCase, numbered: bool, nl: string) returns (steps: seq<TestCaseStep>, protocol: string)
    ensures steps == if numbered then CaseSteps(tlCase.Record().steps) else LegacyCaseSteps(tlCase.Record().steps)
    ensures protocol == CaseProtocol(tlCase.Record(), nl)
  {
    ghost var records := tlCase.Record().steps;
    ghost var header := CaseHeader(tlCase.Record(), nl);
    protocol := FillCaseProtocol(tlCase, nl);
    steps := [];
    var number := 0;
    for j := 0 to |tlCase.steps|
      invariant number == j
      invariant steps == if numbered then CaseSteps(records[..j]) else LegacyCaseSteps(records[..j])
      invariant protocol == Protocol(header, records[..j], nl)
    {
      var tlStep := tlCase.steps[j];
      StepRecordsAt(tlCase.steps, j);
      DraftAppend(header, records, j, nl);
      var step, block := DraftStep(tlStep, numbered, number, nl);
      steps := steps + [step];
      number := number + 1;
      protocol := protocol + block;
    }
    assert records[..|tlCase.steps|] == records;
  }

  /** One step's turn of the loop in `onFinish`: its remote step, numbered when asked, and
      its protocol block. */
  method DraftStep(tlStep: TestlinkStep, numbered: bool, number: nat, nl: string) returns (step: TestCaseStep, block: string)
    ensures step == TestCaseStep(if numbered then Some(number) else None, ActionFor(tlStep.Snapshot()), ExpectedResult)
    ensures block == StepBlock(tlStep.Snapshot(), nl)
  {
    step := CreateTestCaseStep(tlStep);
    assert step.actions == step.actions[..|ActionPrefix|] + step.actions[|ActionPrefix|..];
    if numbered {
      step := step.(number := Some(number));
    }
    block := FillStepProtocol(tlStep, nl);
  }

  /** The protocol's first line for a case. */
  method FillCaseProtocol(tlCase: TestlinkCase, nl: string) returns (text: string)
    ensures text == CaseHeader(tlCase.Record(), nl)
  {
    text := tlCase.testCaseName + ": " + NullText(tlCase.duration) + nl;
  }

  /** The protocol's block for one step. */
  method FillStepProtocol(tlStep: TestlinkStep, nl: string) returns (text: string)
    ensures text == StepBlock(tlStep.Snapshot(), nl)
  {
    text := tlStep.testStepName + ": " + StatusText(tlStep.status) + nl + nl + "Parameters:" + nl
            + tlStep.parameters + nl + NullText(tlStep.stackTrace);
  }

  /** `createTestCaseStep`: an unnumbered automated step whose action is the fixed
      prefix followed by exactly the method's name, so the name can be read back. */
  method CreateTestCaseStep(tlStep: TestlinkStep) returns (step: TestCaseStep)
    ensures step.number == None && step.expectedResults == ExpectedResult
    ensures ActionPrefix <= step.actions && step.actions[|ActionPrefix|..] == tlStep.testStepName
  {
    step := TestCaseStep(None, ActionPrefix + tlStep.testStepName, ExpectedResult);
  }

  // ----- what a result callback records -----

  /** TestNG's result callbacks; `onTestStart` records nothing. */
  datatype Callback = Success | Failure | Skipped | FailedWithinSuccessPercentage

  function StepStatus(cb: Callback): TestStatus {
    match cb
    case Success => PASSED
    case Failure => FAILED
    case Skipped => BLOCKED
    case FailedWithinSuccessPercentage => FAILED
  }

  /** The case status after the callback: a skip leaves it alone, and a failure within
      the success percentage counts as a pass. */
  function CaseStatusAfter(cb: Callback, prior: Option<ExecutionStatus>): Option<ExecutionStatus> {
    match cb
    case Success => Some(Passed)
    case Failure => Some(Failed)
    case Skipped => prior
    case FailedWithinSuccessPercentage => Some(Passed)
  }

  /** The stack trace a failing callback stores on its step. */
  function TraceFor(cb: Callback, trace: string): Option<string> {
    if cb.Failure? || cb.FailedWithinSuccessPercentage? then Some(trace) else None
  }

  /** The empty case `computeIfAbsent` creates for a new instance name. */
  function NewRecord(name: string): CaseRecord {
    CaseRecord(name, None, None, [])
  }

  /** The case record after one callback: a step for the method is appended, the duration
      becomes the given text (the listeners pass this result's `FormatDuration`), and the
      status follows `CaseStatusAfter`. */
  function Logged(prior: CaseRecord, result: TestResult, cb: Callback, trace: string, parameters: string, duration: string): CaseRecord {
    prior.(steps := prior.steps + [StepRecord(result.methodName, parameters, TraceFor(cb, trace), Some(StepStatus(cb)))],
           duration := Some(duration),
           status := CaseStatusAfter(cb, prior.status))
  }

  /** The part of a callback that works on the instance's case: a new step, filled in
      from the result, the case's duration and, except on a skip, its status. */
  method LogStep(tlCase: TestlinkCase, result: TestResult, cb: Callback, trace: string, parameters: string, duration: string)
    modifies tlCase
    ensures tlCase.Record() == Logged(old(tlCase.Record()), result, cb, trace, parameters, duration)
  {
    var step := new TestlinkStep(result.methodName, parameters);
    ghost var priorSteps := tlCase.steps;
    tlCase.AddStep(step);
    tlCase.SetDuration(duration);
    step.SetStatus(StepStatus(cb));
    if cb.Failure? || cb.FailedWithinSuccessPercentage? {
      step.SetStackTrace(trace);
    }
    if !cb.Skipped? {
      tlCase.SetStatus(if cb.Failure? then Failed else Passed);
    }
    assert step.Snapshot() == StepRecord(result.methodName, parameters, TraceFor(cb, trace), Some(StepStatus(cb)));
    StepRecordsKept(priorSteps);
    StepRecordsAppend(priorSteps, step);
  }

  /** One callback for an instance: the result, which callback, and its parameter and
      duration texts. */
  datatype Event = Event(result: TestResult, callback: Callback, parameters: string, duration: string)

  /** The record of an instance after a sequence of callbacks. */
  function Replay(name: string, events: seq<Event>): CaseRecord {
    if events == [] then NewRecord(name)
    else
      var e := events[|events| - 1];
      Logged(Replay(name, events[..|events| - 1]), e.result, e.callback, e.result.stackTrace, e.parameters, e.duration)
  }

  /** After a run the case holds one step per callback, in callback order, each with the
      method's name and the callback's status. */
  lemma {:induction false} ReplaySteps(name: string, events: seq<Event>)
    ensures var r := Replay(name, events);
            r.testCaseName == name && |r.steps| == |events|
            && forall i :: 0 <= i < |events| ==>
                 r.steps[i].testStepName == events[i].result.methodName && r.steps[i].status == Some(StepStatus(events[i].callback))
  {
    if events != [] {
      var init := events[..|events| - 1];
      assert forall i :: 0 <= i < |init| ==> init[i] == events[i];
      ReplaySteps(name, init);
    }
  }

  /** The case has no status exactly when every callback was a skip, and otherwise the
      status of its last callback that was not one. */
  lemma {:induction false} ReplayStatus(name: string, events: seq<Event>)
    ensures var r := Replay(name, events);
            (r.status.None? <==> forall i :: 0 <= i < |events| ==> events[i].callback.Skipped?)
            && (r.status.Some? ==> exists i :: 0 <= i < |events| && !events[i].callback.Skipped?
                                     && r.status == CaseStatusAfter(events[i].callback, None)
                                     && forall j :: i < j < |events| ==> events[j].callback.Skipped?)
  {
    if events != [] {
      var init := events[..|events| - 1];
      var last := events[|events| - 1];
      assert forall i :: 0 <= i < |init| ==> init[i] == events[i];
      ReplayStatus(name, init);
      var prior := Replay(name, init);
      var r := Replay(name, events);
      if last.callback.Skipped? {
        assert r.status == prior.status;
        if prior.status.Some? {
          var i :| 0 <= i < |init| && !init[i].callback.Skipped? && prior.status == CaseStatusAfter(init[i].callback, None)
                   && forall j :: i < j < |init| ==> init[j].callback.Skipped?;
          assert !events[i].callback.Skipped?;
        }
      } else {
        assert r.status == CaseStatusAfter(last.callback, None);
        assert !events[|events| - 1].callback.Skipped?;
      }
    }
  }

  // ----- the attachment map -----

  /** `transferAttachments`: each attachment put under its key, a later one replacing an
      earlier one with the same key. */
  function PutAll(m: map<string, Attachment>, list: seq<Attachment>): map<string, Attachment> {
    if list == [] then m
    else PutAll(m, list[..|list| - 1])[AttachmentKey(list[|list| - 1]) := list[|list| - 1]]
  }

  /** After the puts the map holds a key exactly when it held it before or an attachment
      has it; the value is the last attachment with that key, or the old value when none has it. */
  lemma {:induction false} PutAllKeepsLast(m: map<string, Attachment>, list: seq<Attachment>, key: string)
    ensures key in PutAll(m, list) <==> key in m || exists i :: 0 <= i < |list| && AttachmentKey(list[i]) == key
    ensures forall i :: 0 <= i < |list| && AttachmentKey(list[i]) == key
                        && (forall j :: i < j < |list| ==> AttachmentKey(list[j]) != key)
                        ==> PutAll(m, list)[key] == list[i]
    ensures key in m && (forall i :: 0 <= i < |list| ==> AttachmentKey(list[i]) != key) ==> PutAll(m, list)[key] == m[key]
  {
    if list != [] {
      var init := list[..|list| - 1];
      PutAllKeepsLast(m, init, key);
      assert forall i :: 0 <= i < |init| ==> init[i] == list[i];
    }
  }

  // ----- map iteration -----

  /** A `ConcurrentHashMap`'s values in one iteration order: every key exactly once. */
  ghost predicate Lists<T>(order: seq<string>, m: map<string, T>) {
    (forall i, j :: 0 <= i < j < |order| ==> order[i] != order[j])
    && forall k :: k in m <==> k in order
  }
}
