/** The case accumulator of `testng/TestlinkCase.java` as it is written: its constructor
    sets only the name and nothing ever assigns the step list, which stays `null`. */
module LegacyCaseHolder {
  import opened Results
  import opened Remote
  import opened StepHolder

  class TestlinkCase {
    const testCaseName: string
    var status: Option<ExecutionStatus>
    var duration: Option<string>
    /** `None` is the `null` list the field is left with. */
    var steps: Option<seq<TestlinkStep>>

    constructor (testCaseName: string)
      ensures this.testCaseName == testCaseName
      ensures status == None && duration == None && steps == None
    {
      this.testCaseName := testCaseName;
      status := None;
      duration := None;
      steps := None;
    }

    /** `steps.add(newStep)`: on the `null` list the call throws. */
    method AddStep(newStep: TestlinkStep) returns (r: Outcome)
      modifies this
      ensures old(steps).None? ==> r == Fail(NullPointer) && steps == None
      ensures old(steps).Some? ==> r == Pass && steps == Some(old(steps).value + [newStep])
      ensures status == old(status) && duration == old(duration)
    {
      if steps.None? {
        return Fail(NullPointer);
      }
      steps := Some(steps.value + [newStep]);
      r := Pass;
    }

    method SetDuration(duration: string)
      modifies this
      ensures this.duration == Some(duration)
      ensures status == old(status) && steps == old(steps)
    {
      this.duration := Some(duration);
    }

    method SetStatus(status: ExecutionStatus)
      modifies this
      ensures this.status == Some(status)
      ensures duration == old(duration) && steps == old(steps)
    {
      this.status := Some(status);
    }
  }

  /** The first step ever added to a case, the listener's first callback for it, fails. */
  method FirstStepFails(testCaseName: string, step: TestlinkStep) returns (r: Outcome)
    ensures r == Fail(NullPointer)
  {
    var testCase := new TestlinkCase(testCaseName);
    r := testCase.AddStep(step);
  }
}
