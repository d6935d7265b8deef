/** The step record of `test/TestlinkStep.java`: one executed test method, filled in by
    the listener right after it is constructed. */
module StepHolder {
  import opened Results

  /** The step outcomes; a step's status stays unset until a callback assigns one. */
  datatype TestStatus = PASSED | FAILED | BLOCKED

  /** The field values of a step at one moment. */
  datatype StepRecord = StepRecord(
    testStepName: string,
    parameters: string,
    stackTrace: Option<string>,
    status: Option<TestStatus>)

  class TestlinkStep {
    var testStepName: string
    var parameters: string
    var stackTrace: Option<string>
    var status: Option<TestStatus>

    function Snapshot(): StepRecord
      reads this
    {
      StepRecord(testStepName, parameters, stackTrace, status)
    }

    constructor (testStepName: string, parameters: string)
      ensures Snapshot() == StepRecord(testStepName, parameters, None, None)
    {
      this.testStepName := testStepName;
      this.parameters := parameters;
      stackTrace := None;
      status := None;
    }

    method SetTestStepName(testStepName: string)
      modifies this
      ensures Snapshot() == old(Snapshot()).(testStepName := testStepName)
    {
      this.testStepName := testStepName;
    }

    method SetParameters(parameters: string)
      modifies this
      ensures Snapshot() == old(Snapshot()).(parameters := parameters)
    {
      this.parameters := parameters;
    }

    method SetStackTrace(stackTrace: string)
      modifies this
      ensures Snapshot() == old(Snapshot()).(stackTrace := Some(stackTrace))
    {
      this.stackTrace := Some(stackTrace);
    }

    method SetStatus(status: TestStatus)
      modifies this
      ensures Snapshot() == old(Snapshot()).(status := Some(status))
    {
      this.status := Some(status);
    }
  }
}
