/** The case accumulator of `test/TestlinkCase.java`: the steps observed for one test
    instance, in the order they were added, with the latest status and duration. */
module CaseHolder {
  import opened Results
  import opened Remote
  import opened StepHolder

  /** The field values of a case, with its steps' values, at one moment. */
  datatype CaseRecord = CaseRecord(
    testCaseName: string,
    status: Option<ExecutionStatus>,
    duration: Option<string>,
    steps: seq<StepRecord>)

  function StepRecords(steps: seq<TestlinkStep>): (r: seq<StepRecord>)
    reads steps
    ensures |r| == |steps|
  {
    if steps == [] then []
    else StepRecords(steps[..|steps| - 1]) + [steps[|steps| - 1].Snapshot()]
  }

  /** Appending a step appends its values. */
  lemma StepRecordsAppend(steps: seq<TestlinkStep>, step: TestlinkStep)
    ensures StepRecords(steps + [step]) == StepRecords(steps) + [step.Snapshot()]
  {
    assert (steps + [step])[..|steps|] == steps;
  }

  /** Each record holds the values of the step at the same position. */
  lemma {:induction false} StepRecordsAt(steps: seq<TestlinkStep>, i: nat)
    requires i < |steps|
    ensures StepRecords(steps)[i] == steps[i].Snapshot()
  {
    if i < |steps| - 1 {
      var init := steps[..|steps| - 1];
      StepRecordsAt(init, i);
    }
  }

  twostate lemma {:induction false} StepRecordsKept(steps: seq<TestlinkStep>)
    requires forall s :: s in steps ==> unchanged(s)
    ensures StepRecords(steps) == old(StepRecords(steps))
  {
    if steps != [] {
      var init := steps[..|steps| - 1];
      var last := steps[|steps| - 1];
      assert forall s :: s in init ==> s in steps;
      StepRecordsKept(init);
      assert last in steps;
      assert last.Snapshot() == old(last.Snapshot());
    }
  }

  /** A case whose fields and steps were left alone has the same values. */
  twostate lemma RecordKept(c: TestlinkCase)
    requires unchanged(c) && forall s :: s in c.steps ==> unchanged(s)
    ensures c.Record() == old(c.Record())
  {
    StepRecordsKept(c.steps);
  }

  class TestlinkCase {
    /** Set once by the constructor; the class offers no way to change it. */
    const testCaseName: string
    var status: Option<ExecutionStatus>
    var duration: Option<string>
    var steps: seq<TestlinkStep>

    function Record(): CaseRecord
      reads this, steps
    {
      CaseRecord(testCaseName, status, duration, StepRecords(steps))
    }

    constructor (testCaseName: string)
      ensures this.testCaseName == testCaseName
      ensures status == None && duration == None && steps == []
    {
      this.testCaseName := testCaseName;
      status := None;
      duration := None;
      steps := [];
    }

    /** Appends at the end of the list. */
    method AddStep(newStep: TestlinkStep)
      modifies this
      ensures steps == old(steps) + [newStep]
      ensures status == old(status) && duration == old(duration)
    {
      steps := steps + [newStep];
    }

    method SetDuration(duration: string)
      modifies this
      ensures this.duration == Some(duration)
      ensures status == old(status) && steps == old(steps)
    {
      this.duration := Some(duration);
    }

    method SetStatus(status: ExecutionStatus)
      modifies this
      ensures this.status == Some(status)
      ensures duration == old(duration) && steps == old(steps)
    {
      this.status := Some(status);
    }
  }
}
