/**
 * The test consumers of the `taskmanager-core` scheduler tests: a property-map parser with its
 * inverse, the consumer that records the parsed value, and the misfire-reporting job.
 */
module CoreSchedulerTest {
  import opened Wrappers
  import opened JobData
  import opened Scheduling

  /** `TestPayload`: the payload fields plus the value the test checks for. */
  datatype TestPayload = TestPayload(groupId: Uuid, taskId: string, taskType: string, taskValue: string)

  /** The `taskType` default of `TestPayload`. */
  const DefaultTaskType: string := "test"

  const GroupIdError: string := "GROUP_ID is missing or invalid."
  const TaskIdError: string := "TASK_ID is missing or invalid."
  const TaskValueError: string := "TASK_VALUE is missing or invalid."

  /** `buildProperties`: the three entries the parser reads. */
  function BuildProperties(groupId: Uuid, taskId: string, taskValue: string): (props: Properties)
    ensures props.Keys == {"GROUP_ID", "TASK_ID", "TASK_VALUE"}
  {
    map["GROUP_ID" := UuidVal(groupId), "TASK_ID" := StrVal(taskId), "TASK_VALUE" := StrVal(taskValue)]
  }

  predicate HasUuid(props: Properties, key: string) {
    key in props && props[key].UuidVal?
  }

  predicate HasString(props: Properties, key: string) {
    key in props && props[key].StrVal?
  }

  /**
   * `SimpleTestConsumer.buildPayload`: GROUP_ID must hold a Uuid, then TASK_ID and TASK_VALUE
   * Strings; the first that is missing or of another class throws its message.
   */
  function BuildPayload(props: Properties): (r: Result<TestPayload, string>)
    ensures r.Ok? <==> HasUuid(props, "GROUP_ID") && HasString(props, "TASK_ID") && HasString(props, "TASK_VALUE")
    ensures !HasUuid(props, "GROUP_ID") ==> r == Err(GroupIdError)
    ensures (HasUuid(props, "GROUP_ID") && !HasString(props, "TASK_ID")) ==> r == Err(TaskIdError)
    ensures (HasUuid(props, "GROUP_ID") && HasString(props, "TASK_ID") && !HasString(props, "TASK_VALUE"))
              ==> r == Err(TaskValueError)
    ensures r.Ok? ==> && props["GROUP_ID"] == UuidVal(r.value.groupId)
                      && props["TASK_ID"] == StrVal(r.value.taskId)
                      && props["TASK_VALUE"] == StrVal(r.value.taskValue)
                      && r.value.taskType == DefaultTaskType
  {
    if !HasUuid(props, "GROUP_ID") then Err(GroupIdError)
    else if !HasString(props, "TASK_ID") then Err(TaskIdError)
    else if !HasString(props, "TASK_VALUE") then Err(TaskValueError)
    else Ok(TestPayload(props["GROUP_ID"].u, props["TASK_ID"].s, DefaultTaskType, props["TASK_VALUE"].s))
  }

  /** The test's round trip: parsing the built properties gives back the three values. */
  lemma BuildPayloadRoundTrip(groupId: Uuid, taskId: string, taskValue: string)
    ensures BuildPayload(BuildProperties(groupId, taskId, taskValue))
              == Ok(TestPayload(groupId, taskId, DefaultTaskType, taskValue))
  {
    var props := BuildProperties(groupId, taskId, taskValue);
    assert HasUuid(props, "GROUP_ID") && HasString(props, "TASK_ID") && HasString(props, "TASK_VALUE");
  }

  /** And the other way: a map the parser accepts holds the entries `buildProperties` would build. */
  lemma BuildPropertiesCoversAccepted(props: Properties)
    requires BuildPayload(props).Ok?
    ensures var p := BuildPayload(props).value;
            forall key :: key in BuildProperties(p.groupId, p.taskId, p.taskValue) ==>
              key in props && props[key] == BuildProperties(p.groupId, p.taskId, p.taskValue)[key]
  {
  }

  const MisfireMessage: string := "Misfire_Handled"
  const RegularExecutionMessage: string := "Regular_Execution"

  /** What this version's misfire job records: the regular-execution note when a next fire time exists, then always the misfire note. */
  function MisfireEntries(nextFireTime: Option<DateTime>): (entries: seq<string>)
    ensures 1 <= |entries| <= 2
    ensures entries[|entries| - 1] == MisfireMessage
    ensures |entries| == 2 <==> nextFireTime.Some?
    ensures |entries| == 2 ==> entries[0] == RegularExecutionMessage
  {
    (if nextFireTime.Some? then [RegularExecutionMessage] else []) + [MisfireMessage]
  }

  /** The shared `testResults` list the test jobs append to. */
  class TestResults {
    var entries: seq<string>

    constructor ()
      ensures entries == []
    {
      entries := [];
    }

    /** `SimpleTestConsumer.consume`: records the payload's value. */
    method Consume(payload: TestPayload)
      modifies this
      ensures entries == old(entries) + [payload.taskValue]
    {
      entries := entries + [payload.taskValue];
    }

    /**
     * `MisfireTestTask.execute`; `nextFireTime` is the context's trigger's next fire time (none
     * when the trigger is null too).
     */
    method MisfireExecute(nextFireTime: Option<DateTime>)
      modifies this
      ensures entries == old(entries) + MisfireEntries(nextFireTime)
    {
      if nextFireTime.Some? {
        entries := entries + [RegularExecutionMessage];
      }
      entries := entries + [MisfireMessage];
    }
  }
}
