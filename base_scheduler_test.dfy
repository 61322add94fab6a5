/**
 * The test jobs of the `ktask-base` scheduler tests: the misfire-reporting job, which here
 * records exactly one of its two notes, and the simple task that records a property.
 */
module BaseSchedulerTest {
  import opened Wrappers
  import opened JobData
  import opened Scheduling
  import CoreSchedulerTest

  const MisfireMessage: string := "Misfire_Handled"
  const RegularExecutionMessage: string := "Regular_Execution"
  const DefaultKey: string := "defaultKey"

  /** The nullable job context as far as the misfire job reads it: its trigger's next fire time. */
  datatype MisfireContext = MisfireContext(nextFireTime: Option<DateTime>)

  /** The one note this version records: the misfire note without a next fire time, otherwise the regular one. */
  function MisfireEntry(nextFireTime: Option<DateTime>): (entry: string)
    ensures entry == MisfireMessage <==> nextFireTime.None?
    ensures nextFireTime.Some? ==> entry == RegularExecutionMessage
  {
    if nextFireTime.None? then MisfireMessage else RegularExecutionMessage
  }

  /**
   * The two misfire jobs agree exactly when there is no next fire time; with one, this version
   * records only the regular note where the core version records both.
   */
  lemma MisfireVariantsDiffer(nextFireTime: Option<DateTime>)
    ensures [MisfireEntry(nextFireTime)] == CoreSchedulerTest.MisfireEntries(nextFireTime) <==> nextFireTime.None?
    ensures MisfireMessage in CoreSchedulerTest.MisfireEntries(nextFireTime)
    ensures MisfireMessage in [MisfireEntry(nextFireTime)] <==> nextFireTime.None?
  {
    var core := CoreSchedulerTest.MisfireEntries(nextFireTime);
    assert core[|core| - 1] == MisfireMessage;
  }

  /**
   * `(properties["uniqueKey"] ?: "defaultKey") as String`: the stored String, the default when
   * the entry is absent or null, and a failed cast (none) for a value of another class.
   */
  function UniqueKeyOf(properties: Properties): (key: Option<string>)
    ensures key == Some(DefaultKey) <== "uniqueKey" !in properties || properties["uniqueKey"] == NullVal
    ensures key.None? <==> "uniqueKey" in properties && !properties["uniqueKey"].StrVal? && properties["uniqueKey"] != NullVal
    ensures "uniqueKey" in properties && properties["uniqueKey"].StrVal? ==> key == Some(properties["uniqueKey"].s)
  {
    if "uniqueKey" !in properties || properties["uniqueKey"] == NullVal then Some(DefaultKey)
    else if properties["uniqueKey"].StrVal? then Some(properties["uniqueKey"].s)
    else None
  }

  /** The shared `testResults` list the test jobs append to. */
  class TestResults {
    var entries: seq<string>

    constructor ()
      ensures entries == []
    {
      entries := [];
    }

    /**
     * `MisfireTestTask.execute`: a null context reaches `context!!` and throws before anything
     * is recorded; otherwise exactly one note is recorded.
     */
    method MisfireExecute(context: Option<MisfireContext>) returns (thrown: bool)
      modifies this
      ensures thrown <==> context.None?
      ensures thrown ==> entries == old(entries)
      ensures !thrown ==> entries == old(entries) + [MisfireEntry(context.value.nextFireTime)]
    {
      if context.None? {
        return true;
      }
      if context.value.nextFireTime.None? {
        entries := entries + [MisfireMessage];
      } else {
        entries := entries + [RegularExecutionMessage];
      }
      return false;
    }

    /** `SimpleTestTask.start`: records the unique key; a non-String value throws `ClassCastException`. */
    method SimpleTaskStart(properties: Properties) returns (thrown: bool)
      modifies this
      ensures thrown <==> UniqueKeyOf(properties).None?
      ensures thrown ==> entries == old(entries)
      ensures !thrown ==> entries == old(entries) + [UniqueKeyOf(properties).value]
    {
      var key := UniqueKeyOf(properties);
      if key.None? {
        return true;
      }
      entries := entries + [key.value];
      return false;
    }
  }
}
