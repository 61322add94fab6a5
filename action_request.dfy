/** The default parameter map of an action request (`IActionRequest.toMap`). */
module ActionRequest {
  import opened Wrappers
  import opened JobData

  /** The keys of `AbsActionConsumer.Property`. */
  const GroupIdKey: string := "GROUP_ID"
  const TaskIdKey: string := "TASK_ID"
  const DescriptionKey: string := "DESCRIPTION"

  /** Kotlin's `String?` as a map value. */
  function NullableText(s: Option<string>): Value {
    if s.Some? then StrVal(s.value) else NullVal
  }

  /**
   * Exactly three entries: the request id under GROUP_ID, the task id under TASK_ID and the
   * description under DESCRIPTION, present (as null) even when there is no description.
   */
  function ActionToMap(id: Uuid, taskId: string, description: Option<string>): (m: Properties)
    ensures m.Keys == {GroupIdKey, TaskIdKey, DescriptionKey}
    ensures |m| == 3
    ensures m[GroupIdKey] == UuidVal(id) && m[TaskIdKey] == StrVal(taskId)
    ensures description.None? ==> m[DescriptionKey] == NullVal
    ensures description.Some? ==> m[DescriptionKey] == StrVal(description.value)
  {
    var m := map[GroupIdKey := UuidVal(id), TaskIdKey := StrVal(taskId), DescriptionKey := NullableText(description)];
    assert |m.Keys| == 3;
    m
  }
}
