/** Scheduling vocabulary shared by the dispatcher, the consumers and the audit trail. */
module Scheduling {
  import opened Wrappers

  /** A `LocalDateTime`, as an instant on a totally ordered clock. */
  type DateTime = int

  /** `TaskStartAt`: when a task's trigger first fires. */
  datatype TaskStartAt = Immediate | AtDateTime(dateTime: DateTime)

  /**
   * A `ScheduleType` (interval or cron); the trigger it describes belongs to the scheduling
   * library. `text` is its `toString()`, `start` its optional start date/time.
   */
  datatype ScheduleType = ScheduleType(text: string, start: Option<DateTime>)

  /** `TaskOutcome`. */
  datatype TaskOutcome = SUCCESS | ERROR
}
