/** The scheduler's health check: one error when the scheduler is not started. */
module SchedulerHealthCheck {

  const NotStartedMessage: string := "SchedulerHealth. Scheduler is not started."

  /**
   * The `errors` list after `init`: the given entries, followed by the not-started message
   * exactly when the scheduler is not started. Pausing and the task count play no part.
   */
  function SchedulerErrors(errors: seq<string>, isStarted: bool): (r: seq<string>)
    ensures |errors| <= |r| <= |errors| + 1
    ensures r[..|errors|] == errors
    ensures |r| == |errors| <==> isStarted
    ensures !isStarted ==> r[|errors|] == NotStartedMessage
  {
    if !isStarted then errors + [NotStartedMessage] else errors
  }

  /** Via `create`, which starts from an empty list, there are no errors exactly when the scheduler is started. */
  lemma CreateReportsNotStarted(isStarted: bool)
    ensures SchedulerErrors([], isStarted) == [] <==> isStarted
    ensures !isStarted ==> SchedulerErrors([], isStarted) == [NotStartedMessage]
  {
    if !isStarted {
      assert |SchedulerErrors([], isStarted)| == 1;
    }
  }

  class SchedulerHealth {
    var errors: seq<string>
    const isStarted: bool
    const isPaused: bool
    const totalTasks: int

    /** The primary constructor followed by `init`. */
    constructor (errors: seq<string>, isStarted: bool, isPaused: bool, totalTasks: int)
      ensures this.errors == SchedulerErrors(errors, isStarted)
      ensures this.isStarted == isStarted && this.isPaused == isPaused && this.totalTasks == totalTasks
    {
      this.errors := errors;
      this.isStarted := isStarted;
      this.isPaused := isPaused;
      this.totalTasks := totalTasks;
      new;
      if !isStarted {
        this.errors := this.errors + [NotStartedMessage];
      }
    }

    /** `create`: an empty list and the scheduler's state, read by the caller. */
    static method Create(isStarted: bool, isPaused: bool, totalTasks: int) returns (health: SchedulerHealth)
      ensures fresh(health)
      ensures health.errors == [] <==> isStarted
      ensures health.isStarted == isStarted
    {
      health := new SchedulerHealth([], isStarted, isPaused, totalTasks);
      CreateReportsNotStarted(isStarted);
    }
  }
}
