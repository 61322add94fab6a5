/**
 * The scheduler's job listener: after every execution it counts the run, classifies the
 * outcome and enqueues one audit-log request on the background queue.
 */
module TaskListener {
  import opened Wrappers
  import opened JobData
  import opened Scheduling
  import opened Snowflake

  /** A Quartz `JobKey`: the task id is the name, the group id is the group. */
  datatype JobKey = JobKey(name: string, group: string)

  /**
   * The parts of a `JobExecutionContext` the listener reads. `jobDataText` is
   * `jobDetail.jobDataMap.toMap().toString()`.
   */
  datatype JobContext = JobContext(
    key: JobKey,
    description: Option<string>,
    fireTime: DateTime,
    jobRunTime: int,
    jobDataText: string)

  /** A `JobExecutionException`; its message may be null. */
  datatype JobException = JobException(message: Option<string>)

  /** `AuditLogRequest`. */
  datatype AuditLogRequest = AuditLogRequest(
    groupId: Uuid,
    taskId: string,
    description: Option<string>,
    snowflakeId: string,
    fireTime: DateTime,
    runTime: int,
    outcome: TaskOutcome,
    log: Option<string>,
    detail: Option<string>)

  /** ERROR exactly when the execution raised an exception. */
  function OutcomeOf(jobException: Option<JobException>): (outcome: TaskOutcome)
    ensures outcome == ERROR <==> jobException.Some?
    ensures outcome == SUCCESS <==> jobException.None?
  {
    if jobException.Some? then ERROR else SUCCESS
  }

  /** The audit request for one execution: the key's group and name, its timings, outcome and log. */
  function AuditRequestFor(context: JobContext, jobException: Option<JobException>, groupId: Uuid, snowflakeId: string)
    : (r: AuditLogRequest)
    ensures r.groupId == groupId && r.taskId == context.key.name
    ensures r.fireTime == context.fireTime && r.runTime == context.jobRunTime
    ensures r.outcome == ERROR <==> jobException.Some?
    ensures jobException.None? ==> r.log == None
    ensures jobException.Some? ==> r.log == jobException.value.message
    ensures r.snowflakeId == snowflakeId
    ensures r.description == context.description && r.detail == Some(context.jobDataText)
  {
    AuditLogRequest(
      groupId := groupId,
      taskId := context.key.name,
      description := context.description,
      snowflakeId := snowflakeId,
      fireTime := context.fireTime,
      runTime := context.jobRunTime,
      outcome := OutcomeOf(jobException),
      log := if jobException.Some? then jobException.value.message else None,
      detail := Some(context.jobDataText))
  }

  /** The `AsyncScope` queue: each enqueued job will call `AuditService.create` on its request. */
  class AuditQueue {
    var pending: seq<AuditLogRequest>

    constructor ()
      ensures pending == []
    {
      pending := [];
    }

    method Enqueue(request: AuditLogRequest)
      modifies this
      ensures pending == old(pending) + [request]
    {
      pending := pending + [request];
    }
  }

  class TaskListener {
    /** `scheduler_task_total`. */
    var executedTotal: nat
    /** `scheduler_task_failures`. */
    var failureTotal: nat

    constructor ()
      ensures executedTotal == 0 && failureTotal == 0
    {
      executedTotal, failureTotal := 0, 0;
    }

    /** `jobToBeExecuted`: traces only; no counter moves and nothing is enqueued. */
    method JobToBeExecuted(context: JobContext, queue: AuditQueue)
      ensures executedTotal == old(executedTotal) && failureTotal == old(failureTotal)
      ensures queue.pending == old(queue.pending)
    {
    }

    /** `jobExecutionVetoed`: traces only; no counter moves and nothing is enqueued. */
    method JobExecutionVetoed(context: JobContext, queue: AuditQueue)
      ensures executedTotal == old(executedTotal) && failureTotal == old(failureTotal)
      ensures queue.pending == old(queue.pending)
    {
    }

    /**
     * `jobWasExecuted`: the executed counter grows by one, the failure counter by one exactly
     * on ERROR, and one audit request is enqueued. `toUuid` is the group's UUID parse; when it
     * throws, the counters have already moved and nothing is enqueued (`thrown`).
     */
    method JobWasExecuted(context: JobContext, jobException: Option<JobException>,
                          toUuid: string -> Option<Uuid>, ids: SnowflakeFactory, queue: AuditQueue)
      returns (thrown: bool)
      modifies this, ids, queue
      ensures executedTotal == old(executedTotal) + 1
      ensures failureTotal == old(failureTotal) + (if OutcomeOf(jobException) == ERROR then 1 else 0)
      ensures thrown <==> toUuid(context.key.group).None?
      ensures thrown ==> queue.pending == old(queue.pending) && ids.sequence == old(ids.sequence)
      ensures !thrown ==>
        queue.pending == old(queue.pending)
          + [AuditRequestFor(context, jobException, toUuid(context.key.group).value, SnowflakeId(old(ids.sequence)))]
        && ids.sequence == old(ids.sequence) + 1
    {
      executedTotal := executedTotal + 1;
      var outcome := if jobException.Some? then ERROR else SUCCESS;
      if jobException.Some? {
        failureTotal := failureTotal + 1;
      }
      var groupId := toUuid(context.key.group);
      if groupId.None? {
        return true;
      }
      var snowflakeId := ids.NextId();
      var request := AuditLogRequest(
        groupId := groupId.value,
        taskId := context.key.name,
        description := context.description,
        snowflakeId := snowflakeId,
        fireTime := context.fireTime,
        runTime := context.jobRunTime,
        outcome := outcome,
        log := if jobException.Some? then jobException.value.message else None,
        detail := Some(context.jobDataText));
      queue.Enqueue(request);
      return false;
    }
  }
}
