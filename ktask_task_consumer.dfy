/**
 * The task execution wrapper of the ktask scheduler: like the taskmanager one it builds and
 * consumes a payload and reports on the event stream, but instead of a retry handler it lets
 * the consumer request a one-off re-schedule, applied after `start` whether or not it threw.
 */
module KTaskConsumer {
  import opened Wrappers
  import opened JobData
  import opened Scheduling
  import opened EventStream

  /** The fields every payload exposes (`TaskConsumer.Payload`). */
  datatype Payload = Payload(groupId: Uuid, taskId: string, taskType: string)

  /** A thrown `Throwable`; its message may be null. */
  datatype Failure = Failure(message: Option<string>)

  /**
   * What the consumer's `consume` does: the `reschedule(startAt)` calls it makes, in order,
   * and the throwable it ends with, if any.
   */
  datatype ConsumeRun = ConsumeRun(reschedules: seq<TaskStartAt>, failure: Option<Failure>)

  /**
   * What the consumer's `buildPayload` does: `reschedule` is visible to it too, so it may make
   * requests, in order, before it returns the payload or throws.
   */
  datatype BuildRun = BuildRun(reschedules: seq<TaskStartAt>, payload: Result<Payload, Failure>)

  datatype Consumer = Consumer(
    buildPayload: Properties -> BuildRun,
    consume: Payload -> ConsumeRun)

  function ConsumedLine(stamp: string, p: Payload): string {
    stamp + " | Consumed task type '" + p.taskType + "' | Group Id: " + p.groupId + " | Task Id: " + p.taskId + " "
  }

  function FailedLine(stamp: string, p: Payload, error: Failure): string {
    stamp + " | Failed to consume task type '" + p.taskType + "' | Group Id: " + p.groupId
      + " | Task Id: " + p.taskId + " | Error: " + error.message.GetOr("")
  }

  /** The re-schedule request left after a series of `reschedule` calls: the last call wins. */
  function AfterRequests(initial: Option<TaskStartAt>, requests: seq<TaskStartAt>): (r: Option<TaskStartAt>)
    ensures requests == [] ==> r == initial
    ensures requests != [] ==> r == Some(requests[|requests| - 1])
  {
    if requests == [] then initial else Some(requests[|requests| - 1])
  }

  /** Two series of requests, one after the other, act as their concatenation. */
  lemma AfterRequestsAppend(initial: Option<TaskStartAt>, first: seq<TaskStartAt>, second: seq<TaskStartAt>)
    ensures AfterRequests(AfterRequests(initial, first), second) == AfterRequests(initial, first + second)
  {
    if second != [] {
      assert (first + second)[|first + second| - 1] == second[|second| - 1];
    } else {
      assert first + second == first;
    }
  }

  /**
   * The requests `start` makes: those of `buildPayload`, even when it then throws, followed by
   * those of `consume` when the payload was built.
   */
  function RequestsOf(props: Properties, consumer: Consumer): (requests: seq<TaskStartAt>)
    ensures consumer.buildPayload(props).payload.Err? ==> requests == consumer.buildPayload(props).reschedules
    ensures consumer.buildPayload(props).payload.Ok? ==>
      requests == consumer.buildPayload(props).reschedules
                  + consumer.consume(consumer.buildPayload(props).payload.value).reschedules
  {
    var built := consumer.buildPayload(props);
    match built.payload
    case Err(_) => built.reschedules
    case Ok(p) => built.reschedules + consumer.consume(p).reschedules
  }

  /** The throwable `start` ends with: the build error, or the consume error. */
  function StartFailure(props: Properties, consumer: Consumer): (failure: Option<Failure>)
    ensures consumer.buildPayload(props).payload.Err? ==> failure == Some(consumer.buildPayload(props).payload.error)
    ensures consumer.buildPayload(props).payload.Ok? ==>
      failure == consumer.consume(consumer.buildPayload(props).payload.value).failure
  {
    match consumer.buildPayload(props).payload
    case Err(e) => Some(e)
    case Ok(p) => consumer.consume(p).failure
  }

  /** The event lines `start` pushes: one per consume attempt, none when the build fails. */
  function StartLines(props: Properties, consumer: Consumer, stamp: string): (lines: seq<string>)
    ensures |lines| == (if consumer.buildPayload(props).payload.Ok? then 1 else 0)
    ensures consumer.buildPayload(props).payload.Ok? ==>
      var p := consumer.buildPayload(props).payload.value;
      lines == [if StartFailure(props, consumer).Some? then FailedLine(stamp, p, StartFailure(props, consumer).value)
                else ConsumedLine(stamp, p)]
  {
    match consumer.buildPayload(props).payload
    case Err(_) => []
    case Ok(p) =>
      match consumer.consume(p).failure
      case None => [ConsumedLine(stamp, p)]
      case Some(e) => [FailedLine(stamp, p, e)]
  }

  /** One `TaskReScheduler(scheduler, jobDetail, startAt).reschedule()` call. */
  datatype RescheduleCall = RescheduleCall(job: JobRef, startAt: TaskStartAt)

  /** The re-scheduler, whose trigger arithmetic is not part of this model: it records each call. */
  class TaskReScheduler {
    var calls: seq<RescheduleCall>

    constructor ()
      ensures calls == []
    {
      calls := [];
    }

    method Reschedule(call: RescheduleCall)
      modifies this
      ensures calls == old(calls) + [call]
    {
      calls := calls + [call];
    }
  }

  class TaskConsumer {
    /** The pending re-schedule time; null when none is requested. */
    var rescheduleAt: Option<TaskStartAt>

    constructor ()
      ensures rescheduleAt == None
    {
      rescheduleAt := None;
    }

    /** `reschedule(startAt)`: overwrites any earlier request. */
    method Reschedule(startAt: TaskStartAt)
      modifies this
      ensures rescheduleAt == Some(startAt)
    {
      rescheduleAt := Some(startAt);
    }

    /** The `reschedule` calls one overridden member makes, applied in order. */
    method ApplyRequests(requests: seq<TaskStartAt>)
      modifies this
      ensures rescheduleAt == AfterRequests(old(rescheduleAt), requests)
    {
      for i := 0 to |requests|
        invariant rescheduleAt == AfterRequests(old(rescheduleAt), requests[..i])
      {
        Reschedule(requests[i]);
      }
      assert requests[..|requests|] == requests;
    }

    /**
     * `start`: builds the payload, then consumes it (the `reschedule` calls of both are applied
     * in order, those of a failed build included), pushing exactly one line per consume attempt.
     */
    method Start(props: Properties, consumer: Consumer, stamp: string, sse: SseService)
      returns (thrown: Option<Failure>)
      modifies this, sse
      ensures rescheduleAt == AfterRequests(old(rescheduleAt), RequestsOf(props, consumer))
      ensures sse.lines == old(sse.lines) + StartLines(props, consumer, stamp)
      ensures thrown == StartFailure(props, consumer)
    {
      var built := consumer.buildPayload(props);
      ApplyRequests(built.reschedules);
      if built.payload.Err? {
        assert built.reschedules == RequestsOf(props, consumer);
        return Some(built.payload.error);
      }
      var payload := built.payload.value;
      var run := consumer.consume(payload);
      ApplyRequests(run.reschedules);
      AfterRequestsAppend(old(rescheduleAt), built.reschedules, run.reschedules);
      if run.failure.Some? {
        sse.Push(FailedLine(stamp, payload, run.failure.value));
        return run.failure;
      }
      sse.Push(ConsumedLine(stamp, payload));
      return None;
    }

    /**
     * `execute`: `start` receives exactly the String-keyed job data; then, in the `finally`
     * block, a pending re-schedule is handed to the re-scheduler once and cleared. The
     * re-schedule happens whether or not `start` threw, and `start`'s throwable still escapes.
     */
    method Execute(job: JobRef, data: DataMap, consumer: Consumer, stamp: string, sse: SseService, rescheduler: TaskReScheduler)
      returns (thrown: Option<Failure>)
      modifies this, sse, rescheduler
      ensures rescheduleAt == None
      ensures var props := StringProperties(data);
        var pending := AfterRequests(old(rescheduleAt), RequestsOf(props, consumer));
        rescheduler.calls == old(rescheduler.calls) + (if pending.Some? then [RescheduleCall(job, pending.value)] else [])
      ensures sse.lines == old(sse.lines) + StartLines(StringProperties(data), consumer, stamp)
      ensures thrown == StartFailure(StringProperties(data), consumer)
    {
      var properties := StringProperties(data);
      thrown := Start(properties, consumer, stamp, sse);
      // finally
      if rescheduleAt.Some? {
        rescheduler.Reschedule(RescheduleCall(job, rescheduleAt.value));
        rescheduleAt := None;
      }
    }
  }
}
