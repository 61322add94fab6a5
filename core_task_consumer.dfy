/**
 * The task execution wrapper of the taskmanager scheduler: it filters the job data into a
 * property bundle, builds the consumer's payload, consumes it, reports the outcome on the
 * event stream and hands any Exception to the retry handler.
 */
module CoreTaskConsumer {
  import opened Wrappers
  import opened Text
  import opened JobData
  import opened EventStream

  /** The fields every payload exposes (`TaskConsumer.Payload`). */
  datatype Payload = Payload(groupId: Uuid, taskId: string, taskType: string)

  /**
   * A thrown `Throwable`. Its message may be null; `isException` tells a `java.lang.Exception`
   * apart from other throwables (an `Error`), which `execute`'s catch clause does not catch.
   */
  datatype Failure = Failure(message: Option<string>, isException: bool)

  /** The two members a concrete consumer supplies; each either returns or throws. */
  datatype Consumer = Consumer(
    buildPayload: Properties -> Result<Payload, Failure>,
    consume: Payload -> Option<Failure>)

  /** What one run of `start` does, decided by the consumer's own members. */
  datatype Attempt =
    | BuildFailed(error: Failure)
    | Consumed(payload: Payload)
    | ConsumeFailed(payload: Payload, error: Failure)

  /** `buildPayload` runs first; `consume` runs only on the payload it built. */
  function AttemptOf(props: Properties, consumer: Consumer): Attempt {
    match consumer.buildPayload(props)
    case Err(e) => BuildFailed(e)
    case Ok(p) =>
      match consumer.consume(p)
      case None => Consumed(p)
      case Some(e) => ConsumeFailed(p, e)
  }

  /** The success line; `stamp` is the formatted current date/time. */
  function ConsumedLine(stamp: string, p: Payload): string {
    stamp + " | Consumed task type '" + p.taskType + "' | Group Id: " + p.groupId + " | Task Id: " + p.taskId + " "
  }

  /** The failure line; a null error message prints as empty. */
  function FailedLine(stamp: string, p: Payload, error: Failure): string {
    stamp + " | Failed to consume task type '" + p.taskType + "' | Group Id: " + p.groupId
      + " | Task Id: " + p.taskId + " | Error: " + error.message.GetOr("")
  }

  /** A success line and a failure line with the same stamp can always be told apart. */
  lemma SuccessAndFailureLinesDiffer(stamp: string, p: Payload, q: Payload, e: Failure)
    ensures ConsumedLine(stamp, p) != FailedLine(stamp, q, e)
  {
    var k := |stamp| + 3;
    assert ConsumedLine(stamp, p)[k] == 'C';
    assert FailedLine(stamp, q, e)[k] == 'F';
  }

  /** The failure line names the task type, the group id and the task id, and ends with the error message. */
  lemma FailedLineNamesTask(stamp: string, p: Payload, e: Failure)
    ensures var line := FailedLine(stamp, p, e);
      && Contains(line, p.taskType) && Contains(line, p.groupId) && Contains(line, p.taskId)
      && line[|line| - |e.message.GetOr("")|..] == e.message.GetOr("")
  {
    var line := FailedLine(stamp, p, e);
    var i1 := |stamp + " | Failed to consume task type '"|;
    assert OccursAt(line, p.taskType, i1);
    var i2 := i1 + |p.taskType + "' | Group Id: "|;
    assert OccursAt(line, p.groupId, i2);
    var i3 := i2 + |p.groupId + " | Task Id: "|;
    assert OccursAt(line, p.taskId, i3);
  }

  /** A call handed to `TaskRetryHandler(...).handleRetry()`; `job` stands for the scheduler and job detail. */
  datatype RetryCall = RetryCall(job: JobRef, jobData: DataMap, retryCount: Int32, error: Failure)

  /** The retry handler, whose policy is not part of this model: it records each hand-off. */
  class TaskRetryHandler {
    var calls: seq<RetryCall>

    constructor ()
      ensures calls == []
    {
      calls := [];
    }

    method HandleRetry(call: RetryCall)
      modifies this
      ensures calls == old(calls) + [call]
    {
      calls := calls + [call];
    }
  }

  /**
   * `TaskConsumer.start`: builds the payload (a failure propagates with no event line), then
   * consumes it; a failed consume pushes one failure line and rethrows the same error, a
   * successful one pushes one success line.
   */
  method Start(props: Properties, consumer: Consumer, stamp: string, sse: SseService)
    returns (thrown: Option<Failure>)
    modifies sse
    ensures AttemptOf(props, consumer).BuildFailed? ==>
      thrown == Some(AttemptOf(props, consumer).error) && sse.lines == old(sse.lines)
    ensures AttemptOf(props, consumer).Consumed? ==>
      thrown == None && sse.lines == old(sse.lines) + [ConsumedLine(stamp, AttemptOf(props, consumer).payload)]
    ensures AttemptOf(props, consumer).ConsumeFailed? ==>
      var a := AttemptOf(props, consumer);
      thrown == Some(a.error) && sse.lines == old(sse.lines) + [FailedLine(stamp, a.payload, a.error)]
  {
    var built := consumer.buildPayload(props);
    if built.Err? {
      return Some(built.error);
    }
    var payload := built.value;
    var outcome := consumer.consume(payload);
    if outcome.Some? {
      sse.Push(FailedLine(stamp, payload, outcome.value));
      return outcome;
    }
    sse.Push(ConsumedLine(stamp, payload));
    return None;
  }

  /**
   * `TaskConsumer.execute`: `start` receives exactly the String-keyed job data; an Exception
   * it throws goes to the retry handler once, with the job data's retry count, and is not
   * rethrown; any other throwable escapes without a retry; success calls no handler.
   */
  method Execute(job: JobRef, data: DataMap, countKey: string, consumer: Consumer, stamp: string,
                 sse: SseService, retry: TaskRetryHandler)
    returns (thrown: Option<Failure>)
    modifies sse, retry
    ensures var a := AttemptOf(StringProperties(data), consumer);
      && (a.BuildFailed? ==> sse.lines == old(sse.lines))
      && (a.Consumed? ==> sse.lines == old(sse.lines) + [ConsumedLine(stamp, a.payload)])
      && (a.ConsumeFailed? ==> sse.lines == old(sse.lines) + [FailedLine(stamp, a.payload, a.error)])
    ensures var a := AttemptOf(StringProperties(data), consumer);
      && (a.Consumed? ==> retry.calls == old(retry.calls) && thrown == None)
      && (!a.Consumed? && a.error.isException ==>
            retry.calls == old(retry.calls) + [RetryCall(job, data, RetryCount(data, countKey), a.error)]
            && thrown == None)
      && (!a.Consumed? && !a.error.isException ==> retry.calls == old(retry.calls) && thrown == Some(a.error))
  {
    var properties := StringProperties(data);
    var retryCount := RetryCount(data, countKey);
    var error := Start(properties, consumer, stamp, sse);
    thrown := None;
    if error.Some? {
      if error.value.isException {
        retry.HandleRetry(RetryCall(job, data, retryCount, error.value));
      } else {
        thrown := error;
      }
    }
  }
}
