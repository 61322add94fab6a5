/**
 * `NotificationService.schedule`: the fan-out of one notification request into one scheduled
 * task per recipient, after the existing group is kept or replaced.
 */
module NotificationService {
  import opened Wrappers
  import opened JobData
  import opened Scheduling
  import opened Recipients
  import opened EmailRequest
  import opened EventStream
  import opened Snowflake
  import opened TaskDispatch

  /** The concrete request class: an email request with its copies and subject, a Slack request, or any other. */
  datatype RequestKind =
    | EmailKind(cc: seq<string>, subject: string)
    | SlackKind
    | OtherKind(text: string)

  /** The `IMessageRequest` fields the service reads. */
  datatype MessageRequest = MessageRequest(
    groupId: Uuid,
    replace: bool,
    scheduleType: Option<ScheduleType>,
    recipients: seq<Recipient>,
    kind: RequestKind)

  /** The consumer class a request is dispatched to. */
  datatype ConsumerClass = EmailConsumerClass | SlackConsumerClass
  {
    /** `Class.name`. */
    function Name(): string {
      match this
      case EmailConsumerClass => "taskmanager.notification.consumer.message.task.EmailConsumer"
      case SlackConsumerClass => "taskmanager.notification.consumer.message.task.SlackConsumer"
    }

    /** `Class.simpleName`. */
    function SimpleName(): string {
      match this
      case EmailConsumerClass => "EmailConsumer"
      case SlackConsumerClass => "SlackConsumer"
    }
  }

  /** Why `schedule` throws after the group check. */
  datatype ScheduleError =
    | InvalidRecipientEmail(error: InvalidEmail)
    | UnsupportedRequest(message: string)

  /**
   * The consumer selection: email requests are dispatched to the email consumer once their
   * recipients pass the email validator, Slack requests to the Slack consumer; any other
   * request is rejected.
   */
  function ConsumerFor(request: MessageRequest, isValidEmail: string -> bool): (r: Result<ConsumerClass, ScheduleError>)
    ensures r == Ok(EmailConsumerClass) <==>
              request.kind.EmailKind? && forall i :: 0 <= i < |request.recipients| ==> isValidEmail(request.recipients[i].target)
    ensures r == Ok(SlackConsumerClass) <==> request.kind.SlackKind?
    ensures request.kind.EmailKind? && r.Err? ==>
              r.error.InvalidRecipientEmail? && r.error.error.groupId == request.groupId
              && exists i :: FirstInvalid(request.recipients, isValidEmail, i) && r.error.error.email == request.recipients[i].target
    ensures request.kind.OtherKind? ==> r.Err? && r.error.UnsupportedRequest?
  {
    match request.kind
    case EmailKind(_, _) =>
      var failure := VerifyRecipients(request.groupId, request.recipients, isValidEmail);
      if failure.Some? then Err(InvalidRecipientEmail(failure.value)) else Ok(EmailConsumerClass)
    case SlackKind => Ok(SlackConsumerClass)
    case OtherKind(text) => Err(UnsupportedRequest("Unsupported notification request: " + text))
  }

  /** The task start: the schedule's start, or `now` when it has none, or immediately without a schedule. */
  function ResolveStartAt(scheduleType: Option<ScheduleType>, now: DateTime): (startAt: TaskStartAt)
    ensures startAt == Immediate <==> scheduleType.None?
    ensures scheduleType.Some? && scheduleType.value.start.Some? ==> startAt == AtDateTime(scheduleType.value.start.value)
    ensures scheduleType.Some? && scheduleType.value.start.None? ==> startAt == AtDateTime(now)
  {
    if scheduleType.None? then Immediate
    else AtDateTime(scheduleType.value.start.GetOr(now))
  }

  /**
   * `request.toMap(taskId, recipient)`: the request's common map (`IMessageRequest.toMap`, given
   * as `baseToMap`), extended by the email request; a Slack request's map is `slackToMap`.
   */
  function RequestMap(kind: RequestKind, baseToMap: (string, Recipient) -> Properties,
                      slackToMap: (string, Recipient) -> Properties, taskId: string, recipient: Recipient): Properties
  {
    match kind
    case EmailKind(cc, subject) => EmailToMap(baseToMap(taskId, recipient), cc, subject)
    case SlackKind => slackToMap(taskId, recipient)
    case OtherKind(_) => map[]
  }

  function SkipLine(groupId: Uuid): string {
    "Group already exists. Skipping Re-schedule. Group ID: " + groupId
  }

  function ReplaceLine(groupId: Uuid): string {
    "Group already exists. Will be replaced, recreating all tasks. Group ID: " + groupId
  }

  /** The event line announcing one new task. */
  function NewTaskLine(request: MessageRequest, consumer: ConsumerClass, taskId: string, recipient: Recipient): string {
    var schedule := if request.scheduleType.Some? then request.scheduleType.value.text else "Immediate";
    "New 'notification' task | " + schedule + " | " + consumer.SimpleName() + " | Group Id: " + request.groupId
      + " | Task Id: " + taskId + " | Recipient: " + RecipientText(recipient)
  }

  /** The task scheduled for recipient `i`, whose id is the one issued for sequence number `first + i`. */
  function PlannedTask(request: MessageRequest, consumer: ConsumerClass, startAt: TaskStartAt, first: nat,
                       baseToMap: (string, Recipient) -> Properties, slackToMap: (string, Recipient) -> Properties,
                       i: nat): ScheduledTask
    requires i < |request.recipients|
  {
    var taskId := SnowflakeId(first + i);
    ScheduledTask(TaskKey(request.groupId, taskId), consumer.Name(), startAt,
                  RequestMap(request.kind, baseToMap, slackToMap, taskId, request.recipients[i]),
                  request.scheduleType)
  }

  /** One task per recipient, in recipient order. */
  function PlannedTasks(request: MessageRequest, consumer: ConsumerClass, startAt: TaskStartAt, first: nat,
                        baseToMap: (string, Recipient) -> Properties, slackToMap: (string, Recipient) -> Properties)
    : (tasks: seq<ScheduledTask>)
    ensures |tasks| == |request.recipients|
  {
    seq(|request.recipients|, i requires 0 <= i < |request.recipients| =>
      PlannedTask(request, consumer, startAt, first, baseToMap, slackToMap, i))
  }

  /** One announcement per recipient, in recipient order. */
  function PlannedLines(request: MessageRequest, consumer: ConsumerClass, first: nat): (lines: seq<string>)
    ensures |lines| == |request.recipients|
  {
    seq(|request.recipients|, i requires 0 <= i < |request.recipients| =>
      NewTaskLine(request, consumer, SnowflakeId(first + i), request.recipients[i]))
  }

  /** The keys of a list of tasks, in order. */
  function KeysOf(tasks: seq<ScheduledTask>): (keys: seq<TaskKey>)
    ensures |keys| == |tasks|
  {
    seq(|tasks|, i requires 0 <= i < |tasks| => tasks[i].key)
  }

  /** Whether the existing group is kept as it is (it exists and `replace` is off). */
  predicate KeepsGroup(exists_: bool, request: MessageRequest) {
    exists_ && !request.replace
  }

  method Schedule(request: MessageRequest, now: DateTime, isValidEmail: string -> bool,
                  baseToMap: (string, Recipient) -> Properties, slackToMap: (string, Recipient) -> Properties,
                  dispatcher: TaskDispatcher, sse: SseService, ids: SnowflakeFactory)
    returns (r: Result<seq<TaskKey>, ScheduleError>)
    modifies dispatcher, sse, ids
    // The group exists and is kept: its keys are returned and nothing is scheduled.
    ensures KeepsGroup(old(dispatcher.GroupExists(request.groupId)), request) ==>
              && r == Ok(GroupKeys(old(dispatcher.tasks), request.groupId))
              && dispatcher.tasks == old(dispatcher.tasks)
              && sse.lines == old(sse.lines) + [SkipLine(request.groupId)]
              && ids.sequence == old(ids.sequence)
    // Otherwise an existing group is announced and deleted before anything else happens.
    ensures !KeepsGroup(old(dispatcher.GroupExists(request.groupId)), request) ==>
              var existed := old(dispatcher.GroupExists(request.groupId));
              var cleared := if existed then WithoutGroup(old(dispatcher.tasks), request.groupId) else old(dispatcher.tasks);
              var announced := if existed then old(sse.lines) + [ReplaceLine(request.groupId)] else old(sse.lines);
              var consumer := ConsumerFor(request, isValidEmail);
              && (consumer.Err? ==>
                    && r == Err(consumer.error)
                    && dispatcher.tasks == cleared && sse.lines == announced && ids.sequence == old(ids.sequence))
              && (consumer.Ok? ==>
                    var planned := PlannedTasks(request, consumer.value, ResolveStartAt(request.scheduleType, now),
                                                old(ids.sequence), baseToMap, slackToMap);
                    && r == Ok(KeysOf(planned))
                    && dispatcher.tasks == cleared + planned
                    && sse.lines == announced + PlannedLines(request, consumer.value, old(ids.sequence))
                    && ids.sequence == old(ids.sequence) + |request.recipients|)
  {
    var groupId := request.groupId;
    if dispatcher.GroupExists(groupId) {
      if !request.replace {
        sse.Push(SkipLine(groupId));
        return Ok(dispatcher.GroupTaskKeys(groupId));
      }
      sse.Push(ReplaceLine(groupId));
      var _ := dispatcher.DeleteGroup(groupId);
    }

    var consumer := ConsumerFor(request, isValidEmail);
    if consumer.Err? {
      return Err(consumer.error);
    }
    var startAt := ResolveStartAt(request.scheduleType, now);
    var outputKeys := DispatchRecipients(request, consumer.value, startAt, baseToMap, slackToMap, dispatcher, sse, ids);
    return Ok(outputKeys);
  }

  /** The loop over the recipients: one fresh id, one dispatched task and one event line each. */
  method DispatchRecipients(request: MessageRequest, consumerClass: ConsumerClass, startAt: TaskStartAt,
                            baseToMap: (string, Recipient) -> Properties, slackToMap: (string, Recipient) -> Properties,
                            dispatcher: TaskDispatcher, sse: SseService, ids: SnowflakeFactory)
    returns (outputKeys: seq<TaskKey>)
    modifies dispatcher, sse, ids
    ensures var planned := PlannedTasks(request, consumerClass, startAt, old(ids.sequence), baseToMap, slackToMap);
            && outputKeys == KeysOf(planned)
            && dispatcher.tasks == old(dispatcher.tasks) + planned
            && sse.lines == old(sse.lines) + PlannedLines(request, consumerClass, old(ids.sequence))
            && ids.sequence == old(ids.sequence) + |request.recipients|
  {
    var groupId := request.groupId;
    ghost var cleared := dispatcher.tasks;
    ghost var announced := sse.lines;
    ghost var first := ids.sequence;
    ghost var planned := PlannedTasks(request, consumerClass, startAt, first, baseToMap, slackToMap);
    ghost var lines := PlannedLines(request, consumerClass, first);
    ghost var keys := KeysOf(planned);

    outputKeys := [];
    for i := 0 to |request.recipients|
      invariant ids.sequence == first + i
      invariant dispatcher.tasks == cleared + planned[..i]
      invariant sse.lines == announced + lines[..i]
      invariant outputKeys == keys[..i]
    {
      var recipient := request.recipients[i];
      var taskId := ids.NextId();
      var parameters := RequestMap(request.kind, baseToMap, slackToMap, taskId, recipient);
      var task := ScheduledTask(TaskKey(groupId, taskId), consumerClass.Name(), startAt, parameters, request.scheduleType);
      assert task == planned[i];
      var taskKey := dispatcher.Send(task);
      assert taskKey == keys[i];
      outputKeys := outputKeys + [taskKey];
      PrefixExtends(keys, i);
      var line := NewTaskLine(request, consumerClass, taskId, recipient);
      assert line == lines[i];
      sse.Push(line);
      PrefixExtends(planned, i);
      PrefixExtends(lines, i);
    }
    assert planned[..|request.recipients|] == planned;
    assert lines[..|request.recipients|] == lines;
    assert keys[..|request.recipients|] == keys;
  }

  lemma PrefixExtends<T>(s: seq<T>, i: nat)
    requires i < |s|
    ensures s[..i + 1] == s[..i] + [s[i]]
  {
  }

  /** Every scheduled task belongs to the request's group and recipient `i` gets the `i`-th fresh id. */
  lemma PlannedKeysFollowRecipients(request: MessageRequest, consumer: ConsumerClass, startAt: TaskStartAt, first: nat,
                                    baseToMap: (string, Recipient) -> Properties, slackToMap: (string, Recipient) -> Properties)
    ensures var keys := KeysOf(PlannedTasks(request, consumer, startAt, first, baseToMap, slackToMap));
            && |keys| == |request.recipients|
            && (forall i :: 0 <= i < |keys| ==> keys[i] == TaskKey(request.groupId, SnowflakeId(first + i)))
            && (forall i, j :: 0 <= i < j < |keys| ==> keys[i] != keys[j])
  {
    var keys := KeysOf(PlannedTasks(request, consumer, startAt, first, baseToMap, slackToMap));
    forall i, j | 0 <= i < j < |keys|
      ensures keys[i] != keys[j]
    {
      SnowflakeIdUnique(first + i, first + j);
    }
  }

  /** The group's keys in a concatenation of stores are those of each part, in order. */
  lemma {:induction false} GroupKeysAppend(a: seq<ScheduledTask>, b: seq<ScheduledTask>, groupId: Uuid)
    ensures GroupKeys(a + b, groupId) == GroupKeys(a, groupId) + GroupKeys(b, groupId)
  {
    if a == [] {
      assert a + b == b;
    } else {
      assert (a + b)[1..] == a[1..] + b;
      GroupKeysAppend(a[1..], b, groupId);
    }
  }

  /** Tasks that all belong to one group are exactly that group's tasks, in order. */
  lemma {:induction false} GroupKeysOfOneGroup(tasks: seq<ScheduledTask>, groupId: Uuid)
    requires forall i :: 0 <= i < |tasks| ==> tasks[i].key.groupId == groupId
    ensures GroupKeys(tasks, groupId) == KeysOf(tasks)
    ensures forall g :: g != groupId ==> GroupKeys(tasks, g) == []
  {
    if tasks != [] {
      GroupKeysOfOneGroup(tasks[1..], groupId);
      assert KeysOf(tasks) == [tasks[0].key] + KeysOf(tasks[1..]);
    }
  }

  /**
   * After a fan-out that got past the group check, the group consists of exactly the returned
   * keys (an existing group was replaced, not merged), and every other group is as before.
   */
  lemma FanOutOwnsGroup(tasks: seq<ScheduledTask>, request: MessageRequest, consumer: ConsumerClass,
                        startAt: TaskStartAt, first: nat,
                        baseToMap: (string, Recipient) -> Properties, slackToMap: (string, Recipient) -> Properties)
    ensures var planned := PlannedTasks(request, consumer, startAt, first, baseToMap, slackToMap);
            var after := WithoutGroup(tasks, request.groupId) + planned;
            && GroupKeys(after, request.groupId) == KeysOf(planned)
            && forall g :: g != request.groupId ==> GroupKeys(after, g) == GroupKeys(tasks, g)
  {
    var planned := PlannedTasks(request, consumer, startAt, first, baseToMap, slackToMap);
    var cleared := WithoutGroup(tasks, request.groupId);
    DeletedGroupIsGone(tasks, request.groupId);
    GroupKeysOfOneGroup(planned, request.groupId);
    GroupKeysAppend(cleared, planned, request.groupId);
    forall g | g != request.groupId
      ensures GroupKeys(cleared + planned, g) == GroupKeys(tasks, g)
    {
      GroupKeysAppend(cleared, planned, g);
    }
  }

  /** Where the group did not exist, removing it changes nothing, so the lemma above covers that path too. */
  lemma {:induction false} AbsentGroupUntouched(tasks: seq<ScheduledTask>, groupId: Uuid)
    requires forall t :: t in tasks ==> t.key.groupId != groupId
    ensures WithoutGroup(tasks, groupId) == tasks
  {
    if tasks != [] {
      AbsentGroupUntouched(tasks[1..], groupId);
      assert tasks == [tasks[0]] + tasks[1..];
    }
  }
}
