# Task manager core, modelled in Dafny

This project models the core of a Kotlin task-scheduling service. The service is built on
Quartz and is split into the `taskmanager-*` and `ktask-*` modules. The model covers:

- **Two task consumers.** Each filters a job's data map down to its String-keyed properties,
  builds a payload, consumes it and pushes one event line per consume attempt (none when the payload cannot be built).
  - The `taskmanager-core` consumer hands any `Exception` to the retry handler, together with
    the stored retry count (0 when none is stored as an Int).
  - The `ktask-scheduler` consumer keeps a pending `rescheduleAt` request. It acts on that
    request in a `finally` block and then clears it.
- **The execution listener.** It counts executions and failures, classifies each run as
  SUCCESS or ERROR, and enqueues one audit request per run unless the job's group is not a UUID.
- **The audit repository.** It is an append-only table, queried by task name and group:
  newest first, the most recent record, and the count (cut to an `Int`).
- **The notification fan-out.** An existing group is either kept or replaced. The request is
  then validated, its start is resolved, and one task and one event line are produced per
  recipient, in recipient order.
- **The validators.** Recipient construction, email recipients, the email consumer's SMTP
  settings, and the parameter maps of action and email requests.
- **The test jobs of the two scheduler test suites.** A property-map parser with its inverse,
  the two diverging misfire jobs, and the simple task.
- **The health checks.** The server's aggregated check and the scheduler, application and
  snowflake checks.

Collaborators whose code is not part of this model are represented in one of three ways:

- **As small classes that record what they receive.** The Quartz task store (`TaskDispatcher`,
  a list of scheduled tasks), `SseService` (a list of event lines), `TaskRetryHandler`,
  `TaskReScheduler`, the audit enqueue, and `SnowflakeFactory` (a counter whose value is
  rendered in decimal).
- **As function parameters.** `EmailValidator`, `LocaleUtils`, the request's base `toMap`, and
  snowflake parsing.
- **As plain parameters.** The clock (`now`) and the formatted date/time at the head of event
  lines (`stamp`).

A consumer subclass is a pair of functions: `buildPayload` and `consume`. A thrown exception
is a returned value. Where Kotlin distinguishes an `Exception` from any other `Throwable`
(`catch (Exception)` against `runCatching`), the model does too.

## Model

| member | source | states |
|---|---|---|
| JobData.StringProperties | taskmanager-core/scheduler/src/main/kotlin/taskmanager/scheduler/task/TaskConsumer.kt:36-39 | a name is a property exactly when it is a String key of the job data, and its value is the stored one |
| JobData.NonStringKeysIgnored | taskmanager-core/scheduler/src/main/kotlin/taskmanager/scheduler/task/TaskConsumer.kt:37-39 | entries under non-String keys never change the properties |
| JobData.RetryCount | taskmanager-core/scheduler/src/main/kotlin/taskmanager/scheduler/task/TaskConsumer.kt:41 | the count is the stored Int when the count key holds an Int, and 0 when it is missing or of another class |
| JobData.RetryCountRoundTrip | taskmanager-core/scheduler/src/main/kotlin/taskmanager/scheduler/task/TaskConsumer.kt:41 | a stored Int reads back unchanged; a stored Long reads as 0 |
| CoreTaskConsumer.SuccessAndFailureLinesDiffer | taskmanager-core/scheduler/src/main/kotlin/taskmanager/scheduler/task/TaskConsumer.kt:66-84 | a success line and a failure line with the same stamp are never equal |
| CoreTaskConsumer.FailedLineNamesTask | taskmanager-core/scheduler/src/main/kotlin/taskmanager/scheduler/task/TaskConsumer.kt:67-73 | the failure line contains the task type, the group id and the task id, and ends with the error message (empty when null) |
| CoreTaskConsumer.Start | taskmanager-core/scheduler/src/main/kotlin/taskmanager/scheduler/task/TaskConsumer.kt:61-85 | a failed payload build throws and pushes nothing; otherwise exactly one line is pushed (the success line, or the failure line followed by a rethrow of the same failure) |
| CoreTaskConsumer.Execute | taskmanager-core/scheduler/src/main/kotlin/taskmanager/scheduler/task/TaskConsumer.kt:33-54 | start runs on the String-keyed properties; an `Exception` makes exactly one retry hand-off, carrying the running job, the job data, the retry count and the error, and nothing escapes; any other `Throwable` escapes with no hand-off; success makes no hand-off |
| KTaskConsumer.AfterRequests | ktask-scheduler/src/main/kotlin/ktask/scheduler/service/task/TaskConsumer.kt:95-97 | after a series of reschedule requests the pending start is the last one requested, or the earlier value when there were none |
| KTaskConsumer.AfterRequestsAppend | ktask-scheduler/src/main/kotlin/ktask/scheduler/service/task/TaskConsumer.kt:95-97 | two series of reschedule requests, one after the other, leave the same pending start as their concatenation |
| KTaskConsumer.RequestsOf | ktask-scheduler/src/main/kotlin/ktask/scheduler/service/task/TaskConsumer.kt:63-105 | start's reschedule requests are buildPayload's, even when it throws, followed by consume's when the payload was built |
| KTaskConsumer.StartFailure | ktask-scheduler/src/main/kotlin/ktask/scheduler/service/task/TaskConsumer.kt:63-79 | start throws buildPayload's error when the build fails, and otherwise exactly consume's failure |
| KTaskConsumer.StartLines | ktask-scheduler/src/main/kotlin/ktask/scheduler/service/task/TaskConsumer.kt:63-87 | when the payload builds, start pushes exactly one line: the failure line with start's error when start fails, the success line otherwise; when it does not build, nothing is pushed |
| KTaskConsumer.TaskConsumer.constructor | ktask-scheduler/src/main/kotlin/ktask/scheduler/service/task/TaskConsumer.kt:28 | no reschedule is pending initially |
| KTaskConsumer.TaskConsumer.Reschedule | ktask-scheduler/src/main/kotlin/ktask/scheduler/service/task/TaskConsumer.kt:95-97 | the pending start becomes the requested one |
| KTaskConsumer.TaskConsumer.ApplyRequests | ktask-scheduler/src/main/kotlin/ktask/scheduler/service/task/TaskConsumer.kt:95-97 | applying a series of reschedule calls leaves the pending start `AfterRequests` gives |
| KTaskConsumer.TaskConsumer.Start | ktask-scheduler/src/main/kotlin/ktask/scheduler/service/task/TaskConsumer.kt:63-87 | the pending start reflects the requests made while building and consuming, those of a failed build included; the pushed lines and the escaping failure are those of the build and consume outcome |
| KTaskConsumer.TaskConsumer.Execute | ktask-scheduler/src/main/kotlin/ktask/scheduler/service/task/TaskConsumer.kt:35-56 | whether or not start throws, a pending start (the last one requested) is handed to the rescheduler, for the running job, exactly once and then cleared; with none pending nothing is handed over; start's failure escapes unchanged |
| TaskListener.OutcomeOf | ktask-scheduler/src/main/kotlin/ktask/scheduler/listener/TaskListener.kt:86-89 | the outcome is ERROR exactly when a job exception is present, SUCCESS exactly when none is |
| TaskListener.AuditRequestFor | ktask-scheduler/src/main/kotlin/ktask/scheduler/listener/TaskListener.kt:94-103 | the audit request carries the job's group and name, its fire and run times, ERROR exactly on an exception, and the exception's message as log (null without one), with the given snowflake id, the job's description and its data as detail |
| TaskListener.TaskListener.JobToBeExecuted | ktask-scheduler/src/main/kotlin/ktask/scheduler/listener/TaskListener.kt:60-62 | counters and the audit queue are left unchanged |
| TaskListener.TaskListener.JobExecutionVetoed | ktask-scheduler/src/main/kotlin/ktask/scheduler/listener/TaskListener.kt:71-73 | counters and the audit queue are left unchanged |
| TaskListener.TaskListener.JobWasExecuted | ktask-scheduler/src/main/kotlin/ktask/scheduler/listener/TaskListener.kt:80-109 | the execution count grows by one and the failure count by one exactly on ERROR; a group name that is not a Uuid throws, after the counters, with nothing enqueued and no id drawn; otherwise exactly one audit request, with a fresh snowflake id, is enqueued |
| Audit.InsertBounded | ktask-base/src/main/kotlin/ktask/base/scheduler/audit/AuditRepository.kt:53 | inserting a record no newer than a bound into a list with no record newer than that bound keeps the list within the bound |
| Audit.InsertAddsOne | ktask-base/src/main/kotlin/ktask/base/scheduler/audit/AuditRepository.kt:53 | inserting adds exactly that record to the multiset |
| Audit.InsertKeepsOrder | ktask-base/src/main/kotlin/ktask/base/scheduler/audit/AuditRepository.kt:53 | inserting into a newest-first list keeps it newest first |
| Audit.SortNewestFirst | ktask-base/src/main/kotlin/ktask/base/scheduler/audit/AuditRepository.kt:53 | the result is ordered by creation time, newest first, and is a permutation of the input |
| Audit.Matching | ktask-base/src/main/kotlin/ktask/base/scheduler/audit/AuditRepository.kt:70-71 | a record is kept exactly when it is in the table with the given task name and group, and each matching record as often as it is stored |
| Audit.FindAll | ktask-base/src/main/kotlin/ktask/base/scheduler/audit/AuditRepository.kt:50-58 | every record of the table, each as often as stored, newest first |
| Audit.Find | ktask-base/src/main/kotlin/ktask/base/scheduler/audit/AuditRepository.kt:67-77 | exactly the task's records, each as often as stored, newest first |
| Audit.MostRecent | ktask-base/src/main/kotlin/ktask/base/scheduler/audit/AuditRepository.kt:86-97 | `mostRecent` is null exactly when `find` is empty, and is otherwise `find`'s first record |
| Audit.MostRecentIsNewest | ktask-base/src/main/kotlin/ktask/base/scheduler/audit/AuditRepository.kt:86-97 | the record `mostRecent` returns was created no earlier than any record of the task |
| Audit.LongToInt | ktask-base/src/main/kotlin/ktask/base/scheduler/audit/AuditRepository.kt:123 | the result is a 32-bit Int, equal to the input whenever the input fits an Int, and congruent to it modulo 2^32 otherwise |
| Audit.CountRows | ktask-base/src/main/kotlin/ktask/base/scheduler/audit/AuditRepository.kt:118-122 | the row count equals the number of the task's records |
| Audit.Count | ktask-base/src/main/kotlin/ktask/base/scheduler/audit/AuditRepository.kt:106-125 | `count` is the number of the task's records cut to an Int, and so equals the length of `find` while that length fits an Int |
| Audit.CountRowsAfterAppend | ktask-base/src/main/kotlin/ktask/base/scheduler/audit/AuditRepository.kt:29-43 | appending a record adds one to its own task's row count and nothing to any other's |
| Audit.CountAfterCreate | ktask-base/src/main/kotlin/ktask/base/scheduler/audit/AuditRepository.kt:29-43 | after `create`, the created task's `count` grows by one while it fits an Int |
| Audit.CountOthersAfterCreate | ktask-base/src/main/kotlin/ktask/base/scheduler/audit/AuditRepository.kt:29-43 | after `create`, every other task's `count` is unchanged, with no bound |
| Audit.RecordOf | ktask-base/src/main/kotlin/ktask/base/scheduler/audit/AuditRepository.kt:31-39 | the stored record carries the request's task name, group, fire time, run time, outcome, log and detail, the given id and the creation time |
| Audit.AuditRepository.Create | ktask-base/src/main/kotlin/ktask/base/scheduler/audit/AuditRepository.kt:29-43 | exactly one record is appended, and its returned id differs from every id already stored |
| TaskDispatch.GroupKeys | taskmanager-notification/src/main/kotlin/taskmanager/notification/service/NotificationService.kt:50 | a key is returned exactly when a stored task of that group has it |
| TaskDispatch.WithoutGroup | taskmanager-notification/src/main/kotlin/taskmanager/notification/service/NotificationService.kt:53 | a task remains exactly when it was stored and belongs to another group |
| TaskDispatch.TaskDispatcher.GroupExists | taskmanager-notification/src/main/kotlin/taskmanager/notification/service/NotificationService.kt:47 | true exactly when some stored task belongs to the group |
| TaskDispatch.DeletedGroupIsGone | taskmanager-notification/src/main/kotlin/taskmanager/notification/service/NotificationService.kt:53 | after deletion the group has no keys and every other group keeps its keys |
| Snowflake.SnowflakeIdUnique | taskmanager-notification/src/main/kotlin/taskmanager/notification/service/NotificationService.kt:81 | ids drawn at distinct points are distinct |
| Recipients.NewRecipient | ktask-notification/src/main/kotlin/ktask/notification/model/message/Recipient.kt:24-28 | construction succeeds exactly when the target and the name are not blank and the locale is valid; otherwise the message of the first failing check, in the order target, name, locale, is reported |
| Recipients.RecipientMessagesDistinct | ktask-notification/src/main/kotlin/ktask/notification/model/message/Recipient.kt:25-27 | the three messages differ, so the report identifies the failed check |
| ActionRequest.ActionToMap | ktask-notification/src/main/kotlin/ktask/notification/model/action/IActionRequest.kt:28-34 | exactly the keys GROUP_ID, TASK_ID and DESCRIPTION, mapped to the id, the task id and the description; DESCRIPTION is present as null when there is no description |
| EmailRequest.EmailToMap | taskmanager-notification/src/main/kotlin/taskmanager/notification/model/message/request/EmailRequest.kt:47-52 | the base map's keys plus CC and SUBJECT, which map to the copy list and the subject; every other base entry is kept |
| EmailRequest.VerifyRecipients | taskmanager-notification/src/main/kotlin/taskmanager/notification/model/message/request/EmailRequest.kt:60-71 | succeeds exactly when every recipient's target passes the validator; otherwise names the group and the target of the first invalid recipient in list order |
| EmailConsumer.VerifySettings | taskmanager-notification/src/main/kotlin/taskmanager/notification/consumer/message/task/EmailConsumer.kt:89-94 | accepts exactly a positive port with a host name, user name and password that are not blank; otherwise reports the message of the first failing check, in the order port, host, user name, password |
| EmailConsumer.SettingsMessagesDistinct | taskmanager-notification/src/main/kotlin/taskmanager/notification/consumer/message/task/EmailConsumer.kt:90-93 | the four messages differ pairwise |
| EmailConsumer.SubjectOf | taskmanager-notification/src/main/kotlin/taskmanager/notification/consumer/message/task/EmailConsumer.kt:72 | the subject is the SUBJECT parameter when it is a String, and null otherwise |
| EmailConsumer.Consume | taskmanager-notification/src/main/kotlin/taskmanager/notification/consumer/message/task/EmailConsumer.kt:30-84 | a message reaches `send` exactly when the settings pass the check and the mail library accepts the message; failed settings throw the check's message, and otherwise the library's failure is thrown; a sent message goes from the user name to the recipient's target, with the SUBJECT parameter as subject |
| NotificationService.ConsumerFor | taskmanager-notification/src/main/kotlin/taskmanager/notification/service/NotificationService.kt:58-66 | email requests go to the email consumer exactly when all recipients validate, and otherwise fail with the first invalid address; Slack requests go to the Slack consumer; any other request is unsupported |
| NotificationService.ResolveStartAt | taskmanager-notification/src/main/kotlin/taskmanager/notification/service/NotificationService.kt:71-74 | immediate exactly without a schedule; otherwise at the schedule's start, or at `now` when it has none |
| NotificationService.Schedule | taskmanager-notification/src/main/kotlin/taskmanager/notification/service/NotificationService.kt:43-110 | a kept group returns its keys after one skip line, scheduling nothing; otherwise an existing group is announced and deleted first; a rejected request then fails with the group already gone; an accepted one appends one task and one line per recipient in order and returns their keys |
| NotificationService.DispatchRecipients | taskmanager-notification/src/main/kotlin/taskmanager/notification/service/NotificationService.kt:76-107 | one fresh id, one dispatched task with the request's map, start and schedule, and one event line per recipient, in recipient order |
| NotificationService.PlannedKeysFollowRecipients | taskmanager-notification/src/main/kotlin/taskmanager/notification/service/NotificationService.kt:76-109 | one key per recipient, all in the request's group, pairwise distinct, the i-th carrying the i-th fresh id |
| NotificationService.GroupKeysAppend | taskmanager-notification/src/main/kotlin/taskmanager/notification/service/NotificationService.kt:85-97 | a group's keys in a concatenated store are those of each part, in order |
| NotificationService.GroupKeysOfOneGroup | taskmanager-notification/src/main/kotlin/taskmanager/notification/service/NotificationService.kt:85-97 | tasks all of one group are exactly that group's keys, and no other group's |
| NotificationService.FanOutOwnsGroup | taskmanager-notification/src/main/kotlin/taskmanager/notification/service/NotificationService.kt:47-109 | after a fan-out the group's keys are exactly the returned keys, so a replaced group is not merged, and every other group's keys are unchanged |
| NotificationService.AbsentGroupUntouched | taskmanager-notification/src/main/kotlin/taskmanager/notification/service/NotificationService.kt:47 | deleting a group that does not exist changes nothing |
| CoreSchedulerTest.BuildProperties | taskmanager-core/scheduler/src/test/kotlin/TaskSchedulerTest.kt:238-244 | exactly the keys GROUP_ID, TASK_ID and TASK_VALUE |
| CoreSchedulerTest.BuildPayload | taskmanager-core/scheduler/src/test/kotlin/TaskSchedulerTest.kt:197-210 | succeeds exactly when GROUP_ID holds a Uuid and TASK_ID and TASK_VALUE hold Strings; otherwise the message of the first missing or mistyped key, in the order GROUP_ID, TASK_ID, TASK_VALUE, is thrown; the payload carries those values and task type "test" |
| CoreSchedulerTest.BuildPayloadRoundTrip | taskmanager-core/scheduler/src/test/kotlin/TaskSchedulerTest.kt:197-244 | parsing the built properties gives back the three values with task type "test" |
| CoreSchedulerTest.BuildPropertiesCoversAccepted | taskmanager-core/scheduler/src/test/kotlin/TaskSchedulerTest.kt:197-244 | any accepted map contains the entries `buildProperties` builds from the parsed payload |
| CoreSchedulerTest.MisfireEntries | taskmanager-core/scheduler/src/test/kotlin/TaskSchedulerTest.kt:171-182 | one or two notes, the last always `Misfire_Handled`, preceded by `Regular_Execution` exactly when a next fire time exists |
| CoreSchedulerTest.TestResults.Consume | taskmanager-core/scheduler/src/test/kotlin/TaskSchedulerTest.kt:217-220 | exactly the payload's value is appended |
| CoreSchedulerTest.TestResults.MisfireExecute | taskmanager-core/scheduler/src/test/kotlin/TaskSchedulerTest.kt:171-182 | the misfire notes are appended to the results |
| BaseSchedulerTest.MisfireEntry | ktask-base/src/test/kotlin/TaskSchedulerTest.kt:139-150 | the note is `Misfire_Handled` exactly when there is no next fire time, and `Regular_Execution` when there is one |
| BaseSchedulerTest.MisfireVariantsDiffer | ktask-base/src/test/kotlin/TaskSchedulerTest.kt:139-150 | the two suites' misfire jobs record the same thing exactly when there is no next fire time; only the core one always records `Misfire_Handled` |
| BaseSchedulerTest.UniqueKeyOf | ktask-base/src/test/kotlin/TaskSchedulerTest.kt:155 | the stored String, `defaultKey` when absent or null, and a failed cast for any other class |
| BaseSchedulerTest.TestResults.MisfireExecute | ktask-base/src/test/kotlin/TaskSchedulerTest.kt:139-150 | a null context throws with nothing recorded; otherwise exactly one note is appended |
| BaseSchedulerTest.TestResults.SimpleTaskStart | ktask-base/src/test/kotlin/TaskSchedulerTest.kt:154-158 | the unique key is appended; a value of another class throws with nothing appended |
| ServerHealth.InitHealth | taskmanager-server/src/main/kotlin/taskmanager/server/health/HealthCheck.kt:43-58 | the health list is never empty |
| ServerHealth.InitHealthLayout | taskmanager-server/src/main/kotlin/taskmanager/server/health/HealthCheck.kt:43-58 | the initial entries come first, then the sub-checks' errors from application to database in order; after them the endpoint note appears exactly when there are no endpoints, the all-clear note exactly when nothing was gathered and endpoints exist, and nothing else follows the gathered errors |
| ServerHealth.CreateAllClear | taskmanager-server/src/main/kotlin/taskmanager/server/health/HealthCheck.kt:55-57 | from an empty list, the health list is exactly the all-clear note iff no sub-check reports an error and endpoints exist |
| ServerHealth.CreateAllClearCounterexample | taskmanager-server/src/main/kotlin/taskmanager/server/health/HealthCheck.kt:55-57 | a sub-check reporting the all-clear text itself yields the same list |
| ServerHealth.HealthCheck.constructor | taskmanager-server/src/main/kotlin/taskmanager/server/health/HealthCheck.kt:43-58 | the mutated health list is the one `InitHealth` describes |
| ServerHealth.HealthCheck.Create | taskmanager-server/src/main/kotlin/taskmanager/server/health/HealthCheck.kt:65-77 | a fresh check built from an empty list |
| SchedulerHealthCheck.SchedulerErrors | taskmanager-core/scheduler/src/main/kotlin/taskmanager/scheduler/service/SchedulerHealth.kt:26-30 | the given errors are kept; exactly one more, the not-started message, is added exactly when the scheduler is not started; pausing and the task count play no part |
| SchedulerHealthCheck.CreateReportsNotStarted | taskmanager-core/scheduler/src/main/kotlin/taskmanager/scheduler/service/SchedulerHealth.kt:37-44 | from an empty list, there are no errors exactly when the scheduler is started |
| SchedulerHealthCheck.SchedulerHealth.constructor | taskmanager-core/scheduler/src/main/kotlin/taskmanager/scheduler/service/SchedulerHealth.kt:26-30 | the mutated errors list is the one `SchedulerErrors` describes |
| SchedulerHealthCheck.SchedulerHealth.Create | taskmanager-core/scheduler/src/main/kotlin/taskmanager/scheduler/service/SchedulerHealth.kt:37-44 | a fresh check whose errors are empty exactly when the scheduler is started |
| ApplicationHealth.ApplicationErrors | ktask-base/src/main/kotlin/ktask/base/env/health/checks/ApplicationCheck.kt:30-38 | the given errors are kept; one message, naming the environment, is added exactly in PROD with the API schema enabled |
| ApplicationHealth.MessageNamesEnvironment | ktask-base/src/main/kotlin/ktask/base/env/health/checks/ApplicationCheck.kt:35 | the message contains the environment's name |
| ApplicationHealth.ApplicationCheck.constructor | ktask-base/src/main/kotlin/ktask/base/env/health/checks/ApplicationCheck.kt:21-38 | the mutated errors list is the one `ApplicationErrors` describes |
| ApplicationHealth.ApplicationCheck.FromSettings | ktask-base/src/main/kotlin/ktask/base/env/health/checks/ApplicationCheck.kt:25-28 | the API schema is enabled exactly when the runtime environment is one of the schema environments, and the errors start empty |
| SnowflakeHealth.SnowflakeInit | ktask-base/src/main/kotlin/ktask/base/env/health/checks/SnowflakeCheck.kt:30-45 | the id and the parsed data are both set or both null; both are set exactly when generation and parsing succeed, and then the errors are unchanged; otherwise exactly one error is appended, even when the id had already been assigned, and it is the failure message of the step that threw, with the generator's epoch and start time |
| SnowflakeHealth.FailureMessageNamesClock | ktask-base/src/main/kotlin/ktask/base/env/health/checks/SnowflakeCheck.kt:37-40 | the error message contains the timestamp epoch and the nano-time start |
| SnowflakeHealth.SnowflakeCheck.constructor | ktask-base/src/main/kotlin/ktask/base/env/health/checks/SnowflakeCheck.kt:23-46 | the fields after the try/catch are those `SnowflakeInit` describes |

## Left out

- The Quartz engine itself is not part of this model: trigger timing, misfire cadence, the
  job store, and the internals of `TaskDispatcher`, `TaskRetryHandler`, `RetryPolicy` and
  `TaskReScheduler`. The dispatcher is a list of scheduled tasks. The two handlers record the
  calls they receive and are assumed not to throw. The retry count key is a parameter.
- The literal values of the `GROUP_ID`, `TASK_ID` and `DESCRIPTION` keys of
  `AbsActionConsumer.Property` are not part of this model. The model uses those names as the
  strings.
- Concurrency is not modelled: `Dispatchers.IO`, the `AsyncScope` background queue (modelled
  as an append to a pending list) and the micrometer run-time timer.
- Date/time formatting in event lines (`LocalDateTime.current().formatted`) is an opaque
  `stamp` parameter. The clock is a parameter `now`.
- `SnowflakeFactory` is a counter rendered in decimal. Only the uniqueness of its ids is used.
  Snowflake parsing is a function parameter, and `SnowflakeData` is opaque.
- A `Uuid` is its text. `toUuid()` on a group name is a function parameter.
- Audit.AuditRepository.Create: the database-generated id is a counter-issued natural number,
  and the creation time is a parameter.
- Audit.SortNewestFirst: the database leaves the order of records with equal creation times
  open. The model fixes one order, with the later-inserted record first.
- Audit.Count: equals the length of `find` only while the match count fits an `Int`. Beyond that,
  `Long.toInt()` wraps, which `Audit.LongToInt` models.
- `SlackRequest`, `SlackConsumer`, the template rendering, CC list conversion (`CastUtils`),
  attachments and the SMTP I/O of `EmailConsumer.consume` are not part of this model. The
  Slack request's map and the base `IMessageRequest.toMap` are function parameters.
- EmailConsumer.Consume: the copy list and the attachments are left off the message. Failures thrown
  by template rendering, `addCc`, `attach`, `setFrom` and `addTo` are one parameter, `libraryFailure`,
  since the mail library is not part of this model.
- KTaskConsumer.TaskConsumer.Execute: the scheduler and job detail that `reschedule` receives are
  represented by the job's key (`JobRef`, its name and group).
- CoreTaskConsumer.Execute: the scheduler and job detail handed to the retry handler are
  represented the same way, by the job's key.
- `PhoneValidator`, the Ktor routes and the build and bootstrap files are not part of this model.
- ServerHealth.CreateAllClear: the "only if" direction needs the proviso that no sub-check
  reports the text "No Errors Detected." itself; `CreateAllClearCounterexample` shows why. The
  sub-checks' own logic, which reads settings, the runtime and the database, is not part of
  this model; their error lists are inputs.
- SnowflakeHealth.SnowflakeCheck.constructor: only failures that are `Exception`s are modelled.
  Another `Throwable` from the generator or the parser would escape the constructor.
- A mutable list shared by reference, such as `testResults` or a health check's `errors`, is
  modelled as a field of the object that owns it. Aliasing between the caller's list and the
  object's list is not captured.
- The `println` and `tracer` logging in consumers, tests and the listener is not modelled.
