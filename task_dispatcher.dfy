/**
 * The task store behind `TaskDispatcher`: the scheduling library persists it, and only the
 * queries the notification service uses are modelled, over a list of scheduled tasks.
 */
module TaskDispatch {
  import opened Wrappers
  import opened JobData
  import opened Scheduling

  /** `TaskKey`: a task's group and its id within the group. */
  datatype TaskKey = TaskKey(groupId: Uuid, taskId: string)

  /** One task handed to the scheduler with its consumer class, start, parameters and schedule. */
  datatype ScheduledTask = ScheduledTask(
    key: TaskKey,
    consumerClass: string,
    startAt: TaskStartAt,
    parameters: Properties,
    scheduleType: Option<ScheduleType>)

  /** The keys of the tasks of `groupId`, in store order. */
  function GroupKeys(tasks: seq<ScheduledTask>, groupId: Uuid): (keys: seq<TaskKey>)
    ensures forall k :: k in keys <==> exists t :: t in tasks && t.key == k && k.groupId == groupId
  {
    if tasks == [] then []
    else (if tasks[0].key.groupId == groupId then [tasks[0].key] else []) + GroupKeys(tasks[1..], groupId)
  }

  /** The tasks that do not belong to `groupId`, in store order. */
  function WithoutGroup(tasks: seq<ScheduledTask>, groupId: Uuid): (rest: seq<ScheduledTask>)
    ensures forall t :: t in rest <==> t in tasks && t.key.groupId != groupId
  {
    if tasks == [] then []
    else (if tasks[0].key.groupId != groupId then [tasks[0]] else []) + WithoutGroup(tasks[1..], groupId)
  }

  class TaskDispatcher {
    var tasks: seq<ScheduledTask>

    constructor ()
      ensures tasks == []
    {
      tasks := [];
    }

    /** `TaskDispatcher.groupExists`. */
    function GroupExists(groupId: Uuid): (exists_: bool)
      reads this
      ensures exists_ <==> exists t :: t in tasks && t.key.groupId == groupId
    {
      var keys := GroupKeys(tasks, groupId);
      assert keys != [] ==> keys[0] in keys;
      keys != []
    }

    /** `TaskDispatcher.groupsTaskKeys`. */
    function GroupTaskKeys(groupId: Uuid): seq<TaskKey>
      reads this
    {
      GroupKeys(tasks, groupId)
    }

    /** `TaskDispatcher.deleteGroup`: removes every task of the group; returns how many. */
    method DeleteGroup(groupId: Uuid) returns (count: nat)
      modifies this
      ensures tasks == WithoutGroup(old(tasks), groupId)
      ensures count == |old(tasks)| - |tasks|
    {
      var before := |tasks|;
      tasks := WithoutGroup(tasks, groupId);
      assert |tasks| <= before by { WithoutGroupShorter(old(tasks), groupId); }
      count := before - |tasks|;
    }

    /** `TaskDispatcher.send`: hands one task to the scheduler and returns its key. */
    method Send(task: ScheduledTask) returns (key: TaskKey)
      modifies this
      ensures tasks == old(tasks) + [task]
      ensures key == task.key
    {
      tasks := tasks + [task];
      key := task.key;
    }
  }

  lemma {:induction false} WithoutGroupShorter(tasks: seq<ScheduledTask>, groupId: Uuid)
    ensures |WithoutGroup(tasks, groupId)| <= |tasks|
  {
    if tasks != [] {
      WithoutGroupShorter(tasks[1..], groupId);
    }
  }

  /** After a group is deleted it no longer exists, and no other task is touched. */
  lemma {:induction false} DeletedGroupIsGone(tasks: seq<ScheduledTask>, groupId: Uuid)
    ensures GroupKeys(WithoutGroup(tasks, groupId), groupId) == []
    ensures forall g :: g != groupId ==> GroupKeys(WithoutGroup(tasks, groupId), g) == GroupKeys(tasks, g)
  {
    if tasks != [] {
      DeletedGroupIsGone(tasks[1..], groupId);
      var rest := WithoutGroup(tasks[1..], groupId);
      if tasks[0].key.groupId != groupId {
        assert WithoutGroup(tasks, groupId) == [tasks[0]] + rest;
        assert ([tasks[0]] + rest)[1..] == rest;
      } else {
        assert WithoutGroup(tasks, groupId) == rest;
      }
    }
  }
}
