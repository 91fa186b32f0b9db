/**
 * The state the create-task handler touches through its database client:
 * the `tasks` table and the log of the client calls that changed anything
 * (inserts and realtime channel activity), with the invariant that every
 * reachable state keeps.
 */
module TaskStore {

  datatype Status = Open | Completed

  /** A row of the `tasks` table; `id` is assigned by the store. */
  datatype Task = Task(id: nat, relatedId: string, taskType: string, dueAt: string, tenantId: string, status: Status)

  /** The `payload` of a `task.created` broadcast. */
  datatype TaskCreated = TaskCreated(taskId: nat, relatedId: string, taskType: string, dueAt: string)

  /** A realtime message: `type`, `event` and `payload`. */
  datatype Message = Message(kind: string, event: string, payload: TaskCreated)

  /** The client calls with an effect outside the handler, in the order they were made. */
  datatype Event =
    | Inserted(task: Task)
    | Subscribed(channel: string)
    | Sent(channel: string, message: Message)
    | ChannelRemoved(channel: string)

  datatype Store = Store(tasks: seq<Task>, log: seq<Event>, nextId: nat)

  /** The realtime channel on which task creations are announced. */
  const TasksChannel: string := "tasks"

  /** The broadcast that announces a stored task. */
  function Announcement(t: Task): Message
  {
    Message("broadcast", "task.created", TaskCreated(t.id, t.relatedId, t.taskType, t.dueAt))
  }

  /** The rows the log says were inserted, in insertion order. */
  function Inserts(log: seq<Event>): seq<Task>
  {
    if log == [] then []
    else (if log[0].Inserted? then [log[0].task] else []) + Inserts(log[1..])
  }

  lemma {:induction false} InsertsAppend(a: seq<Event>, b: seq<Event>)
    ensures Inserts(a + b) == Inserts(a) + Inserts(b)
  {
    if a == [] {
      assert a + b == b;
    } else {
      assert (a + b)[1..] == a[1..] + b;
      InsertsAppend(a[1..], b);
    }
  }

  lemma {:induction false} NoInserts(log: seq<Event>)
    requires forall i :: 0 <= i < |log| ==> !log[i].Inserted?
    ensures Inserts(log) == []
  {
    if log != [] {
      NoInserts(log[1..]);
    }
  }

  /** Ids are handed out in increasing order and all lie below the next one. */
  ghost predicate IdsIncreasing(s: Store)
  {
    && (forall i, j :: 0 <= i < j < |s.tasks| ==> s.tasks[i].id < s.tasks[j].id)
    && (forall i :: 0 <= i < |s.tasks| ==> s.tasks[i].id < s.nextId)
  }

  /** Every task belongs to the tenant of the application it refers to. */
  ghost predicate TenantsMatch(applications: map<string, string>, tasks: seq<Task>)
  {
    forall i :: 0 <= i < |tasks| ==>
      tasks[i].relatedId in applications && applications[tasks[i].relatedId] == tasks[i].tenantId
  }

  /**
   * The order of channel activity: a subscription directly follows an
   * insert, a send directly follows that subscription and announces that
   * inserted row, and a channel is removed directly after the send on it.
   */
  ghost predicate Protocol(log: seq<Event>)
  {
    && (forall i :: 0 <= i < |log| && log[i].Subscribed? ==>
          0 < i && log[i - 1].Inserted? && log[i].channel == TasksChannel)
    && (forall i :: 0 <= i < |log| && log[i].Sent? ==>
          1 < i && log[i - 1] == Subscribed(TasksChannel) && log[i - 2].Inserted?
          && log[i] == Sent(TasksChannel, Announcement(log[i - 2].task)))
    && (forall i :: 0 <= i < |log| && log[i].ChannelRemoved? ==>
          0 < i && log[i - 1].Sent? && log[i].channel == log[i - 1].channel)
  }

  ghost predicate Inv(applications: map<string, string>, s: Store)
  {
    && IdsIncreasing(s)
    && TenantsMatch(applications, s.tasks)
    && Inserts(s.log) == s.tasks
    && Protocol(s.log)
  }

  /**
   * The events of one creation: the insert, then the first `channelCalls` of
   * the subscription, the send and the channel removal.
   */
  function CreationEvents(t: Task, channelCalls: nat): (evs: seq<Event>)
    requires channelCalls <= 3
    ensures Inserts(evs) == [t]
    ensures Protocol(evs)
  {
    var evs := [Inserted(t), Subscribed(TasksChannel), Sent(TasksChannel, Announcement(t)), ChannelRemoved(TasksChannel)][..1 + channelCalls];
    NoInserts(evs[1..]);
    evs
  }

  /** The store after `t` is inserted and as many of its channel calls as ran. */
  function Created(s: Store, t: Task, channelCalls: nat): Store
    requires channelCalls <= 3
  {
    Store(s.tasks + [t], s.log + CreationEvents(t, channelCalls), s.nextId + 1)
  }

  /** One creation whose row carries the next id and its application's tenant keeps the invariant. */
  lemma CreatedPreservesInv(applications: map<string, string>, s: Store, t: Task, channelCalls: nat)
    requires Inv(applications, s)
    requires channelCalls <= 3
    requires t.id == s.nextId
    requires t.relatedId in applications && applications[t.relatedId] == t.tenantId
    ensures Inv(applications, Created(s, t, channelCalls))
  {
    InsertsAppend(s.log, CreationEvents(t, channelCalls));
    CreationKeepsProtocol(s.log, t, channelCalls);
  }

  lemma CreationKeepsProtocol(log: seq<Event>, t: Task, channelCalls: nat)
    requires Protocol(log)
    requires channelCalls <= 3
    ensures Protocol(log + CreationEvents(t, channelCalls))
  {
  }

  lemma {:induction false} InsertedIsListed(log: seq<Event>, k: nat)
    requires k < |log| && log[k].Inserted?
    ensures log[k].task in Inserts(log)
  {
    if k > 0 {
      InsertedIsListed(log[1..], k - 1);
    }
  }

  /**
   * No broadcast announces a task that was not stored first: every send in
   * the log goes to the tasks channel and announces a row inserted earlier
   * in the log and held by the store.
   */
  lemma SentAnnouncesStoredTask(applications: map<string, string>, s: Store, i: nat)
    requires Inv(applications, s)
    requires i < |s.log| && s.log[i].Sent?
    ensures s.log[i].channel == TasksChannel
    ensures exists j :: (0 <= j < i && s.log[j].Inserted?
                         && s.log[i].message == Announcement(s.log[j].task) && s.log[j].task in s.tasks)
  {
    InsertedIsListed(s.log, i - 2);
  }
}
