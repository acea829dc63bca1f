/** The two callers of the broker besides the workers: the client that enqueues tasks, and the dashboard. */
module Clients {
  import opened Wrappers
  import opened Tasks
  import opened Streams
  import opened Keys
  import opened Redis
  import opened RedisBroker
  import opened DeadLetters
  import opened Sets

  class TaskClient {
    const broker: Broker
    const client: Client

    constructor (broker: Broker)
      ensures this.broker == broker && this.client == broker.client
    {
      this.broker, this.client := broker, broker.client;
    }

    /**
     Enqueue. Others act between SetUnique and the rest; `middle` is what they leave. A task without metadata would
     make it dereference a nil pointer.
     */
    method Enqueue(task: Task, now: int) returns (result: EnqueueResult, ghost middle: Db)
      requires client == broker.client && task.metadata.Some?
      modifies client
      ensures result.Duplicate? <==> UniqueKey(task) != "" && UniqueKey(task) in old(client.unique)
      ensures result.Duplicate? ==> client.View() == old(client.View())
      ensures result.Accepted? ==> (client.View(), result.task) == Submit(middle, task, now)
      ensures broker.alone ==> (client.View(), result) == Keys.Enqueue(old(client.View()), task, now)
      ensures var later := task.options.Some? && task.options.value.processAt.Some?
                           && task.options.value.processAt.value > now;
              var q := if task.options.Some? && task.options.value.queue != "" then task.options.value.queue
                       else "default";
              var (k, k') := (middle.At(q), client.At(q));
              result.Accepted? ==>
                && result.task == task.(metadata := Some(
                     task.metadata.value.(state := if later then TaskState.Scheduled else Pending)))
                && (later ==>
                      var p := task.options.value.processAt.value;
                      k'.stream == k.stream && k'.scheduled == k.scheduled[result.task := p / 1_000_000_000])
                && (!later ==> Appended(k.stream, k'.stream, result.task) && k'.scheduled == k.scheduled)
                && k'.dlq == k.dlq && k'.retry == k.retry && client.known == middle.known + {q}
                && OnlyQueue(middle, client.View(), q)
      ensures task.options.Some? && task.options.value.uniqueKey != "" ==>
                (result.Duplicate? <==> task.options.value.uniqueKey in old(client.unique))
    {
      middle := client.View();
      if task.options.Some? && task.options.value.uniqueKey != "" {
        var ok := broker.SetUnique(task.options.value.uniqueKey, task.id);
        if !ok { return Duplicate, middle; }
      }
      broker.OthersAct();
      middle := client.View();
      var isScheduled := task.options.Some? && task.options.value.processAt.Some?
          && task.options.value.processAt.value > now;
      var q := DEFAULT_QUEUE;
      if task.options.Some? && task.options.value.queue != "" {
        q := task.options.value.queue;
      }
      if isScheduled {
        var t := task.WithState(Scheduled);
        broker.Schedule(t, t.options.value.processAt.value);
        result := Accepted(t);
      } else {
        var t := task.WithState(Pending);
        broker.Publish(q, t);
        result := Accepted(t);
      }
    }
  }

  const RETRY_ALL_LIMIT := 1000

  class Dashboard {
    const broker: Broker
    const client: Client

    constructor (broker: Broker)
      ensures this.broker == broker && this.client == broker.client
    {
      this.broker, this.client := broker, broker.client;
    }

    /**
     handleRetryAllDead: the tasks of a snapshot are looked up again, one by one, by their task IDs, while others act.
     Alone, and without tasks that lack metadata, it moves exactly the tasks of the snapshot, in order.
     */
    method RetryAllDead(q: string) returns (retried: nat, panicked: bool)
      requires client == broker.client && client.At(q).dlq.WellFormed()
      modifies client
      ensures retried <= |Listed(old(client.At(q)).dlq, RETRY_ALL_LIMIT)| <= 1000
      ensures var dlq := old(client.At(q)).dlq;
              var ids := Listed(dlq, RETRY_ALL_LIMIT);
              broker.alone ==>
                && retried == Redrivable(dlq, ids)
                && client.View() == RedriveAll(old(client.View()), q, ids[..retried])
                && (panicked <==> retried < |ids|)
    {
      ghost var db, dlq := client.View(), client.At(q).dlq;
      ghost var ids := Listed(dlq, RETRY_ALL_LIMIT);
      var tasks := broker.GetDLQ(q, RETRY_ALL_LIMIT);
      retried := 0;
      StartRetrying(db, q);
      hide Listed, TaskIds, Redrivable, RemainsFrom, RedriveAll, TasksOf, AllTasks, Distinct,
        DeadLetters.RetryFromDLQ, Stream.WellFormed, HasMetadata, Find;
      for i := 0 to |tasks|
        invariant retried <= i && client.At(q).dlq.WellFormed()
        invariant broker.alone ==> client.View() == RedriveAll(db, q, ids[..i])
        invariant broker.alone ==> retried == i <= Redrivable(dlq, ids) && RemainsFrom(dlq, client.At(q).dlq, i)
      {
        var result := RetryOne(q, tasks[i].id, db, i);
        if result.Panicked? { return retried, true; }
        if result.Moved? { retried := retried + 1; }
      }
      assert ids[..|ids|] == ids;
      panicked := false;
    }

    /** One turn of the loop, for task number `i` of the snapshot, which was taken from the keys `db`. */
    method RetryOne(q: string, taskID: string, ghost db: Db, ghost i: nat) returns (result: RedriveResult)
      requires client == broker.client && client.At(q).dlq.WellFormed() && db.At(q).dlq.WellFormed()
      requires var (dlq, ids) := (db.At(q).dlq, Listed(db.At(q).dlq, RETRY_ALL_LIMIT));
               && i < |ids| && dlq.HasTask(ids[i]) && taskID == dlq.entries[ids[i]].task.id
               && (broker.alone ==>
                     client.View() == RedriveAll(db, q, ids[..i]) && i <= Redrivable(dlq, ids)
                     && RemainsFrom(dlq, client.At(q).dlq, i))
      modifies client
      ensures client.At(q).dlq.WellFormed()
      ensures var (dlq, ids) := (db.At(q).dlq, Listed(db.At(q).dlq, RETRY_ALL_LIMIT));
              broker.alone ==>
                if i < Redrivable(dlq, ids) then
                  && result.Moved? && client.View() == RedriveAll(db, q, ids[..i + 1])
                  && RemainsFrom(dlq, client.At(q).dlq, i + 1)
                else result.Panicked? && client.View() == old(client.View())
    {
      hide Listed, TaskIds, Redrivable, RemainsFrom, RedriveAll, TasksOf, AllTasks, Distinct,
        DeadLetters.RetryFromDLQ, Stream.WellFormed, HasMetadata, Find;
      broker.OthersAct();
      if broker.alone {
        RetryTurn(db, client.View(), q, RETRY_ALL_LIMIT, i);
        RedrivableReaches(db.At(q).dlq, Listed(db.At(q).dlq, RETRY_ALL_LIMIT), i);
      }
      ghost var middle;
      result, middle := broker.RetryFromDLQ(q, taskID);
    }
  }

  lemma StartRetrying(db: Db, q: string)
    requires db.At(q).dlq.WellFormed()
    ensures var (dlq, ids) := (db.At(q).dlq, Listed(db.At(q).dlq, RETRY_ALL_LIMIT));
            && |ids| <= 1000 && RedriveAll(db, q, ids[..0]) == db && RemainsFrom(dlq, dlq, 0) && AllTasks(dlq, ids)
            && |TasksOf(dlq, ids)| == |ids|
            && (forall i :: 0 <= i < |ids| ==>
                  dlq.HasTask(ids[i]) && TasksOf(dlq, ids)[i] == dlq.entries[ids[i]].task)
  {
    var (dlq, ids) := (db.At(q).dlq, Listed(db.At(q).dlq, RETRY_ALL_LIMIT));
    ListedPrefix(dlq, RETRY_ALL_LIMIT);
    TasksOfAt(dlq, ids);
    assert ids[..0] == [] && RedriveAll(db, q, []) == db;
  }
}
