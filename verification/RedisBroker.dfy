/** The broker: the operations of strego, each a pipeline or script of Redis commands. */
module RedisBroker {
  import opened Wrappers
  import opened Tasks
  import opened Streams
  import opened Keys
  import opened Redis
  import opened Promotion
  import opened DeadLetters
  import opened Sets

  const DEFAULT_BATCH_SIZE := 10

  class Broker {
    const client: Client
    const consumer: string
    const batchSize: int
    /** Whether nobody else uses Redis. */
    const alone: bool

    constructor (client: Client, consumer: string, batchSize: int, alone: bool)
      ensures this.client == client && this.consumer == consumer && this.alone == alone && this.batchSize > 0
      ensures this.batchSize == if batchSize > 0 then batchSize else 10
    {
      this.client := client;
      this.consumer := consumer;
      this.batchSize := if batchSize <= 0 then DEFAULT_BATCH_SIZE else batchSize;
      this.alone := alone;
    }

    /** Between two commands, others do what they like. Message IDs keep going up all the same. */
    method OthersAct()
      modifies client
      ensures forall q :: old(client.At(q)).dlq.WellFormed() ==> client.At(q).dlq.WellFormed()
      ensures alone ==> client.View() == old(client.View())
    {
      var db: Db := *;
      if !alone && forall q :: q in db.queues ==> db.queues[q].dlq.WellFormed() {
        client.queues, client.known, client.processed, client.unique := db.queues, db.known, db.processed, db.unique;
      }
    }

    method Publish(q: string, task: Task)
      modifies client
      ensures client.View() == Keys.Publish(old(client.View()), q, task)
      ensures client.known == old(client.known) + {q} && OnlyQueue(old(client.View()), client.View(), q)
      ensures var (k, k') := (old(client.At(q)), client.At(q));
              && Appended(k.stream, k'.stream, task) && k'.dlq == k.dlq && k'.scheduled == k.scheduled
              && k'.retry == k.retry && k'.stats == k.stats.(enqueued := k.stats.enqueued + 1)
    {
      client.XAdd(q, Data(task));
      client.SAdd(q);
      client.HIncrBy(q, 1, 0, 0);
    }

    method Schedule(task: Task, processAt: int)
      modifies client
      ensures client.View() == Keys.Schedule(old(client.View()), task, processAt)
      ensures var q := if task.options.Some? && task.options.value.queue != "" then task.options.value.queue
                       else "default";
              var (k, k') := (old(client.At(q)), client.At(q));
              && client.known == old(client.known) + {q} && OnlyQueue(old(client.View()), client.View(), q)
              && k'.scheduled == k.scheduled[task := processAt / 1_000_000_000] && k'.stream == k.stream
              && k'.dlq == k.dlq && k'.retry == k.retry && k'.stats == k.stats.(scheduled := k.stats.scheduled + 1)
    {
      var q := DEFAULT_QUEUE;
      if task.options.Some? && task.options.value.queue != "" {
        q := task.options.value.queue;
      }
      client.ZAddScheduled(q, task, Unix(processAt));
      client.SAdd(q);
      client.HIncrBy(q, 0, 0, 1);
    }

    method Ack(q: string, id: nat)
      modifies client
      ensures client.View() == old(client.View().Put(q, client.At(q).Ack(id)))
      ensures var (k, k') := (old(client.At(q)), client.At(q));
              && Removed(k.stream, k'.stream, {id}) && k'.dlq == k.dlq && k'.scheduled == k.scheduled
              && k'.retry == k.retry && k'.stats == k.stats.(completed := k.stats.completed + 1)
    {
      client.XAck(q, id);
      client.XDel(q, id);
      client.HIncrBy(q, 0, 1, 0);
    }

    method Retry(q: string, task: Task, now: int, delay: int)
      modifies client
      ensures client.View() == old(client.View().Put(q, client.At(q).Retry(task, Unix(now + delay))))
      ensures var (k, k') := (old(client.At(q)), client.At(q));
              var meta := if task.metadata.Some? then task.metadata.value else EMPTY_METADATA;
              var waiting := task.(metadata := Some(meta.(state := TaskState.Retry)));
              && Removed(k.stream, k'.stream, if meta.streamMsgID.Some? then {meta.streamMsgID.value} else {})
              && k'.retry == k.retry[waiting := (now + delay) / 1_000_000_000]
              && k'.dlq == k.dlq && k'.scheduled == k.scheduled && k'.stats == k.stats
    {
      var waiting := task.WithState(TaskState.Retry);
      if waiting.Meta().streamMsgID.Some? {
        client.XAck(q, waiting.Meta().streamMsgID.value);
        client.XDel(q, waiting.Meta().streamMsgID.value);
      }
      client.ZAddRetry(q, waiting, Unix(now + delay));
    }

    method MoveToDLQ(q: string, task: Task)
      modifies client
      ensures client.View() == old(client.View().Put(q, client.At(q).MoveToDLQ(task)))
      ensures var (k, k') := (old(client.At(q)), client.At(q));
              var meta := if task.metadata.Some? then task.metadata.value else EMPTY_METADATA;
              && Removed(k.stream, k'.stream, if meta.streamMsgID.Some? then {meta.streamMsgID.value} else {})
              && Appended(k.dlq, k'.dlq, task.(metadata := Some(meta.(state := Dead))))
              && k'.retry == k.retry && k'.scheduled == k.scheduled && k'.stats == k.stats
    {
      var dead := task.WithState(Dead);
      if dead.Meta().streamMsgID.Some? {
        client.XAck(q, dead.Meta().streamMsgID.value);
        client.XDel(q, dead.Meta().streamMsgID.value);
      }
      client.XAddDLQ(q, Data(dead));
    }

    /** EnqueueScheduled and EnqueueRetry. `less` is the order that Redis keeps among members with equal scores. */
    method EnqueueDue(src: Source, less: (Task, Task) -> bool, until: int, limit: int) returns (total: nat)
      requires IsOrder(less)
      modifies client
      ensures exists order :: IsOrdering(order, old(client.known)) &&
                              (client.View(), total) == Script(old(client.View()), src, less, order, Unix(until), limit)
    {
      var order := client.SMembers();
      total := 0;
      for i := 0 to |order|
        invariant var (db, count) := Script(client.View(), src, less, order[i..], Unix(until), limit);
                  (db, total + count) == Script(old(client.View()), src, less, order, Unix(until), limit)
      {
        var q := order[i];
        var members := Batch(client.At(q), src, less, Unix(until), limit);
        ghost var before, count := client.View(), total;
        for j := 0 to |members|
          invariant PromoteIn(client.View(), q, src, members[j..]) == PromoteIn(before, q, src, members)
          invariant total == count + j
        {
          ghost var db := client.View();
          client.ZRem(q, src.FromRetry?, members[j]);
          client.XAdd(q, Data(members[j].WithState(Pending)));
          client.HIncrBy(q, 1, 0, 0);
          total := total + 1;
          Turned(db, client.View(), q, src, members[j]);
          PromoteInStep(db, q, src, members[j..]);
          assert members[j..][1..] == members[j + 1..];
        }
        assert order[i..][1..] == order[i + 1..];
      }
    }

    method GetDLQ(q: string, limit: int) returns (tasks: seq<Task>)
      requires client.At(q).dlq.WellFormed()
      ensures AllTasks(client.At(q).dlq, Listed(client.At(q).dlq, limit))
      ensures tasks == TasksOf(client.At(q).dlq, Listed(client.At(q).dlq, limit))
      ensures var (dlq, ids) := (client.At(q).dlq, TaskIds(client.At(q).dlq, 0));
              && |tasks| == (if 0 < limit < |ids| then limit else |ids|)
              && forall i :: 0 <= i < |tasks| ==> ids[i] in dlq.entries && dlq.entries[ids[i]] == Data(tasks[i])
    {
      var dlq := client.At(q).dlq;
      var messages := Range(dlq, 0);
      tasks := [];
      ghost var ids: seq<nat> := [];
      TaskIdsListing(dlq, 0);
      ListedTasks(dlq, limit);
      hide Decodable, Range, Listed, TaskIds, TasksOf;
      for i := 0 to |messages|
        invariant ids == Decodable(dlq, messages[..i]) && AllTasks(dlq, ids) && tasks == TasksOf(dlq, ids)
        invariant |tasks| == |ids| && (0 < limit ==> |ids| <= limit)
      {
        if limit > 0 && |tasks| >= limit {
          ListedBy(dlq, limit, i);
          return;
        }
        DecodableSnoc(dlq, messages, i);
        if dlq.HasTask(messages[i]) {
          TasksOfSnoc(dlq, ids, messages[i]);
          tasks := tasks + [dlq.entries[messages[i]].task];
          ids := ids + [messages[i]];
        }
      }
      ListedBy(dlq, limit, |messages|);
    }

    /**
     RetryFromDLQ. Between its lookup and its pipeline others act, and the pipeline then moves what the lookup has
     found, whether or not it is still there; `middle` is what they leave.
     */
    method RetryFromDLQ(q: string, taskID: string) returns (result: RedriveResult, ghost middle: Db)
      requires client.At(q).dlq.WellFormed()
      modifies client
      ensures result == DeadLetters.RetryFromDLQ(old(client.View()), q, taskID).1
      ensures !result.Moved? ==> client.View() == old(client.View())
      ensures var dlq := old(client.At(q)).dlq;
              result.Moved? ==>
                AllTasks(dlq, TaskIds(dlq, 0)) && Find(dlq, TaskIds(dlq, 0), taskID).Some?
                && (var id := Find(dlq, TaskIds(dlq, 0), taskID).value;
                    client.View() == Keys.Redrive(middle, q, id, dlq.entries[id].task))
      ensures alone ==> middle == old(client.View())
      ensures alone ==> client.View() == DeadLetters.RetryFromDLQ(old(client.View()), q, taskID).0
      ensures client.At(q).dlq.WellFormed()
    {
      var dlq := client.At(q).dlq;
      var messages := Range(dlq, 0);
      middle := client.View();
      FindsFirst(client.View(), q, taskID);
      for i := 0 to |messages|
        invariant client.View() == old(client.View()) == middle
        invariant forall j :: 0 <= j < i ==> !IsTask(dlq, messages[j], taskID)
      {
        if dlq.HasTask(messages[i]) && dlq.entries[messages[i]].task.id == taskID {
          FirstFound(client.View(), q, taskID, i);
          var task := dlq.entries[messages[i]].task;
          if task.metadata.None? { return Panicked, middle; }
          hide TaskIds, Find, Stream.WellFormed;
          OthersAct();
          middle := client.View();
          client.XDelDLQ(q, messages[i]);
          client.XAdd(q, Data(task.Redriven()));
          client.DelProcessed(taskID);
          PipelineRedrives(middle, q, messages[i], task);
          return Moved, middle;
        }
      }
      NoneFound(client.View(), q, taskID);
      return NotFound, middle;
    }

    method SetProcessed(taskID: string) returns (ok: bool)
      modifies client
      ensures ok == (taskID !in old(client.processed))
      ensures client.View() == old(client.View().(processed := client.processed + {taskID}))
    {
      ok := client.SetNXProcessed(taskID);
    }

    method SetUnique(key: string, taskID: string) returns (ok: bool)
      modifies client
      ensures ok == (key !in old(client.unique))
      ensures var unique := old(client.unique);
              client.View() == old(client.View()).(unique := if key in unique then unique else unique[key := taskID])
    {
      ok := client.SetNXUnique(key, taskID);
    }

    /**
     GetQueueInfo: six commands, and others act between them; `seen` is what each of them finds. Alone, if every
     pending entry has its message, pending counts the messages that nobody has, and nothing is ever reported as
     pending below zero.
     */
    method GetQueueInfo(q: string) returns (info: QueueInfo, ghost seen: seq<Queue>)
      modifies client
      ensures |seen| == 6 && seen[0] == old(client.At(q))
      ensures info == InfoRead(seen[0], seen[1], seen[2], seen[3], seen[4], seen[5])
      ensures info.active == |seen[1].stream.pel| && info.dead == |seen[2].dlq.entries|
      ensures info.completed == seen[3].stats.completed
      ensures info.scheduled == |seen[4].scheduled| && info.retry == |seen[5].retry|
      ensures var unread := |seen[0].stream.entries| - |seen[1].stream.pel|;
              info.pending == if unread < 0 then 0 else unread
      ensures alone ==> forall k :: k in seen ==> k == old(client.At(q))
      ensures info.pending >= 0
      ensures alone ==> client.View() == old(client.View()) && info == client.At(q).Info()
      ensures var stream := old(client.At(q)).stream;
              alone && stream.pel.Keys <= stream.entries.Keys
              ==> info.pending == |stream.entries.Keys - stream.pel.Keys|
      ensures var stream := old(client.At(q)).stream;
              var larger := if |stream.pel| > |stream.entries| then |stream.pel| else |stream.entries|;
              alone ==> info.active == |stream.pel| && info.pending + info.active == larger
    {
      hide InfoRead, Queue.Info;
      ghost var k0 := client.At(q);
      InfoMeans(k0);
      var streamLen := |client.At(q).stream.entries|;
      OthersAct();
      ghost var k1 := client.At(q);
      var active := |client.At(q).stream.pel|;
      var pending := streamLen - active;
      if pending < 0 { pending := 0; }
      OthersAct();
      ghost var k2 := client.At(q);
      var dead := |client.At(q).dlq.entries|;
      OthersAct();
      ghost var k3 := client.At(q);
      var completed := client.At(q).stats.completed;
      OthersAct();
      ghost var k4 := client.At(q);
      var scheduled := |client.At(q).scheduled|;
      OthersAct();
      var retry := |client.At(q).retry|;
      seen := [k0, k1, k2, k3, k4, client.At(q)];
      info := QueueInfo(pending, active, scheduled, retry, dead, completed);
      InfoReads(seen, info);
    }
  }

  lemma ListedTasks(dlq: Stream, limit: int)
    requires dlq.WellFormed()
    ensures AllTasks(dlq, Listed(dlq, limit))
    ensures var (ids, tasks) := (TaskIds(dlq, 0), TasksOf(dlq, Listed(dlq, limit)));
            && |tasks| == (if 0 < limit < |ids| then limit else |ids|)
            && forall i :: 0 <= i < |tasks| ==> ids[i] in dlq.entries && dlq.entries[ids[i]] == Data(tasks[i])
  {
    ListedPrefix(dlq, limit);
    TasksOfAt(dlq, Listed(dlq, limit));
  }

  /** The task is the new last message. */
  ghost predicate Appended(stream: Stream, stream': Stream, task: Task)
  {
    && stream'.entries == stream.entries[stream.next := Data(task)] && stream'.next == stream.next + 1
    && stream'.cursor == stream.cursor && stream'.pel == stream.pel
  }

  /** These messages are gone, from the stream and from the pending entries. */
  ghost predicate Removed(stream: Stream, stream': Stream, ids: set<nat>)
  {
    && stream'.entries == stream.entries - ids && stream'.pel == stream.pel - ids
    && stream'.next == stream.next && stream'.cursor == stream.cursor
  }

  /** Nothing has changed but the keys of one queue and the set of queue names. */
  ghost predicate OnlyQueue(db: Db, db': Db, q: string)
  {
    && (forall other :: other != q ==> db'.At(other) == db.At(other))
    && db'.processed == db.processed && db'.unique == db.unique
  }

  lemma InfoReads(seen: seq<Queue>, info: QueueInfo)
    requires |seen| == 6 && info.active == |seen[1].stream.pel| && info.dead == |seen[2].dlq.entries|
    requires info.completed == seen[3].stats.completed
    requires info.scheduled == |seen[4].scheduled| && info.retry == |seen[5].retry|
    requires var unread := |seen[0].stream.entries| - |seen[1].stream.pel|;
             info.pending == if unread < 0 then 0 else unread
    ensures info == InfoRead(seen[0], seen[1], seen[2], seen[3], seen[4], seen[5])
    ensures (forall k :: k in seen ==> k == seen[0]) ==> info == seen[0].Info()
  {
    assert forall i :: 0 <= i < 6 ==> seen[i] in seen;
  }

  lemma InfoMeans(k: Queue)
    ensures var larger := if |k.stream.pel| > |k.stream.entries| then |k.stream.pel| else |k.stream.entries|;
            k.Info().active == |k.stream.pel| && k.Info().pending + k.Info().active == larger
    ensures k.stream.pel.Keys <= k.stream.entries.Keys
            ==> k.Info().pending == |k.stream.entries.Keys - k.stream.pel.Keys|
  {
    if k.stream.pel.Keys <= k.stream.entries.Keys { SubsetSize(k.stream.pel.Keys, k.stream.entries.Keys); }
  }

  lemma PipelineRedrives(db: Db, q: string, id: nat, task: Task)
    ensures var k := db.At(q);
            var db1 := db.Put(q, k.(dlq := k.dlq.Del(id)));
            var db2 := db1.Put(q, db1.At(q).(stream := db1.At(q).stream.Add(Data(task.Redriven()))));
            db2.(processed := db2.processed - {task.id}) == Keys.Redrive(db, q, id, task)
    ensures db.At(q).dlq.WellFormed() ==> Keys.Redrive(db, q, id, task).At(q).dlq.WellFormed()
  {
    var k := db.At(q);
    PutTwice(db, q, k.(dlq := k.dlq.Del(id)), k.Redrive(id, task));
  }

  lemma FirstFound(db: Db, q: string, taskID: string, i: nat)
    requires db.At(q).dlq.WellFormed()
    requires var messages := Range(db.At(q).dlq, 0);
             i < |messages| && IsTask(db.At(q).dlq, messages[i], taskID)
             && forall j :: 0 <= j < i ==> !IsTask(db.At(q).dlq, messages[j], taskID)
    ensures AllTasks(db.At(q).dlq, TaskIds(db.At(q).dlq, 0))
    ensures Find(db.At(q).dlq, TaskIds(db.At(q).dlq, 0), taskID) == Some(Range(db.At(q).dlq, 0)[i])
  {
    var (dlq, messages) := (db.At(q).dlq, Range(db.At(q).dlq, 0));
    FindsFirst(db, q, taskID);
    assert db.At(q).InDLQ(taskID, messages[i]);
    var id := Find(dlq, TaskIds(dlq, 0), taskID).value;
    RangeComplete(dlq, 0, id);
    var j :| 0 <= j < |messages| && messages[j] == id;
    assert i <= j;
  }

  lemma NoneFound(db: Db, q: string, taskID: string)
    requires db.At(q).dlq.WellFormed()
    requires forall j :: 0 <= j < |Range(db.At(q).dlq, 0)| ==> !IsTask(db.At(q).dlq, Range(db.At(q).dlq, 0)[j], taskID)
    ensures AllTasks(db.At(q).dlq, TaskIds(db.At(q).dlq, 0))
    ensures Find(db.At(q).dlq, TaskIds(db.At(q).dlq, 0), taskID) == None
  {
    var dlq := db.At(q).dlq;
    FindsFirst(db, q, taskID);
    var found := Find(dlq, TaskIds(dlq, 0), taskID);
    if found.Some? { RangeComplete(dlq, 0, found.value); }
  }

  /** ZREM, XADD and HINCRBY together are one turn of the script's inner loop. */
  lemma Turned(db: Db, db': Db, q: string, src: Source, m: Task)
    requires var k := db.At(q);
             var k1 := if src.FromRetry? then k.(retry := k.retry - {m}) else k.(scheduled := k.scheduled - {m});
             var k2 := k1.(stream := k1.stream.Add(Data(m.WithState(Pending))));
             db' == db.Put(q, k1).Put(q, k2).Put(q, k2.(stats := k2.stats.Plus(1, 0, 0)))
    ensures db' == db.Put(q, Promote(db.At(q), src, m))
  {
    var k := db.At(q);
    var k1 := if src.FromRetry? then k.(retry := k.retry - {m}) else k.(scheduled := k.scheduled - {m});
    var k2 := k1.(stream := k1.stream.Add(Data(m.WithState(Pending))));
    PutTwice(db, q, k1, k2);
    PutTwice(db, q, k2, k2.(stats := k2.stats.Plus(1, 0, 0)));
  }

  ghost predicate IsOrdering(order: seq<string>, names: set<string>)
  {
    Distinct(order) && Elements(order) == names
  }
}
