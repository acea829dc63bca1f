/**
 The keys that strego keeps in Redis, as one value, and what each broker operation does to them.
 Every pipeline and every Lua script is one atomic step.
 */
module Keys {
  import opened Wrappers
  import opened Tasks
  import opened Streams

  const SECOND := 1_000_000_000

  /** Go's `time.Unix()`: whole seconds, rounded down. */
  function Unix(t: int): int
  {
    t / SECOND
  }

  datatype Stats = Stats(enqueued: nat, completed: nat, scheduled: nat)
  {
    function Plus(enqueuedBy: nat, completedBy: nat, scheduledBy: nat): Stats
    {
      Stats(enqueued + enqueuedBy, completed + completedBy, scheduled + scheduledBy)
    }
  }

  /** The five keys of one queue. */
  datatype Queue = Queue(stream: Stream, dlq: Stream, scheduled: SortedSet, retry: SortedSet, stats: Stats)
  {
    function Enqueued(body: Body): Queue
    {
      this.(stream := stream.Add(body), stats := stats.Plus(1, 0, 0))
    }

    function Schedule(task: Task, score: int): Queue
    {
      this.(scheduled := scheduled[task := score], stats := stats.Plus(0, 0, 1))
    }

    /** XACK and XDEL of one message, as Ack, Retry and MoveToDLQ do. */
    function Remove(id: nat): Queue
    {
      this.(stream := stream.Ack(id).Del(id))
    }

    function Ack(id: nat): Queue
    {
      Remove(id).(stats := stats.Plus(0, 1, 0))
    }

    /** One turn of the inner loop of the script that promotes scheduled tasks. */
    function PromoteScheduled(member: Task): Queue
    {
      Enqueued(Data(member.WithState(Pending))).(scheduled := scheduled - {member})
    }

    /** One turn of the inner loop of the script that promotes retries. */
    function PromoteRetry(member: Task): Queue
    {
      Enqueued(Data(member.WithState(Pending))).(retry := retry - {member})
    }

    function RemoveReceived(task: Task): Queue
    {
      if task.Meta().streamMsgID.Some? then Remove(task.Meta().streamMsgID.value) else this
    }

    function Retry(task: Task, score: int): Queue
    {
      RemoveReceived(task).(retry := retry[task.WithState(TaskState.Retry) := score])
    }

    function MoveToDLQ(task: Task): Queue
    {
      RemoveReceived(task).(dlq := dlq.Add(Data(task.WithState(Dead))))
    }

    /** handleFailure: `task` is the task as the handler received it, `score` is when it would be due. */
    function Fail(task: Task, err: string, score: int): Queue
    {
      var failed := task.Failed(err);
      if failed.RetryCount() >= failed.RetryLimit() then MoveToDLQ(failed) else Retry(failed, score)
    }

    predicate InDLQ(taskID: string, id: nat)
    {
      dlq.HasTask(id) && dlq.entries[id].task.id == taskID
    }

    /** The message that RetryFromDLQ finds. */
    ghost predicate IsFirstInDLQ(taskID: string, id: nat)
    {
      InDLQ(taskID, id) && forall other :: InDLQ(taskID, other) ==> id <= other
    }

    /** The pipeline of RetryFromDLQ, for a message `id` in which it has found `task`; it may be gone by now. */
    function Redrive(id: nat, task: Task): Queue
    {
      this.(dlq := dlq.Del(id), stream := stream.Add(Data(task.Redriven())))
    }

    /** GetQueueInfo, when nobody acts between its reads. */
    function Info(): QueueInfo
    {
      InfoRead(this, this, this, this, this, this)
    }
  }

  const EMPTY_QUEUE := Queue(EMPTY_STREAM, EMPTY_STREAM, map[], map[], Stats(0, 0, 0))

  datatype QueueInfo = QueueInfo(
    pending: int, active: nat, scheduled: nat, retry: nat, dead: nat, completed: nat)

  /** GetQueueInfo: the queue as each of its six commands finds it, in their order. */
  function InfoRead(k0: Queue, k1: Queue, k2: Queue, k3: Queue, k4: Queue, k5: Queue): QueueInfo
  {
    var active := |k1.stream.pel|;
    var pending := |k0.stream.entries| - active;
    QueueInfo(if pending < 0 then 0 else pending, active, |k4.scheduled|, |k5.retry|, |k2.dlq.entries|,
              k3.stats.completed)
  }

  /**
   `known` is the set of queue names that the promotion scripts visit; `processed` and `unique` hold
   the keys that have not expired.
   */
  datatype Db = Db(queues: map<string, Queue>, known: set<string>, processed: set<string>, unique: map<string, string>)
  {
    function At(q: string): Queue
    {
      if q in queues then queues[q] else EMPTY_QUEUE
    }

    function Put(q: string, queue: Queue): Db
    {
      this.(queues := queues[q := queue])
    }

    function Known(q: string): Db
    {
      this.(known := known + {q})
    }
  }

  lemma PutTwice(db: Db, q: string, k: Queue, k': Queue)
    ensures db.Put(q, k).Put(q, k') == db.Put(q, k')
  {
    assert db.queues[q := k][q := k'] == db.queues[q := k'];
  }

  const EMPTY_DB := Db(map[], {}, {}, map[])

  function Publish(db: Db, q: string, task: Task): Db
  {
    db.Put(q, db.At(q).Enqueued(Data(task))).Known(q)
  }

  function Schedule(db: Db, task: Task, processAt: int): Db
  {
    db.Put(task.Queue(), db.At(task.Queue()).Schedule(task, Unix(processAt))).Known(task.Queue())
  }

  function Redrive(db: Db, q: string, id: nat, task: Task): Db
  {
    db.Put(q, db.At(q).Redrive(id, task)).(processed := db.processed - {task.id})
  }

  datatype EnqueueResult = Accepted(task: Task) | Duplicate

  predicate IsScheduled(task: Task, now: int)
  {
    task.options.Some? && task.options.value.processAt.Some? && task.options.value.processAt.value > now
  }

  function UniqueKey(task: Task): string
  {
    if task.options.Some? then task.options.value.uniqueKey else ""
  }

  /** What Client.Enqueue does once it is past its unique key. */
  function Submit(db: Db, task: Task, now: int): (Db, Task)
  {
    if IsScheduled(task, now) then
      var t := task.WithState(Scheduled);
      (Schedule(db, t, task.options.value.processAt.value), t)
    else
      var t := task.WithState(Pending);
      (Publish(db, t.Queue(), t), t)
  }

  /** Client.Enqueue, when nobody acts between SetUnique, which is its first step, and the rest. */
  function Enqueue(db: Db, task: Task, now: int): (Db, EnqueueResult)
  {
    var key := UniqueKey(task);
    if key != "" && key in db.unique then (db, Duplicate)
    else
      var (db', t) := Submit(if key != "" then db.(unique := db.unique[key := task.id]) else db, task, now);
      (db', Accepted(t))
  }
}
