/** What a worker does with its messages, as a specification: single turns, and traces of whole loops. */
module Turns {
  import opened Wrappers
  import opened Tasks
  import opened Streams
  import opened Keys
  import opened Lifecycle
  import opened Redis
  import opened Backoff

  /**
   What became of a message. `Broken` carries the time at which the handler was started, its error, the time at
   which the failure was handled, and the delay of the retry, should there be one.
   */
  datatype Outcome = Discarded | Ignored | Finished | Broken(now: int, err: string, failedAt: int, delay: int)

  predicate IsOutcome(db: Db, body: Body, reply: GateReply, outcome: Outcome)
  {
    match body
    case Data(task) =>
      if PassGate(db.processed, task, reply).0 then outcome.Finished? || outcome.Broken? else outcome.Ignored?
    case _ => outcome.Discarded?
  }

  /** The keys once a message has been through the gate. */
  function Gated(db: Db, body: Body, reply: GateReply): Db
  {
    match body
    case Data(task) => db.(processed := PassGate(db.processed, task, reply).1)
    case _ => db
  }

  /** The keys once the outcome of message `id` of queue `q` has been written. */
  function Concluded(db: Db, q: string, id: nat, body: Body, outcome: Outcome, worker: string): Db
  {
    match body
    case Data(task) =>
      (match outcome
       case Broken(now, err, failedAt, delay) =>
         var started := task.Received(id).Started(now, worker);
         db.Put(task.Queue(), db.At(task.Queue()).Fail(started, err, Unix(failedAt + delay)))
       case _ => db.Put(q, db.At(q).Ack(id)))
    case _ => PutStream(db, q, db.At(q).stream.Ack(id))
  }

  /** processMessage as a whole, when nobody else acts meanwhile. */
  function Settled(db: Db, q: string, id: nat, body: Body, reply: GateReply, outcome: Outcome, worker: string): Db
  {
    Concluded(Gated(db, body, reply), q, id, body, outcome, worker)
  }

  /** Every message that carries a task is on that task's own queue. */
  predicate OnOwnQueue(db: Db)
  {
    forall q :: q in db.queues ==>
      forall id :: id in db.queues[q].stream.entries ==> BelongsTo(Message(id, db.queues[q].stream.entries[id]), q)
  }

  predicate BelongsTo(message: Message, q: string)
  {
    message.body.Data? ==> message.body.task.Queue() == q
  }

  /**
   Which pending messages a loop works off: those of one consumer, those of the whole group, or only some that have
   been delivered already.
   */
  datatype Scope = ForConsumer(consumer: string) | ForGroup | ForBatch(batch: map<string, set<nat>>)

  function GuardedIn(q: string, stream: Stream, scope: Scope): set<nat>
  {
    match scope
    case ForConsumer(consumer) => Own(stream, consumer)
    case ForGroup => stream.pel.Keys
    case ForBatch(batch) => if q in batch then stream.pel.Keys * batch[q] else {}
  }

  function Guarded(db: Db, q: string, scope: Scope): set<nat>
  {
    GuardedIn(q, db.At(q).stream, scope)
  }

  /** No message has become pending in this scope, on any queue. */
  predicate Shrinks(db: Db, db': Db, scope: Scope)
  {
    forall q :: q in db'.queues ==> Guarded(db', q, scope) <= Guarded(db, q, scope)
  }

  /** What others may do meanwhile: anything, but for deliveries into this scope and messages on a wrong queue. */
  predicate MayFollow(db: Db, db': Db, scope: Scope)
  {
    (OnOwnQueue(db) ==> OnOwnQueue(db')) && Shrinks(db, db', scope)
  }

  /** The messages `ids` of queue `q` are no longer pending in this scope, and no others have become so. */
  predicate Cleared(db: Db, db': Db, q: string, ids: set<nat>, scope: Scope)
  {
    Shrinks(db, db', scope) && Guarded(db', q, scope) !! ids
  }

  /** The settings of a worker: its ID, the task types that it has handlers for, and its backoff. */
  datatype Config = Config(worker: string, handled: set<string>, retryBase: int, retryMax: int, huge: int)

  /** One run of a handler: the task that it was given, and its error, if any. */
  datatype HandlerRun = HandlerRun(task: Task, answer: Option<string>)

  /** What a handler sees of the task in message `id`. */
  predicate Sees(task: Task, id: nat, worker: string, seen: Task)
  {
    && seen.SameWork(task) && seen.metadata.Some?
    && (var meta := seen.metadata.value;
        && meta.state == Active && meta.workerID == worker && meta.streamMsgID == Some(id) && meta.startedAt.Some?
        && meta.retryCount == task.RetryCount() && meta.lastError == task.Meta().lastError)
  }

  /** The idempotency gate stops the task: a first attempt whose processed key was set already. */
  predicate IsStopped(db: Db, task: Task, reply: GateReply)
  {
    task.RetryCount() == 0 && reply.Replied? && task.id in db.processed
  }

  /**
   A handler runs exactly for a task that is not stopped and whose type has one. It is then its answer that decides
   between success and failure; without a handler it is a failure.
   */
  predicate Decides(db: Db, message: Message, reply: GateReply, runs: seq<HandlerRun>, outcome: Outcome, c: Config)
  {
    match message.body
    case Data(task) =>
      if IsStopped(db, task, reply) then outcome.Ignored? && runs == []
      else if task.kind !in c.handled then
        runs == [] && outcome.Broken? && outcome.err == "no handler for task type: " + task.kind
      else
        && |runs| == 1 && Sees(task, message.id, c.worker, runs[0].task)
        && (match runs[0].answer
            case None => outcome.Finished?
            case Some(err) =>
              outcome.Broken? && outcome.err == err && runs[0].task.Meta().startedAt == Some(outcome.now))
    case _ => outcome.Discarded? && runs == []
  }

  /** The turn of one message, with the delay of calculateBackoff after a failure. */
  predicate IsTurn(db: Db, message: Message, reply: GateReply, runs: seq<HandlerRun>, outcome: Outcome, c: Config)
  {
    && Decides(db, message, reply, runs, outcome, c)
    && (message.body.Data? && outcome.Broken? ==>
          outcome.delay == Delay(c.retryBase, c.retryMax, ToInt32(message.body.task.RetryCount() + 1), c.huge))
  }

  lemma TurnHasOutcome(db: Db, message: Message, reply: GateReply, runs: seq<HandlerRun>, outcome: Outcome, c: Config)
    requires IsTurn(db, message, reply, runs, outcome, c)
    ensures IsOutcome(db, message.body, reply, outcome)
  {
  }

  lemma TurnMeans(db: Db, message: Message, reply: GateReply, runs: seq<HandlerRun>, outcome: Outcome, c: Config)
    requires IsTurn(db, message, reply, runs, outcome, c)
    ensures !message.body.Data? ==> runs == [] && outcome.Discarded?
    ensures message.body.Data? ==>
              var task := message.body.task;
              var stopped := task.RetryCount() == 0 && reply.Replied? && task.id in db.processed;
              && |runs| == (if !stopped && task.kind in c.handled then 1 else 0)
              && (outcome.Ignored? <==> stopped)
              && (outcome.Finished? <==> |runs| == 1 && runs[0].answer.None?)
              && (outcome.Broken? ==> outcome.err == (if |runs| == 1 && runs[0].answer.Some? then runs[0].answer.value
                                                      else "no handler for task type: " + task.kind))
  {
    hide Delay;
  }

  /** A message in the hands of the worker; `first` tells a first delivery from a redelivery. */
  datatype Item = Item(queue: string, message: Message, first: bool)

  function Items(q: string, messages: seq<Message>, first: bool): seq<Item>
  {
    seq(|messages|, i requires 0 <= i < |messages| => Item(q, messages[i], first))
  }

  /**
   What happens in a loop: reads of new messages, of the consumer's own pending ones and of stale ones; what others
   do in between; and the turns of the messages, in the order in which they were read. `middle` is what others leave
   while the handler runs.
   */
  datatype Event =
    | ReadNew(queue: string, consumer: string, count: nat, messages: seq<Message>)
    | ReadOwn(queue: string, consumer: string, count: nat, messages: seq<Message>)
    | Claim(queue: string, consumer: string, messages: seq<Message>, gone: set<nat>)
    | Others(after: Db)
    | Turn(reply: GateReply, middle: Db, runs: seq<HandlerRun>, outcome: Outcome)

  /** The event can happen to these keys while the worker holds these messages. */
  ghost predicate Possible(db: Db, held: seq<Item>, e: Event, c: Config)
  {
    match e
    case ReadNew(q, consumer, count, messages) =>
      IsReply(db.At(q).stream, Undelivered(db.At(q).stream), messages)
      && AreFirst(Undelivered(db.At(q).stream), count, messages)
    case ReadOwn(q, consumer, count, messages) =>
      held == [] && IsReply(db.At(q).stream, Own(db.At(q).stream, consumer), messages)
      && AreFirst(Own(db.At(q).stream, consumer), count, messages)
    case Claim(q, consumer, messages, gone) =>
      held == [] && IsReply(db.At(q).stream, Claimable(db.At(q).stream), messages)
      && gone !! db.At(q).stream.entries.Keys
    case Others(_) => true
    case Turn(reply, _, runs, outcome) => held != [] && IsTurn(db, held[0].message, reply, runs, outcome, c)
  }

  function Claimable(stream: Stream): set<nat>
  {
    set id | id in stream.pel && id in stream.entries
  }

  /** The keys after the event. */
  function NextDb(db: Db, held: seq<Item>, e: Event, c: Config): Db
  {
    match e
    case ReadNew(q, consumer, _, messages) =>
      db.Put(q, db.At(q).(stream := ReadAll(db.At(q).stream, messages, consumer)))
    case ReadOwn(q, consumer, _, messages) => db.Put(q, Redelivered(db.At(q), Redis.Ids(messages), consumer))
    case Claim(q, consumer, messages, gone) =>
      db.Put(q, Redelivered(Dropped(db.At(q), gone), Redis.Ids(messages), consumer))
    case Others(after) => after
    case Turn(_, middle, _, outcome) =>
      if held == [] then db
      else Concluded(middle, held[0].queue, held[0].message.id, held[0].message.body, outcome, c.worker)
  }

  /** The messages that the worker holds after the event. */
  function NextHeld(held: seq<Item>, e: Event): seq<Item>
  {
    match e
    case ReadNew(q, _, _, messages) => held + Items(q, messages, true)
    case ReadOwn(q, _, _, messages) => held + Items(q, messages, false)
    case Claim(q, _, messages, _) => held + Items(q, messages, false)
    case Others(_) => held
    case Turn(_, _, _, _) => if held == [] then [] else held[1..]
  }

  /** Others do nothing. */
  predicate IsQuiet(db: Db, held: seq<Item>, e: Event)
  {
    match e
    case Others(after) => after == db
    case Turn(reply, middle, _, _) => held != [] ==> middle == Gated(db, held[0].message.body, reply)
    case _ => true
  }

  /** These events, one after the other, lead from the first keys and messages to the last ones. */
  ghost predicate Traced(
      db: Db, held: seq<Item>, trace: seq<Event>, db': Db, held': seq<Item>, c: Config, alone: bool)
    decreases |trace|
  {
    if trace == [] then db == db' && held == held'
    else
      && Possible(db, held, trace[0], c) && (alone ==> IsQuiet(db, held, trace[0]))
      && Traced(NextDb(db, held, trace[0], c), NextHeld(held, trace[0]), trace[1..], db', held', c, alone)
  }

  lemma {:induction false} TracedAppend(db: Db, held: seq<Item>, a: seq<Event>, db1: Db, held1: seq<Item>,
      b: seq<Event>, db2: Db, held2: seq<Item>, c: Config, alone: bool)
    requires Traced(db, held, a, db1, held1, c, alone) && Traced(db1, held1, b, db2, held2, c, alone)
    ensures Traced(db, held, a + b, db2, held2, c, alone)
    decreases |a|
  {
    hide Possible, NextDb, NextHeld, IsQuiet;
    if a == [] {
      assert a + b == b;
    } else {
      assert (a + b)[1..] == a[1..] + b;
      TracedAppend(NextDb(db, held, a[0], c), NextHeld(held, a[0]), a[1..], db1, held1, b, db2, held2, c, alone);
    }
  }

  /** One more event. */
  lemma TracedSnoc(db: Db, held: seq<Item>, trace: seq<Event>, db1: Db, held1: seq<Item>, e: Event, c: Config,
      alone: bool)
    requires Traced(db, held, trace, db1, held1, c, alone)
    requires Possible(db1, held1, e, c) && (alone ==> IsQuiet(db1, held1, e))
    ensures Traced(db, held, trace + [e], NextDb(db1, held1, e, c), NextHeld(held1, e), c, alone)
  {
    hide Possible, NextDb, NextHeld, IsQuiet;
    assert [e][1..] == [];
    assert Traced(db1, held1, [e], NextDb(db1, held1, e, c), NextHeld(held1, e), c, alone);
    TracedAppend(db, held, trace, db1, held1, [e], NextDb(db1, held1, e, c), NextHeld(held1, e), c, alone);
  }

  /** No reads among the events. */
  predicate OnlyTurns(trace: seq<Event>)
  {
    forall e :: e in trace ==> e.Turn? || e.Others?
  }

  /** The handler runs of a trace, in order. */
  function RunsOf(trace: seq<Event>): seq<HandlerRun>
  {
    if trace == [] then [] else RunsOf(trace[..|trace| - 1]) + RunsIn(trace[|trace| - 1])
  }

  function RunsIn(e: Event): seq<HandlerRun>
  {
    if e.Turn? then e.runs else []
  }

  lemma RunsSnoc(trace: seq<Event>, e: Event)
    ensures RunsOf(trace + [e]) == RunsOf(trace) + RunsIn(e)
  {
    assert (trace + [e])[..|trace + [e]| - 1] == trace;
  }

  lemma {:induction false} RunsAppend(a: seq<Event>, b: seq<Event>)
    ensures RunsOf(a + b) == RunsOf(a) + RunsOf(b)
    decreases |b|
  {
    if b == [] {
      assert a + b == a;
    } else {
      assert (a + b)[..|a + b| - 1] == a + b[..|b| - 1];
      RunsAppend(a, b[..|b| - 1]);
    }
  }
}
