/**
 The life of a task as a distributed state machine: clients, the scheduler, any number of workers that
 hold delivered messages, crashes, claims, key expiry and redrives, all interleaved at will.
 */
module Lifecycle {
  import opened Wrappers
  import opened Tasks
  import opened Streams
  import opened Keys

  /**
   Where a worker is with a message: it has just received it; it was told that the task is processed
   already; its handler runs; its handler has succeeded and the acknowledgement is outstanding.
   */
  datatype Phase = Received | Skipping | Running | Succeeded

  /** One delivery in the memory of a worker. `first` tells a first delivery from a redelivery. */
  datatype Holder = Holder(queue: string, id: nat, task: Task, phase: Phase, first: bool)

  /** What a redrive remembers of the dead letter queue between its lookup and its pipeline. */
  datatype Found = Found(queue: string, id: nat, task: Task)

  /**
   `lookups` are the redrives under way. `accepted`, `succeeded` and `crashed` record what has happened: the tasks
   that Enqueue accepted, those with a successful handler run, and those whose worker died while running attempt 0.
   */
  datatype Sys = Sys(
    db: Db, holders: map<nat, Holder>, lookups: map<nat, Found>,
    accepted: map<string, Task>, succeeded: set<string>, crashed: set<string>)

  const INIT := Sys(EMPTY_DB, map[], map[], map[], {}, {})

  /** The reply to SET NX. An error may reach the worker after the key was set all the same. */
  datatype GateReply = Replied | Error(applied: bool)

  /**
   `Abandon` is a client that dies after it has set a unique key and before it publishes. `Lookup` and `Redrive` are
   the two commands of RetryFromDLQ; anything may happen between them.
   */
  datatype Action =
    | Enqueue(task: Task, now: int)
    | PublishJunk(queue: string, body: Body)
    | PromoteScheduled(queue: string, member: Task)
    | PromoteRetry(queue: string, member: Task)
    | Deliver(queue: string, id: nat, consumer: string, h: nat)
    | Redeliver(queue: string, id: nat, consumer: string, h: nat)
    | AckJunk(queue: string, id: nat)
    | Gate(h: nat, reply: GateReply, now: int, worker: string)
    | HandlerOk(h: nat)
    | HandlerFail(h: nat, err: string, score: int)
    | AckDone(h: nat)
    | Crash(h: nat)
    | ExpireProcessed(taskID: string)
    | ExpireUnique(key: string)
    | Abandon(key: string, taskID: string)
    | Lookup(r: nat, queue: string, id: nat)
    | Redrive(r: nat, queue: string, id: nat, task: Task)

  predicate InPhase(s: Sys, h: nat, phases: set<Phase>)
  {
    h in s.holders && s.holders[h].phase in phases
  }

  ghost predicate Enabled(s: Sys, a: Action)
  {
    match a
    case Enqueue(task, _) => task.metadata.Some? && 0 <= task.RetryCount() < task.RetryLimit()
    case PublishJunk(_, body) => !body.Data?
    case PromoteScheduled(q, member) => member in s.db.At(q).scheduled && q in s.db.known
    case PromoteRetry(q, member) => member in s.db.At(q).retry && q in s.db.known
    case Deliver(q, id, _, h) => s.db.At(q).stream.IsNext(id) && h !in s.holders
    case Redeliver(q, id, _, h) => id in s.db.At(q).stream.pel && h !in s.holders
    case AckJunk(q, id) =>
      var stream := s.db.At(q).stream;
      id in stream.pel && id in stream.entries && !stream.entries[id].Data?
    case Gate(h, _, _, _) => InPhase(s, h, {Received})
    case HandlerOk(h) => InPhase(s, h, {Running})
    case HandlerFail(h, _, _) => InPhase(s, h, {Running})
    case AckDone(h) => InPhase(s, h, {Skipping, Succeeded})
    case Crash(h) => h in s.holders
    case ExpireProcessed(_) => true
    case ExpireUnique(_) => true
    case Abandon(key, _) => key != "" && key !in s.db.unique
    case Lookup(r, q, id) =>
      r !in s.lookups && s.db.At(q).dlq.HasTask(id)
      && s.db.At(q).IsFirstInDLQ(s.db.At(q).dlq.entries[id].task.id, id)
    case Redrive(r, q, id, task) => r in s.lookups && s.lookups[r] == Found(q, id, task)
  }

  function PutStream(db: Db, q: string, stream: Stream): Db
  {
    db.Put(q, db.At(q).(stream := stream))
  }

  /** The message `id` of queue `q`, if it carries a task, is now also in the hands of worker `h`. */
  function Hold(s: Sys, q: string, id: nat, h: nat, first: bool): map<nat, Holder>
  {
    var stream := s.db.At(q).stream;
    if stream.HasTask(id) then s.holders[h := Holder(q, id, stream.entries[id].task.Received(id), Received, first)]
    else s.holders
  }

  /** The idempotency check of processTask: does the handler run, and which keys are set afterwards? */
  function PassGate(processed: set<string>, task: Task, reply: GateReply): (bool, set<string>)
  {
    if task.RetryCount() != 0 then (true, processed)
    else match reply
         case Replied => (task.id !in processed, processed + {task.id})
         case Error(applied) => (true, if applied then processed + {task.id} else processed)
  }

  function DoEnqueue(s: Sys, task: Task, now: int): Sys
  {
    var (db, result) := Keys.Enqueue(s.db, task, now);
    s.(db := db, accepted := if result.Accepted? then s.accepted[task.id := result.task] else s.accepted)
  }

  function DoDeliver(s: Sys, q: string, id: nat, consumer: string, h: nat): Sys
  {
    s.(db := PutStream(s.db, q, s.db.At(q).stream.ReadNew(id, consumer)), holders := Hold(s, q, id, h, true))
  }

  function DoRedeliver(s: Sys, q: string, id: nat, consumer: string, h: nat): Sys
    requires id in s.db.At(q).stream.pel
  {
    s.(db := PutStream(s.db, q, s.db.At(q).stream.Reassign(id, consumer)), holders := Hold(s, q, id, h, false))
  }

  function DoGate(s: Sys, h: nat, reply: GateReply, now: int, worker: string): Sys
    requires h in s.holders
  {
    var holder := s.holders[h];
    var (runs, processed) := PassGate(s.db.processed, holder.task, reply);
    var holder' := if runs then holder.(phase := Running, task := holder.task.Started(now, worker))
                   else holder.(phase := Skipping);
    s.(db := s.db.(processed := processed), holders := s.holders[h := holder'])
  }

  function DoHandlerOk(s: Sys, h: nat): Sys
    requires h in s.holders
  {
    s.(holders := s.holders[h := s.holders[h].(phase := Succeeded)], succeeded := s.succeeded + {s.holders[h].task.id})
  }

  function DoHandlerFail(s: Sys, h: nat, err: string, score: int): Sys
    requires h in s.holders
  {
    var task := s.holders[h].task;
    s.(db := s.db.Put(task.Queue(), s.db.At(task.Queue()).Fail(task, err, score)), holders := s.holders - {h})
  }

  function DoAckDone(s: Sys, h: nat): Sys
    requires h in s.holders
  {
    var q := s.holders[h].queue;
    s.(db := s.db.Put(q, s.db.At(q).Ack(s.holders[h].id)), holders := s.holders - {h})
  }

  function DoCrash(s: Sys, h: nat): Sys
    requires h in s.holders
  {
    var holder := s.holders[h];
    s.(holders := s.holders - {h},
    crashed := if holder.phase == Running && holder.task.RetryCount() == 0
               then s.crashed + {holder.task.id} else s.crashed)
  }

  ghost function Apply(s: Sys, a: Action): Sys
    requires Enabled(s, a)
  {
    match a
    case Enqueue(task, now) => DoEnqueue(s, task, now)
    case PublishJunk(q, body) => s.(db := PutStream(s.db, q, s.db.At(q).stream.Add(body)))
    case PromoteScheduled(q, member) => s.(db := s.db.Put(q, s.db.At(q).PromoteScheduled(member)))
    case PromoteRetry(q, member) => s.(db := s.db.Put(q, s.db.At(q).PromoteRetry(member)))
    case Deliver(q, id, consumer, h) => DoDeliver(s, q, id, consumer, h)
    case Redeliver(q, id, consumer, h) => DoRedeliver(s, q, id, consumer, h)
    case AckJunk(q, id) => s.(db := PutStream(s.db, q, s.db.At(q).stream.Ack(id)))
    case Gate(h, reply, now, worker) => DoGate(s, h, reply, now, worker)
    case HandlerOk(h) => DoHandlerOk(s, h)
    case HandlerFail(h, err, score) => DoHandlerFail(s, h, err, score)
    case AckDone(h) => DoAckDone(s, h)
    case Crash(h) => DoCrash(s, h)
    case ExpireProcessed(taskID) => s.(db := s.db.(processed := s.db.processed - {taskID}))
    case ExpireUnique(key) => s.(db := s.db.(unique := s.db.unique - {key}))
    case Abandon(key, taskID) => s.(db := s.db.(unique := s.db.unique[key := taskID]))
    case Lookup(r, q, id) => s.(lookups := s.lookups[r := Found(q, id, s.db.At(q).dlq.entries[id].task)])
    case Redrive(r, q, id, task) => s.(db := Keys.Redrive(s.db, q, id, task), lookups := s.lookups - {r})
  }

  ghost predicate IsRun(s: Sys, actions: seq<Action>)
    decreases |actions|
  {
    actions == [] || (Enabled(s, actions[0]) && IsRun(Apply(s, actions[0]), actions[1..]))
  }

  ghost function After(s: Sys, actions: seq<Action>): Sys
    requires IsRun(s, actions)
    decreases |actions|
  {
    if actions == [] then s else After(Apply(s, actions[0]), actions[1..])
  }

  lemma RunCons(s: Sys, a: Action, rest: seq<Action>)
    requires Enabled(s, a) && IsRun(Apply(s, a), rest)
    ensures IsRun(s, [a] + rest) && After(s, [a] + rest) == After(Apply(s, a), rest)
  {
    hide Apply, Enabled;
    assert ([a] + rest)[1..] == rest;
  }

  lemma {:induction false} RunAppend(s: Sys, a: seq<Action>, b: seq<Action>)
    requires IsRun(s, a) && IsRun(After(s, a), b)
    ensures IsRun(s, a + b) && After(s, a + b) == After(After(s, a), b)
    decreases |a|
  {
    hide Enabled, Apply;
    if a == [] {
      assert a + b == b;
    } else {
      assert (a + b)[1..] == a[1..] + b;
      RunAppend(Apply(s, a[0]), a[1..], b);
    }
  }
}
