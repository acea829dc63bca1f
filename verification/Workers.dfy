/** A worker: what it does with one message, and the loops that recover pending messages, while others go on. */
module Workers {
  import opened Wrappers
  import opened Tasks
  import opened Streams
  import opened Keys
  import opened Lifecycle
  import opened Redis
  import opened RedisBroker
  import opened Backoff
  import opened Places
  import opened Affinity
  import opened Turns
  import opened Interference

  /** `log` records every run of a handler. What the loops did is returned as a trace of events. */
  class Server {
    const broker: Broker
    const client: Client
    const c: Config
    ghost var log: seq<HandlerRun>

    constructor (broker: Broker, c: Config)
      requires broker.batchSize > 0
      ensures this.broker == broker && client == broker.client && this.c == c && Valid()
      ensures log == []
    {
      this.broker, client, this.c := broker, broker.client, c;
      log := [];
    }

    predicate Valid()
    {
      client == broker.client && broker.batchSize > 0
    }

    /** Clients, schedulers, other workers and expiring keys do what they like, within the scope's limits. */
    method OthersAct(scope: Scope)
      requires Valid()
      modifies client
      ensures MayFollow(old(client.View()), client.View(), scope)
      ensures broker.alone ==> client.View() == old(client.View())
    {
      var db: Db := *;
      NothingFollows(client.View(), scope);
      if !broker.alone && MayFollow(client.View(), db, scope) {
        client.queues, client.known, client.processed, client.unique := db.queues, db.known, db.processed, db.unique;
      }
    }

    /** The handler of the task's type, which may answer with an error. */
    method RunHandler(task: Task) returns (result: Option<string>)
      requires task.kind in c.handled
      modifies `log
      ensures log == old(log) + [HandlerRun(task, result)]
    {
      result := *;
      log := log + [HandlerRun(task, result)];
    }

    /** handleFailure: `task` is the task as the handler received it. The delay is that of calculateBackoff. */
    method HandleFailure(task: Task, err: string) returns (ghost failedAt: int)
      requires Valid()
      modifies client
      ensures var score := Unix(failedAt + Delay(c.retryBase, c.retryMax, task.Failed(err).RetryCount(), c.huge));
              client.View() == old(client.View().Put(task.Queue(), client.At(task.Queue()).Fail(task, err, score)))
      ensures var limit := if task.options.Some? && task.options.value.maxRetry > 0 then task.options.value.maxRetry
                           else 3;
              var meta := if task.metadata.Some? then task.metadata.value else EMPTY_METADATA;
              var count := ToInt32(meta.retryCount + 1);
              var (k, k') := (old(client.At(task.Queue())), client.At(task.Queue()));
              && Removed(k.stream, k'.stream, if meta.streamMsgID.Some? then {meta.streamMsgID.value} else {})
              && (count >= limit ==> k'.retry == k.retry && Appended(k.dlq, k'.dlq, task.(metadata := Some(
                    meta.(state := Dead, retryCount := count, lastError := err)))))
              && (count < limit ==> k'.dlq == k.dlq && k'.retry == k.retry[
                    task.(metadata := Some(meta.(state := TaskState.Retry, retryCount := count, lastError := err)))
                      := (failedAt + Delay(c.retryBase, c.retryMax, count, c.huge)) / 1_000_000_000])
    {
      hide Delay, Removed, Appended;
      var failed := task.Failed(err);
      var maxRetry := DEFAULT_MAX_RETRY;
      if failed.options.Some? && failed.options.value.maxRetry > 0 {
        maxRetry := failed.options.value.maxRetry;
      }
      var now: int := *;
      failedAt := now;
      if failed.RetryCount() >= maxRetry {
        broker.MoveToDLQ(task.Queue(), failed);
      } else {
        var delay := Delay(c.retryBase, c.retryMax, failed.RetryCount(), c.huge);
        broker.Retry(task.Queue(), failed, now, delay);
      }
    }

    /**
     processMessage with processTask: the gate, the handler, whose answer decides, and the acknowledgement. The
     network decides what it likes, and others act while the handler runs: `middle` is what they leave.
     */
    method ProcessMessage(q: string, message: Message, scope: Scope)
      returns (reply: GateReply, ghost runs: seq<HandlerRun>, ghost outcome: Outcome, ghost middle: Db)
      requires Valid()
      modifies client, `log
      ensures IsTurn(old(client.View()), message, reply, runs, outcome, c)
      ensures log == old(log) + runs
      ensures IsOutcome(old(client.View()), message.body, reply, outcome)
      ensures !message.body.Data? ==> runs == [] && outcome.Discarded?
      ensures message.body.Data? ==>
                var task := message.body.task;
                var stopped := task.RetryCount() == 0 && reply.Replied? && task.id in old(client.processed);
                && |runs| == (if !stopped && task.kind in c.handled then 1 else 0)
                && (outcome.Ignored? <==> stopped)
                && (outcome.Finished? <==> |runs| == 1 && runs[0].answer.None?)
                && (outcome.Broken? ==> outcome.err == (if |runs| == 1 && runs[0].answer.Some? then runs[0].answer.value
                                                        else "no handler for task type: " + task.kind))
      ensures MayFollow(Gated(old(client.View()), message.body, reply), middle, scope)
      ensures broker.alone ==> middle == Gated(old(client.View()), message.body, reply)
      ensures client.View() == Concluded(middle, q, message.id, message.body, outcome, c.worker)
    {
      hide MayFollow, Queue.Fail, Queue.Ack, Delay, Task.RetryLimit, Task.WithState, IsTurn, Decides, IsOutcome;
      reply, runs := Replied, [];
      ghost var db := client.View();
      if !message.body.Data? {
        NothingFollows(client.View(), scope);
        middle := client.View();
        client.XAck(q, message.id);
        outcome := Discarded;
        DiscardTurn(db, message, reply, c);
        TurnMeans(db, message, reply, runs, outcome, c);
        return;
      }
      var task := message.body.task.Received(message.id);
      if task.RetryCount() == 0 {
        var fails: bool := *;
        var applied: bool := *;
        if fails {
          reply := Error(applied);
          if applied { var _ := broker.SetProcessed(task.id); }
        } else {
          var shouldProcess := broker.SetProcessed(task.id);
          if !shouldProcess {
            OthersAct(scope);
            middle := client.View();
            broker.Ack(q, message.id);
            outcome := Ignored;
            IgnoreTurn(db, message, reply, c);
            TurnMeans(db, message, reply, runs, outcome, c);
            return;
          }
        }
      }
      assert !IsStopped(db, message.body.task, reply) && client.View() == Gated(db, message.body, reply);
      hide Gated, IsStopped, Task.Received, Task.Started, Task.Failed, Task.Queue, Task.RetryCount;
      var now: int := *;
      task := task.Started(now, c.worker);
      var result: Option<string>;
      if message.body.task.kind in c.handled {
        result := RunHandler(task);
        runs := [HandlerRun(task, result)];
      } else {
        result := Some("no handler for task type: " + message.body.task.kind);
      }
      OthersAct(scope);
      middle := client.View();
      ghost var failedAt: int := 0;
      match result {
        case Some(err) => failedAt := HandleFailure(task, err);
        case None => broker.Ack(q, message.id);
      }
      outcome := HandledOutcome(message.body.task, result, now, failedAt, c);
      HandledTurn(db, message, reply, now, runs, result, failedAt, c);
      TurnMeans(db, message, reply, runs, outcome, c);
      HandledConcludes(middle, q, message, result, now, failedAt, c);
    }

    /** One message of a batch: others act, and it has its turn. `before` is what others leave before it. */
    method TakeTurn(q: string, message: Message, scope: Scope) returns (ghost before: Db, ghost turn: Event)
      requires Valid() && OnOwnQueue(client.View()) && BelongsTo(message, q)
      modifies client, `log
      ensures turn.Turn? && IsTurn(before, message, turn.reply, turn.runs, turn.outcome, c)
      ensures log == old(log) + turn.runs
      ensures client.View() == Concluded(turn.middle, q, message.id, message.body, turn.outcome, c.worker)
      ensures broker.alone ==> before == old(client.View()) && turn.middle == Gated(before, message.body, turn.reply)
      ensures OnOwnQueue(client.View()) && Cleared(old(client.View()), client.View(), q, {message.id}, scope)
      ensures broker.alone ==> Processed(old(client.View()), client.View(), q, {message.id})
    {
      hide OnOwnQueue, Shrinks, Cleared, Processed, Concluded, Gated, IsOutcome, BelongsTo, IsTurn;
      ghost var start := client.View();
      OthersAct(scope);
      before := client.View();
      var reply, runs, outcome, middle := ProcessMessage(q, message, scope);
      turn := Turn(reply, middle, runs, outcome);
      GatedFollows(before, message.body, reply, scope);
      ConcludedClears(middle, q, message, outcome, c.worker, scope);
      NothingFollows(start, scope);
      assert {} + {message.id} == {message.id};
      ClearedMore(start, start, before, Gated(before, message.body, reply), middle, client.View(), q, {}, message.id,
                  scope);
      if broker.alone { SettledProcesses(before, q, message, reply, outcome, c.worker); }
    }

    /**
     The inner loop of the recoveries and of the main loop: every message has its turn, in order, with whatever others
     do before and during it. Whatever the outcomes, it leaves the pending entries in scope.
     */
    method ProcessAll(q: string, messages: seq<Message>, scope: Scope, ghost first: bool)
      returns (ghost trace: seq<Event>)
      requires Valid() && OnOwnQueue(client.View())
      requires forall m :: m in messages ==> BelongsTo(m, q)
      modifies client, `log
      ensures Traced(old(client.View()), Items(q, messages, first), trace, client.View(), [], c, broker.alone)
      ensures log == old(log) + RunsOf(trace) && OnlyTurns(trace)
      ensures OnOwnQueue(client.View())
      ensures Cleared(old(client.View()), client.View(), q, Redis.Ids(messages), scope)
      ensures broker.alone ==> Processed(old(client.View()), client.View(), q, Redis.Ids(messages))
    {
      hide OnOwnQueue, Shrinks, Cleared, Processed, Concluded, Gated, BelongsTo, Traced, RunsOf, Items, IsTurn,
        OnlyTurns, Redis.Ids;
      ghost var start := client.View();
      trace := [];
      StartTurns(start, q, messages, scope, first, c, broker.alone);
      for i := 0 to |messages|
        invariant OnOwnQueue(client.View())
        invariant Cleared(start, client.View(), q, Redis.Ids(messages[..i]), scope)
        invariant broker.alone ==> Processed(start, client.View(), q, Redis.Ids(messages[..i]))
        invariant Traced(start, Items(q, messages, first), trace, client.View(), Items(q, messages[i..], first), c,
                         broker.alone)
        invariant log == old(log) + RunsOf(trace) && OnlyTurns(trace)
      {
        ghost var db := client.View();
        assert messages[i] in messages;
        ghost var before, turn := TakeTurn(q, messages[i], scope);
        IdsSnoc(messages, i);
        NothingFollows(db, scope);
        ClearedMore(start, db, db, db, db, client.View(), q, Redis.Ids(messages[..i]), messages[i].id, scope);
        if broker.alone { ProcessedMore(start, db, client.View(), q, Redis.Ids(messages[..i]), messages[i].id); }
        TurnTaken(start, db, before, q, messages, first, i, trace, turn, c, broker.alone);
        trace := trace + [Others(before)] + [turn];
      }
      EndTurns(q, messages, first);
    }

    /**
     recoverOwnPending. Provided that nothing new is delivered to this consumer meanwhile, it ends, and then nothing
     is pending for it on any of the queues; whatever else happens in Redis. Alone, it leaves the messages of the
     other consumers as they were.
     */
    method RecoverOwnPending(queues: seq<string>) returns (ghost trace: seq<Event>)
      requires Valid() && OnOwnQueue(client.View())
      modifies client, `log
      ensures Traced(old(client.View()), [], trace, client.View(), [], c, broker.alone)
      ensures log == old(log) + RunsOf(trace)
      ensures OnOwnQueue(client.View())
      ensures forall i :: 0 <= i < |queues| ==> Own(client.At(queues[i]).stream, broker.consumer) == {}
      ensures Shrinks(old(client.View()), client.View(), ForConsumer(broker.consumer))
      ensures broker.alone ==> forall q :: OthersKeep(old(client.At(q)).stream, client.At(q).stream, broker.consumer)
    {
      hide OnOwnQueue, Shrinks, OthersKeep, Own, Traced, RunsOf;
      ghost var scope := ForConsumer(broker.consumer);
      ghost var start := client.View();
      NothingFollows(start, scope);
      NothingTraced(start, c, broker.alone);
      NothingRuns();
      EveryoneKeeps(start, broker.consumer);
      trace := [];
      for i := 0 to |queues|
        invariant OnOwnQueue(client.View()) && Shrinks(start, client.View(), scope)
        invariant forall j :: 0 <= j < i ==> Own(client.At(queues[j]).stream, broker.consumer) == {}
        invariant broker.alone ==> forall q :: OthersKeep(start.At(q).stream, client.At(q).stream, broker.consumer)
        invariant Traced(start, [], trace, client.View(), [], c, broker.alone)
        invariant log == old(log) + RunsOf(trace)
      {
        ghost var before := client.View();
        ghost var more := RecoverQueue(queues[i]);
        QueueRecovered(start, before, client.View(), queues, i, broker.consumer, broker.alone);
        TracedAppend(start, [], trace, before, [], more, client.View(), [], c, broker.alone);
        RunsAppend(trace, more);
        trace := trace + more;
      }
    }

    method RecoverQueue(q: string) returns (ghost trace: seq<Event>)
      requires Valid() && OnOwnQueue(client.View())
      modifies client, `log
      ensures Traced(old(client.View()), [], trace, client.View(), [], c, broker.alone)
      ensures log == old(log) + RunsOf(trace)
      ensures OnOwnQueue(client.View()) && Shrinks(old(client.View()), client.View(), ForConsumer(broker.consumer))
      ensures Own(client.At(q).stream, broker.consumer) == {}
      ensures broker.alone ==> OnlyOthersKeep(old(client.View()), client.View(), q, broker.consumer)
    {
      hide OnOwnQueue, Shrinks, OnlyOthersKeep, Own, Traced, RunsOf;
      ghost var scope := ForConsumer(broker.consumer);
      ghost var start := client.View();
      NothingFollows(start, scope);
      NothingTraced(start, c, broker.alone);
      NothingRuns();
      OnlyOthersKeepNow(start, q, broker.consumer);
      trace := [];
      var drained := false;
      while !drained
        invariant OnOwnQueue(client.View()) && Shrinks(start, client.View(), scope)
        invariant broker.alone ==> OnlyOthersKeep(start, client.View(), q, broker.consumer)
        invariant Traced(start, [], trace, client.View(), [], c, broker.alone)
        invariant log == old(log) + RunsOf(trace)
        invariant drained ==> Own(client.At(q).stream, broker.consumer) == {}
        decreases !drained, Own(client.At(q).stream, broker.consumer)
      {
        ghost var head := client.View();
        ghost var more;
        drained, more := RecoverBatch(q);
        ShrinksOn(start, head, client.View(), scope);
        if broker.alone { OnlyOthersKeepOn(start, head, client.View(), q, broker.consumer); }
        TracedAppend(start, [], trace, head, [], more, client.View(), [], c, broker.alone);
        RunsAppend(trace, more);
        trace := trace + more;
      }
    }

    /** One turn of that loop: a read of pending messages, which are then processed. */
    method RecoverBatch(q: string) returns (drained: bool, ghost trace: seq<Event>)
      requires Valid() && OnOwnQueue(client.View())
      modifies client, `log
      ensures Traced(old(client.View()), [], trace, client.View(), [], c, broker.alone)
      ensures log == old(log) + RunsOf(trace)
      ensures OnOwnQueue(client.View()) && Shrinks(old(client.View()), client.View(), ForConsumer(broker.consumer))
      ensures if drained then Own(client.At(q).stream, broker.consumer) == {}
              else Own(client.At(q).stream, broker.consumer) < Own(old(client.At(q)).stream, broker.consumer)
      ensures broker.alone ==> OnlyOthersKeep(old(client.View()), client.View(), q, broker.consumer)
    {
      hide OnOwnQueue, Shrinks, OthersKeep, Own, IsReply, AreFirst, Redelivered, Processed, Traced, RunsOf, Items,
        Cleared, OnlyOthersKeep;
      var scope := ForConsumer(broker.consumer);
      ghost var head := client.View();
      OthersAct(scope);
      ghost var turn := client.View();
      var messages := client.XReadGroupOwn(q, broker.consumer, broker.batchSize);
      ghost var read := client.View();
      ghost var event := ReadOwn(q, broker.consumer, broker.batchSize, messages);
      OwnRead(head, turn, read, q, messages, event, c, broker.alone);
      trace := [Others(turn), event];
      drained := messages == [];
      if !drained {
        FetchedBelong(turn, q, Own(turn.At(q).stream, broker.consumer), messages);
        ghost var more := ProcessAll(q, messages, scope, false);
        OwnProcessed(head, turn, read, client.View(), q, messages, broker.consumer, broker.alone);
        TracedAppend(head, [], trace, read, Items(q, messages, false), more, client.View(), [], c, broker.alone);
        RunsAppend(trace, more);
        trace := trace + more;
      }
    }

    /**
     The main loop of Subscribe, once a read has succeeded: the next messages of one stream are handed out and
     processed, and none of them is left pending, whatever others do. If nobody else delivers to this consumer
     meanwhile (`exclusive`), nothing more is pending for it than before.
     */
    method ProcessNew(q: string, exclusive: bool) returns (messages: seq<Message>, ghost trace: seq<Event>)
      requires Valid() && OnOwnQueue(client.View()) && client.At(q).stream.WellFormed()
      modifies client, `log
      ensures Traced(old(client.View()), [], trace, client.View(), [], c, broker.alone)
      ensures log == old(log) + RunsOf(trace)
      ensures OnOwnQueue(client.View())
      ensures AreFirst(Undelivered(old(client.At(q)).stream), broker.batchSize, messages)
      ensures |trace| > 0 && trace[0] == ReadNew(q, broker.consumer, broker.batchSize, messages)
      ensures OnlyTurns(trace[1..])
      ensures exclusive ==> Shrinks(old(client.View()), client.View(), ForConsumer(broker.consumer))
      ensures !exclusive ==> client.At(q).stream.pel.Keys !! Redis.Ids(messages)
      ensures broker.alone ==> client.At(q).stream.pel == old(client.At(q)).stream.pel
      ensures var cursor := old(client.At(q)).stream.cursor;
              broker.alone ==>
                client.At(q).stream.cursor == if messages == [] then cursor else messages[|messages| - 1].id + 1
    {
      hide OnOwnQueue, Shrinks, Processed, Cleared, Traced, RunsOf, Items, AreFirst, ReadAll;
      ghost var before := client.View();
      ghost var event;
      messages, event := ReadStream(q, []);
      ghost var read := client.View();
      var scope := if exclusive then ForConsumer(broker.consumer) else ForBatch(map[q := Redis.Ids(messages)]);
      NewRead(before, read, event, c, broker.alone);
      ReadAllEffect(before.At(q).stream, messages, broker.consumer);
      hide IsReply, Undelivered;
      ghost var more := ProcessAll(q, messages, scope, true);
      TracedAppend(before, [], [event], read, Items(q, messages, true), more, client.View(), [], c, broker.alone);
      RunsAppend([event], more);
      trace := [event] + more;
      assert trace[1..] == more;
      if exclusive { NewAreCleared(before, read, client.View(), q, messages, scope); }
      else { BatchIsCleared(read, client.View(), q, messages, scope); }
      if broker.alone { NewAreGone(before, read, client.View(), q, messages); }
    }

    /** The part of the read over all the streams that concerns one of them. */
    method ReadStream(q: string, ghost held: seq<Item>) returns (reply: seq<Message>, ghost event: Event)
      requires Valid() && OnOwnQueue(client.View())
      modifies client
      ensures event == ReadNew(q, broker.consumer, broker.batchSize, reply)
      ensures Possible(old(client.View()), held, event, c)
              && client.View() == NextDb(old(client.View()), held, event, c)
      ensures OnOwnQueue(client.View()) && AllBelong(reply, q)
      ensures client.View() == old(client.View()).Put(q, client.At(q))
      ensures client.At(q).stream.pel - Redis.Ids(reply) == old(client.At(q)).stream.pel - Redis.Ids(reply)
    {
      ghost var before := client.View();
      reply := client.XReadGroupNew(q, broker.consumer, broker.batchSize);
      event := ReadNew(q, broker.consumer, broker.batchSize, reply);
      hide OnOwnQueue, AllBelong;
      ReadAllEffect(before.At(q).stream, reply, broker.consumer);
      ReadNewStaysOwn(before, client.View(), q);
      FetchedBelong(before, q, Undelivered(before.At(q).stream), reply);
      IsAllBelong(reply, q);
    }

    /**
     One turn of the main loop of Subscribe: a single read over all the streams, and then the messages stream by
     stream, while others go on. The promises are those of ProcessNew, for all the streams.
     */
    method ConsumeOnce(queues: seq<string>, exclusive: bool)
      returns (replies: seq<seq<Message>>, ghost trace: seq<Event>)
      requires Valid() && OnOwnQueue(client.View())
      modifies client, `log
      ensures Traced(old(client.View()), [], trace, client.View(), [], c, broker.alone)
      ensures log == old(log) + RunsOf(trace)
      ensures OnOwnQueue(client.View()) && |replies| == |queues|
      ensures AreReads(trace, queues, replies, broker.consumer, broker.batchSize) && OnlyTurns(trace[|queues|..])
      ensures exclusive ==> Shrinks(old(client.View()), client.View(), ForConsumer(broker.consumer))
      ensures !exclusive ==> AllCleared(client.View(), queues, replies, |queues|)
    {
      hide OnOwnQueue, Shrinks, Grows, AllCleared, BatchesBelong, Traced, RunsOf, AllItems, AreReads, OnlyTurns;
      ghost var start := client.View();
      var scope := ForConsumer(broker.consumer);
      ghost var taken;
      replies, taken := ReadStreams(queues);
      ghost var read, more := client.View(), [];
      if exclusive {
        more := ProcessBatches(queues, replies, scope);
        EverythingProcessed(start, read, client.View(), queues, replies, scope);
      } else {
        more := ProcessBatches(queues, replies, ForBatch(map q | q in queues :: Taken(queues, replies, q)));
        EverythingCleared(read, client.View(), queues, replies);
      }
      TracedAppend(start, [], taken, read, AllItems(queues, replies, 0), more, client.View(), [], c, broker.alone);
      RunsAppend(taken, more);
      trace := taken + more;
      assert trace[|queues|..] == more && trace[..|queues|] == taken;
      ReadsFirst(taken, trace, queues, replies, broker.consumer, broker.batchSize);
    }

    /** The read. */
    method ReadStreams(queues: seq<string>) returns (replies: seq<seq<Message>>, ghost trace: seq<Event>)
      requires Valid() && OnOwnQueue(client.View())
      modifies client
      ensures OnOwnQueue(client.View()) && |replies| == |queues| == |trace| && RunsOf(trace) == []
      ensures AreReads(trace, queues, replies, broker.consumer, broker.batchSize)
      ensures Grows(old(client.View()), client.View(), queues, replies, ForConsumer(broker.consumer))
      ensures BatchesBelong(queues, replies)
      ensures Traced(old(client.View()), [], trace, client.View(), AllItems(queues, replies, 0), c, broker.alone)
    {
      hide OnOwnQueue, Grows, BatchesBelong, AllBelong, Traced, RunsOf, AllItems, Possible, NextDb,
        AreReads;
      ghost var start := client.View();
      replies, trace := [], [];
      NothingRead(start, queues, ForConsumer(broker.consumer), c, broker.alone);
      for i := 0 to |queues|
        invariant |replies| == i == |trace| && OnOwnQueue(client.View()) && RunsOf(trace) == []
        invariant AreReads(trace, queues, replies, broker.consumer, broker.batchSize)
        invariant Grows(start, client.View(), queues, replies, ForConsumer(broker.consumer))
        invariant BatchesBelong(queues, replies)
        invariant Traced(start, [], trace, client.View(), AllItems(queues, replies, 0), c, broker.alone)
      {
        ghost var before := client.View();
        ghost var event;
        var reply;
        reply, event := ReadStream(queues[i], AllItems(queues, replies, 0));
        StreamRead(start, before, client.View(), queues, replies, trace, event, c, broker.alone);
        ReadsSnoc(trace, queues, replies, event);
        replies, trace := replies + [reply], trace + [event];
      }
    }

    /** The turns of all the messages read, stream by stream. */
    method ProcessBatches(queues: seq<string>, replies: seq<seq<Message>>, scope: Scope)
      returns (ghost trace: seq<Event>)
      requires Valid() && OnOwnQueue(client.View()) && |replies| == |queues| && BatchesBelong(queues, replies)
      modifies client, `log
      ensures Traced(old(client.View()), AllItems(queues, replies, 0), trace, client.View(), [], c, broker.alone)
      ensures log == old(log) + RunsOf(trace) && OnlyTurns(trace)
      ensures OnOwnQueue(client.View()) && BatchesCleared(old(client.View()), client.View(), queues, replies, |queues|,
                                                          scope)
    {
      hide OnOwnQueue, BatchesCleared, Cleared, BatchesBelong, Traced, RunsOf, AllItems, Items, BelongsTo, Processed,
        OnlyTurns;
      ghost var start, items := client.View(), AllItems(queues, replies, 0);
      trace := [];
      NothingProcessed(start, queues, replies, scope, c, broker.alone);
      for i := 0 to |queues|
        invariant OnOwnQueue(client.View()) && BatchesCleared(start, client.View(), queues, replies, i, scope)
        invariant Traced(start, items, trace, client.View(), AllItems(queues, replies, i), c, broker.alone)
        invariant log == old(log) + RunsOf(trace) && OnlyTurns(trace)
      {
        ghost var before := client.View();
        BatchBelongs(queues, replies, i);
        ghost var more := ProcessAll(queues[i], replies[i], scope, true);
        BatchProcessed(start, before, client.View(), queues, replies, i, scope, items, trace, more, c, broker.alone);
        RunsAppend(trace, more);
        TurnsAppend(trace, more);
        trace := trace + more;
      }
    }

    /**
     claimStale. Provided that nothing new is delivered to the group meanwhile, it ends, and what it has claimed is no
     longer pending, whatever Redis considers stale and whatever else happens there. Alone, it leaves the rest as it
     was. That it finds every stale message is not promised.
     */
    method ClaimStale(q: string) returns (ghost claimed: set<nat>, ghost trace: seq<Event>)
      requires Valid() && OnOwnQueue(client.View())
      modifies client, `log
      ensures Traced(old(client.View()), [], trace, client.View(), [], c, broker.alone)
      ensures log == old(log) + RunsOf(trace)
      ensures OnOwnQueue(client.View()) && Shrinks(old(client.View()), client.View(), ForGroup)
      ensures claimed <= old(client.At(q)).stream.pel.Keys && claimed !! client.At(q).stream.pel.Keys
      ensures EndsDrained(trace, q, broker.consumer)
      ensures broker.alone ==> exists ids :: Processed(old(client.View()), client.View(), q, ids)
    {
      hide OnOwnQueue, Shrinks, Processed, Traced, RunsOf;
      ghost var start := client.View();
      ghost var ids: set<nat> := {};
      claimed := {};
      NothingFollows(start, ForGroup);
      NothingTraced(start, c, broker.alone);
      NothingRuns();
      trace := [];
      var drained := false;
      while !drained
        invariant OnOwnQueue(client.View()) && Shrinks(start, client.View(), ForGroup)
        invariant claimed <= start.At(q).stream.pel.Keys && claimed !! client.At(q).stream.pel.Keys
        invariant drained ==> EndsDrained(trace, q, broker.consumer)
        invariant broker.alone ==> Processed(start, client.View(), q, ids)
        invariant Traced(start, [], trace, client.View(), [], c, broker.alone)
        invariant log == old(log) + RunsOf(trace)
        decreases !drained, client.At(q).stream.pel.Keys
      {
        ghost var head := client.View();
        ghost var found, gone, more;
        drained, found, gone, more := ClaimBatch(q);
        ShrinksAt(start, head, ForGroup, q);
        ShrinksAt(head, client.View(), ForGroup, q);
        ShrinksOn(start, head, client.View(), ForGroup);
        if broker.alone { ProcessedOn(start, head, client.View(), q, ids, gone); }
        ids := ids + gone;
        claimed := claimed + found;
        TracedAppend(start, [], trace, head, [], more, client.View(), [], c, broker.alone);
        RunsAppend(trace, more);
        trace := trace + more;
      }
    }

    /** One turn of that loop: a claim of stale messages, which are then processed. */
    method ClaimBatch(q: string)
      returns (drained: bool, ghost found: set<nat>, ghost gone: set<nat>, ghost trace: seq<Event>)
      requires Valid() && OnOwnQueue(client.View())
      modifies client, `log
      ensures Traced(old(client.View()), [], trace, client.View(), [], c, broker.alone)
      ensures log == old(log) + RunsOf(trace)
      ensures OnOwnQueue(client.View()) && Shrinks(old(client.View()), client.View(), ForGroup)
      ensures found <= old(client.At(q)).stream.pel.Keys && found !! client.At(q).stream.pel.Keys
      ensures drained || found != {}
      ensures drained ==> EndsDrained(trace, q, broker.consumer)
      ensures broker.alone ==> Processed(old(client.View()), client.View(), q, gone)
    {
      hide OnOwnQueue, Shrinks, IsReply, Redelivered, Processed, AutoClaimed, Traced, RunsOf, Items, Cleared;
      ghost var head := client.View();
      OthersAct(ForGroup);
      ghost var turn := client.View();
      var messages := client.XAutoClaim(q, broker.consumer, broker.batchSize);
      ghost var lost :| AutoClaimed(turn, client.View(), q, broker.consumer, messages, lost);
      ghost var read := client.View();
      ghost var event := Claim(q, broker.consumer, messages, lost);
      ClaimRead(head, turn, read, event, c, broker.alone);
      trace := [Others(turn), event];
      found, gone := Redis.Ids(messages), lost + Redis.Ids(messages);
      drained := messages == [];
      if drained {
        NothingClaimed(head, turn, read, q, broker.consumer, lost, broker.alone);
      } else {
        ghost var more := ProcessAll(q, messages, ForGroup, false);
        ClaimProcessed(head, turn, read, client.View(), event, broker.alone);
        TracedAppend(head, [], trace, read, Items(q, messages, false), more, client.View(), [], c, broker.alone);
        RunsAppend(trace, more);
        trace := trace + more;
      }
    }
  }
}
