/** What the loops of a worker rely on: what others may do meanwhile, and what turns leave behind. */
module Interference {
  import opened Wrappers
  import opened Tasks
  import opened Streams
  import opened Keys
  import opened Lifecycle
  import opened Redis
  import opened Backoff
  import opened Places
  import opened Affinity
  import opened Turns

  lemma NoItems(q: string, first: bool)
    ensures Items(q, [], first) == []
  {
  }

  lemma NothingTraced(db: Db, c: Config, alone: bool)
    ensures Traced(db, [], [], db, [], c, alone)
  {
  }

  /** The turn of message number `i`, after whatever others did before it. */
  lemma TurnTaken(start: Db, turn: Db, db: Db, q: string, messages: seq<Message>, first: bool, i: nat,
      trace: seq<Event>, e: Event, c: Config, alone: bool)
    requires i < |messages| && e.Turn? && IsTurn(db, messages[i], e.reply, e.runs, e.outcome, c)
    requires Traced(start, Items(q, messages, first), trace, turn, Items(q, messages[i..], first), c, alone)
    requires alone ==> db == turn && e.middle == Gated(db, messages[i].body, e.reply)
    ensures Traced(start, Items(q, messages, first), trace + [Others(db)] + [e],
                   Concluded(e.middle, q, messages[i].id, messages[i].body, e.outcome, c.worker),
                   Items(q, messages[i + 1..], first), c, alone)
    ensures RunsOf(trace + [Others(db)] + [e]) == RunsOf(trace) + e.runs
    ensures OnlyTurns(trace) ==> OnlyTurns(trace + [Others(db)] + [e])
  {
    hide Items, Traced, IsTurn, Concluded, Gated, RunsOf, OnlyTurns;
    var held := Items(q, messages[i..], first);
    ItemsHead(q, messages, first, i);
    TracedSnoc(start, Items(q, messages, first), trace, turn, held, Others(db), c, alone);
    TracedSnoc(start, Items(q, messages, first), trace + [Others(db)], db, held, e, c, alone);
    RunsSnoc(trace, Others(db));
    RunsSnoc(trace + [Others(db)], e);
    StillOnlyTurns(trace, Others(db));
    StillOnlyTurns(trace + [Others(db)], e);
  }

  lemma ItemsHead(q: string, messages: seq<Message>, first: bool, i: nat)
    requires i < |messages|
    ensures var held := Items(q, messages[i..], first);
            && |held| == |messages| - i && held[0] == Item(q, messages[i], first)
            && held[1..] == Items(q, messages[i + 1..], first)
  {
  }

  lemma StillOnlyTurns(trace: seq<Event>, e: Event)
    requires e.Turn? || e.Others?
    ensures OnlyTurns(trace) ==> OnlyTurns(trace + [e])
  {
  }

  /** A read, after whatever others did before it. */
  lemma ReadTraced(start: Db, trace: seq<Event>, head: Db, turn: Db, e: Event, c: Config, alone: bool)
    requires Traced(start, [], trace, head, [], c, alone) && (alone ==> turn == head)
    requires Possible(turn, [], e, c) && !e.Turn? && !e.Others?
    ensures Traced(start, [], trace + [Others(turn)] + [e], NextDb(turn, [], e, c), NextHeld([], e), c, alone)
  {
    hide Traced, Possible, NextDb, NextHeld;
    assert Possible(head, [], Others(turn), c) && NextDb(head, [], Others(turn), c) == turn
        && NextHeld([], Others(turn)) == [] by {
      OthersHappen(head, turn, c);
    }
    TracedSnoc(start, [], trace, head, [], Others(turn), c, alone);
    TracedSnoc(start, [], trace + [Others(turn)], turn, [], e, c, alone);
  }

  lemma OthersHappen(head: Db, turn: Db, c: Config)
    ensures Possible(head, [], Others(turn), c) && NextDb(head, [], Others(turn), c) == turn
    ensures NextHeld([], Others(turn)) == []
  {
  }

  lemma ClaimIsPossible(turn: Db, read: Db, e: Event, c: Config)
    requires e.Claim? && AutoClaimed(turn, read, e.queue, e.consumer, e.messages, e.gone)
    requires IsReply(turn.At(e.queue).stream, Claimable(turn.At(e.queue).stream), e.messages)
    ensures Possible(turn, [], e, c) && NextDb(turn, [], e, c) == read
  {
  }

  lemma NewRead(before: Db, read: Db, e: Event, c: Config, alone: bool)
    requires e.ReadNew? && Possible(before, [], e, c) && read == NextDb(before, [], e, c)
    ensures Traced(before, [], [e], read, Items(e.queue, e.messages, true), c, alone) && RunsOf([e]) == []
  {
    assert [e][1..] == [] && [e][..0] == []
        && [] + Items(e.queue, e.messages, true) == Items(e.queue, e.messages, true);
    assert Traced(read, Items(e.queue, e.messages, true), [], read, Items(e.queue, e.messages, true), c, alone);
    assert RunsOf([]) == [];
  }

  lemma StartTurns(start: Db, q: string, messages: seq<Message>, scope: Scope, first: bool, c: Config, alone: bool)
    ensures Cleared(start, start, q, Redis.Ids(messages[..0]), scope)
    ensures Processed(start, start, q, Redis.Ids(messages[..0]))
    ensures Traced(start, Items(q, messages, first), [], start, Items(q, messages[0..], first), c, alone)
    ensures RunsOf([]) == [] && OnlyTurns([])
  {
    NothingFollows(start, scope);
    assert messages[0..] == messages && Redis.Ids(messages[..0]) == {};
  }

  lemma EndTurns(q: string, messages: seq<Message>, first: bool)
    ensures messages[..|messages|] == messages && Items(q, messages[|messages|..], first) == []
  {
  }

  lemma DiscardTurn(db: Db, message: Message, reply: GateReply, c: Config)
    requires !message.body.Data?
    ensures IsTurn(db, message, reply, [], Discarded, c) && IsOutcome(db, message.body, reply, Discarded)
  {
  }

  lemma IgnoreTurn(db: Db, message: Message, reply: GateReply, c: Config)
    requires message.body.Data? && IsStopped(db, message.body.task, reply)
    ensures IsTurn(db, message, reply, [], Ignored, c) && IsOutcome(db, message.body, reply, Ignored)
  {
  }

  function HandledOutcome(task: Task, result: Option<string>, now: int, failedAt: int, c: Config): Outcome
  {
    match result
    case None => Finished
    case Some(err) =>
      Broken(now, err, failedAt, Delay(c.retryBase, c.retryMax, ToInt32(task.RetryCount() + 1), c.huge))
  }

  lemma HandledTurn(db: Db, message: Message, reply: GateReply, now: int, runs: seq<HandlerRun>,
      result: Option<string>, failedAt: int, c: Config)
    requires message.body.Data? && !IsStopped(db, message.body.task, reply)
    requires var task := message.body.task;
             if task.kind in c.handled
             then runs == [HandlerRun(task.Received(message.id).Started(now, c.worker), result)]
             else runs == [] && result == Some("no handler for task type: " + task.kind)
    ensures var outcome := HandledOutcome(message.body.task, result, now, failedAt, c);
            IsTurn(db, message, reply, runs, outcome, c) && IsOutcome(db, message.body, reply, outcome)
  {
    hide Delay;
  }

  lemma HandledConcludes(middle: Db, q: string, message: Message, result: Option<string>, now: int, failedAt: int,
      c: Config)
    requires message.body.Data?
    ensures var task := message.body.task.Received(message.id).Started(now, c.worker);
            Concluded(middle, q, message.id, message.body,
                      HandledOutcome(message.body.task, result, now, failedAt, c), c.worker)
            == match result
               case None => middle.Put(q, middle.At(q).Ack(message.id))
               case Some(err) =>
                 var score := Unix(failedAt + Delay(c.retryBase, c.retryMax, task.Failed(err).RetryCount(), c.huge));
                 middle.Put(task.Queue(), middle.At(task.Queue()).Fail(task, err, score))
  {
    hide Queue.Fail, Queue.Ack, Delay;
  }

  /** On queue `q` the other consumers keep what they have, and on the other queues everybody does. */
  ghost predicate OnlyOthersKeep(db: Db, db': Db, q: string, consumer: string)
  {
    OthersKeep(db.At(q).stream, db'.At(q).stream, consumer)
    && forall other :: other != q ==> db'.At(other).stream == db.At(other).stream
  }

  lemma OnlyOthersKeepNow(db: Db, q: string, consumer: string)
    ensures OnlyOthersKeep(db, db, q, consumer)
  {
  }

  lemma EveryoneKeeps(db: Db, consumer: string)
    ensures forall q :: OthersKeep(db.At(q).stream, db.At(q).stream, consumer)
  {
  }

  lemma OnlyOthersKeepOn(a: Db, b: Db, c: Db, q: string, consumer: string)
    requires OnlyOthersKeep(a, b, q, consumer) && OnlyOthersKeep(b, c, q, consumer)
    ensures OnlyOthersKeep(a, c, q, consumer)
  {
    OthersKeepOn(a.At(q).stream, b.At(q).stream, c.At(q).stream, consumer);
  }

  lemma QueueRecovered(start: Db, before: Db, now: Db, queues: seq<string>, i: nat, consumer: string, alone: bool)
    requires i < |queues| && Shrinks(start, before, ForConsumer(consumer))
    requires Shrinks(before, now, ForConsumer(consumer)) && Own(now.At(queues[i]).stream, consumer) == {}
    requires forall j :: 0 <= j < i ==> Own(before.At(queues[j]).stream, consumer) == {}
    requires alone ==> forall q :: OthersKeep(start.At(q).stream, before.At(q).stream, consumer)
    requires alone ==> OnlyOthersKeep(before, now, queues[i], consumer)
    ensures Shrinks(start, now, ForConsumer(consumer))
    ensures forall j :: 0 <= j <= i ==> Own(now.At(queues[j]).stream, consumer) == {}
    ensures alone ==> forall q :: OthersKeep(start.At(q).stream, now.At(q).stream, consumer)
  {
    hide Shrinks, OthersKeep, Own;
    ShrinksOn(start, before, now, ForConsumer(consumer));
    forall j | 0 <= j < i
      ensures Own(now.At(queues[j]).stream, consumer) == {}
    {
      ShrinksAt(before, now, ForConsumer(consumer), queues[j]);
    }
    if alone {
      forall q
        ensures OthersKeep(start.At(q).stream, now.At(q).stream, consumer)
      {
        if q == queues[i] {
          OthersKeepOn(start.At(q).stream, before.At(q).stream, now.At(q).stream, consumer);
        }
      }
    }
  }

  /** A read of one's own pending messages, after whatever others did before it. */
  lemma OwnRead(head: Db, turn: Db, read: Db, q: string, messages: seq<Message>, e: Event, c: Config, alone: bool)
    requires OnOwnQueue(turn) && e.ReadOwn? && e.queue == q && e.messages == messages && Possible(turn, [], e, c)
    requires read == NextDb(turn, [], e, c) && (alone ==> turn == head)
    requires Shrinks(head, turn, ForConsumer(e.consumer))
    requires messages == [] ==> Own(turn.At(q).stream, e.consumer) == {}
    ensures OnOwnQueue(read) && Shrinks(head, read, ForConsumer(e.consumer))
    ensures Own(read.At(q).stream, e.consumer) == Own(turn.At(q).stream, e.consumer)
    ensures Traced(head, [], [Others(turn), e], read, Items(q, messages, false), c, alone)
    ensures RunsOf([Others(turn), e]) == [] && (messages == [] ==> Items(q, messages, false) == [])
    ensures alone ==> OnlyOthersKeep(head, read, q, e.consumer)
  {
    hide OnOwnQueue, Shrinks, OthersKeep, Own, IsReply, AreFirst, Redelivered, Traced, RunsOf, Items;
    ReadKeeps(turn, q, messages, e.consumer);
    ShrinksOn(head, turn, read, ForConsumer(e.consumer));
    NothingTraced(head, c, alone);
    ReadTraced(head, [], head, turn, e, c, alone);
    assert [] + [Others(turn)] + [e] == [Others(turn), e] && [Others(turn)] == [] + [Others(turn)];
    assert [] + Items(q, messages, false) == Items(q, messages, false);
    RunsSnoc([], Others(turn));
    RunsSnoc([Others(turn)], e);
    assert RunsOf([]) == [] by { NothingRuns(); }
    if messages == [] { NoItems(q, false); }
  }

  lemma NothingRuns()
    ensures RunsOf([]) == []
  {
  }

  lemma OwnProcessed(head: Db, turn: Db, read: Db, now: Db, q: string, messages: seq<Message>, consumer: string,
      alone: bool)
    requires messages != [] && IsReply(turn.At(q).stream, Own(turn.At(q).stream, consumer), messages)
    requires Shrinks(head, turn, ForConsumer(consumer)) && Shrinks(head, read, ForConsumer(consumer))
    requires Own(read.At(q).stream, consumer) == Own(turn.At(q).stream, consumer)
    requires Cleared(read, now, q, Redis.Ids(messages), ForConsumer(consumer))
    requires alone ==> OnlyOthersKeep(head, read, q, consumer) && Processed(read, now, q, Redis.Ids(messages))
    ensures Shrinks(head, now, ForConsumer(consumer))
    ensures Own(now.At(q).stream, consumer) < Own(head.At(q).stream, consumer)
    ensures alone ==> OnlyOthersKeep(head, now, q, consumer)
  {
    hide Shrinks, OthersKeep, Own, Processed;
    ShrinksOn(head, read, now, ForConsumer(consumer));
    ShrinksAt(head, turn, ForConsumer(consumer), q);
    ClearedShrinks(read, now, q, messages, ForConsumer(consumer));
    assert messages[0] in messages;
    if alone {
      ProcessedKeepsOthers(turn, read, now, q, messages, consumer);
      OnlyOthersKeepOn(head, read, now, q, consumer);
    }
  }

  /** A claim, after whatever others did before it. */
  lemma ClaimRead(head: Db, turn: Db, read: Db, e: Event, c: Config, alone: bool)
    requires OnOwnQueue(turn) && e.Claim? && AutoClaimed(turn, read, e.queue, e.consumer, e.messages, e.gone)
    requires IsReply(turn.At(e.queue).stream, Claimable(turn.At(e.queue).stream), e.messages)
    requires Shrinks(head, turn, ForGroup) && (alone ==> turn == head)
    ensures OnOwnQueue(read) && Shrinks(head, read, ForGroup)
    ensures Redis.Ids(e.messages) <= read.At(e.queue).stream.pel.Keys <= head.At(e.queue).stream.pel.Keys
    ensures forall m :: m in e.messages ==> BelongsTo(m, e.queue)
    ensures Traced(head, [], [Others(turn), e], read, Items(e.queue, e.messages, false), c, alone)
    ensures RunsOf([Others(turn), e]) == [] && (e.messages == [] ==> Items(e.queue, e.messages, false) == [])
  {
    hide OnOwnQueue, Shrinks, IsReply, AutoClaimed, Traced, RunsOf, Items;
    ClaimIsPossible(turn, read, e, c);
    ClaimKeeps(turn, read, e.queue, e.consumer, e.messages, e.gone);
    ShrinksOn(head, turn, read, ForGroup);
    ShrinksAt(head, turn, ForGroup, e.queue);
    NothingTraced(head, c, alone);
    ReadTraced(head, [], head, turn, e, c, alone);
    assert [] + [Others(turn)] + [e] == [Others(turn), e] && [Others(turn)] == [] + [Others(turn)];
    assert [] + Items(e.queue, e.messages, false) == Items(e.queue, e.messages, false);
    RunsSnoc([], Others(turn));
    RunsSnoc([Others(turn)], e);
    NothingRuns();
    if e.messages == [] { NoItems(e.queue, false); }
  }

  lemma ClaimProcessed(head: Db, turn: Db, read: Db, now: Db, e: Event, alone: bool)
    requires e.Claim? && e.messages != [] && AutoClaimed(turn, read, e.queue, e.consumer, e.messages, e.gone)
    requires Shrinks(head, read, ForGroup) && read.At(e.queue).stream.pel.Keys <= head.At(e.queue).stream.pel.Keys
    requires Redis.Ids(e.messages) <= read.At(e.queue).stream.pel.Keys
    requires Cleared(read, now, e.queue, Redis.Ids(e.messages), ForGroup) && (alone ==> turn == head)
    requires alone ==> Processed(read, now, e.queue, Redis.Ids(e.messages))
    ensures Shrinks(head, now, ForGroup) && Redis.Ids(e.messages) != {}
    ensures Redis.Ids(e.messages) <= head.At(e.queue).stream.pel.Keys
    ensures Redis.Ids(e.messages) !! now.At(e.queue).stream.pel.Keys
    ensures alone ==> Processed(head, now, e.queue, e.gone + Redis.Ids(e.messages))
  {
    hide Shrinks, AutoClaimed, Processed;
    ShrinksOn(head, read, now, ForGroup);
    ClearedShrinks(read, now, e.queue, e.messages, ForGroup);
    if alone {
      NothingFollows(head, ForGroup);
      ClaimProcesses(head, head, read, now, e.queue, e.consumer, e.messages, {}, e.gone);
      assert {} + e.gone + Redis.Ids(e.messages) == e.gone + Redis.Ids(e.messages);
    }
  }

  lemma ProcessedOn(a: Db, b: Db, c: Db, q: string, ids: set<nat>, more: set<nat>)
    requires Processed(a, b, q, ids) && Processed(b, c, q, more)
    ensures Processed(a, c, q, ids + more)
  {
    assert c.At(q).stream.pel == a.At(q).stream.pel - (ids + more);
  }

  /** The messages of all the replies from number `lo` on. */
  function AllItems(queues: seq<string>, replies: seq<seq<Message>>, lo: nat): seq<Item>
    decreases |replies| - lo
  {
    if lo >= |replies| || lo >= |queues| then []
    else Items(queues[lo], replies[lo], true) + AllItems(queues, replies, lo + 1)
  }

  lemma {:induction false} AllItemsSnoc(queues: seq<string>, replies: seq<seq<Message>>, reply: seq<Message>, lo: nat)
    requires |replies| < |queues| && lo <= |replies|
    ensures AllItems(queues, replies + [reply], lo)
            == AllItems(queues, replies, lo) + Items(queues[|replies|], reply, true)
    decreases |replies| - lo
  {
    hide Items;
    var all := replies + [reply];
    if lo < |replies| {
      AllItemsSnoc(queues, replies, reply, lo + 1);
      assert all[lo] == replies[lo];
    } else {
      assert AllItems(queues, all, lo + 1) == [] && all[lo] == reply;
    }
  }

  /** Turns leave the messages alone that come later. */
  lemma {:induction false} TurnsBefore(db: Db, held: seq<Item>, trace: seq<Event>, db': Db, held': seq<Item>,
      later: seq<Item>, c: Config, alone: bool)
    requires Traced(db, held, trace, db', held', c, alone) && OnlyTurns(trace)
    ensures Traced(db, held + later, trace, db', held' + later, c, alone)
    decreases |trace|
  {
    hide IsTurn, Concluded, Gated;
    if trace != [] {
      assert trace[0] in trace && forall e :: e in trace[1..] ==> e in trace;
      var e := trace[0];
      if held != [] { assert (held + later)[0] == held[0] && (held + later)[1..] == held[1..] + later; }
      TurnsBefore(NextDb(db, held, e, c), NextHeld(held, e), trace[1..], db', held', later, c, alone);
    }
  }

  lemma BatchTracedFrom(start: Db, items: seq<Item>, trace: seq<Event>, before: Db, queues: seq<string>,
      replies: seq<seq<Message>>, i: nat, more: seq<Event>, now: Db, c: Config, alone: bool)
    requires i < |queues| == |replies| && OnlyTurns(more)
    requires Traced(start, items, trace, before, AllItems(queues, replies, i), c, alone)
    requires Traced(before, Items(queues[i], replies[i], true), more, now, [], c, alone)
    ensures Traced(start, items, trace + more, now, AllItems(queues, replies, i + 1), c, alone)
  {
    var later := AllItems(queues, replies, i + 1);
    assert AllItems(queues, replies, i) == Items(queues[i], replies[i], true) + later;
    hide Traced, Items, AllItems;
    TurnsBefore(before, Items(queues[i], replies[i], true), more, now, [], later, c, alone);
    assert [] + later == later;
    TracedAppend(start, items, trace, before, Items(queues[i], replies[i], true) + later, more, now, later, c, alone);
  }

  lemma OwnQueueAt(db: Db, q: string, id: nat)
    requires OnOwnQueue(db)
    ensures BelongsTo(Fetch(db.At(q).stream, id), q)
  {
  }

  lemma IsOnOwnQueue(db: Db)
    requires forall q, id :: BelongsTo(Fetch(db.At(q).stream, id), q)
    ensures OnOwnQueue(db)
  {
    forall q, id | q in db.queues && id in db.queues[q].stream.entries
      ensures BelongsTo(Message(id, db.queues[q].stream.entries[id]), q)
    {
      assert BelongsTo(Fetch(db.At(q).stream, id), q);
    }
  }

  lemma NothingFollows(db: Db, scope: Scope)
    ensures MayFollow(db, db, scope) && Shrinks(db, db, scope)
    ensures forall q :: Cleared(db, db, q, {}, scope) && Processed(db, db, q, {})
  {
  }

  lemma ShrinksAt(db: Db, db': Db, scope: Scope, q: string)
    requires Shrinks(db, db', scope)
    ensures Guarded(db', q, scope) <= Guarded(db, q, scope)
  {
  }

  lemma ShrinksOn(a: Db, b: Db, c: Db, scope: Scope)
    requires Shrinks(a, b, scope) && Shrinks(b, c, scope)
    ensures Shrinks(a, c, scope)
  {
    hide Guarded;
    forall q
      ensures Guarded(c, q, scope) <= Guarded(a, q, scope)
    {
      ShrinksAt(a, b, scope, q);
      ShrinksAt(b, c, scope, q);
    }
  }

  /** Setting a processed key is nothing that others may not do. */
  lemma GatedFollows(db: Db, body: Body, reply: GateReply, scope: Scope)
    ensures MayFollow(db, Gated(db, body, reply), scope)
  {
    hide PassGate;
  }

  /** Whatever the outcome, the message is not pending any more, provided that it is on its task's own queue. */
  lemma ConcludedClears(db: Db, q: string, message: Message, outcome: Outcome, worker: string, scope: Scope)
    requires OnOwnQueue(db) && BelongsTo(message, q)
    ensures var db' := Concluded(db, q, message.id, message.body, outcome, worker);
            Cleared(db, db', q, {message.id}, scope) && OnOwnQueue(db')
  {
    hide OnOwnQueue, Cleared, Concluded;
    ConcludedProcesses(db, q, message, outcome, worker);
    ProcessedClears(db, Concluded(db, q, message.id, message.body, outcome, worker), q, {message.id}, scope);
  }

  lemma ProcessedClears(db: Db, db': Db, q: string, ids: set<nat>, scope: Scope)
    requires Processed(db, db', q, ids)
    ensures Cleared(db, db', q, ids, scope)
  {
    hide OnOwnQueue;
  }

  lemma ConcludedProcesses(db: Db, q: string, message: Message, outcome: Outcome, worker: string)
    requires OnOwnQueue(db) && BelongsTo(message, q)
    ensures var db' := Concluded(db, q, message.id, message.body, outcome, worker);
            Processed(db, db', q, {message.id}) && OnOwnQueue(db')
  {
    hide OnOwnQueue, Task.RetryLimit, Task.WithState, Queue.Fail;
    if message.body.Data? && outcome.Broken? {
      var started := message.body.task.Received(message.id).Started(outcome.now, worker);
      var score := Unix(outcome.failedAt + outcome.delay);
      FailStream(db.At(q), started, outcome.err, score, message.id);
    }
    ProcessedStaysOwn(db, Concluded(db, q, message.id, message.body, outcome, worker), q, {message.id});
  }

  lemma IdsSnoc(messages: seq<Message>, i: nat)
    requires i < |messages|
    ensures Redis.Ids(messages[..i + 1]) == Redis.Ids(messages[..i]) + {messages[i].id}
  {
    assert messages[..i + 1] == messages[..i] + [messages[i]];
  }

  /** One more message, with what others do before it and during it. */
  lemma ClearedMore(start: Db, turn: Db, db: Db, gated: Db, middle: Db, now: Db, q: string, ids: set<nat>, id: nat,
      scope: Scope)
    requires Cleared(start, turn, q, ids, scope) && Shrinks(turn, db, scope) && Shrinks(db, gated, scope)
    requires Shrinks(gated, middle, scope) && Cleared(middle, now, q, {id}, scope)
    ensures Cleared(start, now, q, ids + {id}, scope)
  {
    hide Guarded, Shrinks;
    ShrinksOn(turn, db, gated, scope);
    ShrinksOn(turn, gated, middle, scope);
    ShrinksOn(turn, middle, now, scope);
    ShrinksOn(start, turn, now, scope);
    ShrinksAt(turn, now, scope, q);
  }

  lemma ClearedShrinks(read: Db, now: Db, q: string, messages: seq<Message>, scope: Scope)
    requires messages != [] && Cleared(read, now, q, Redis.Ids(messages), scope)
    ensures Guarded(now, q, scope) <= Guarded(read, q, scope) - Redis.Ids(messages)
    ensures messages[0].id in Redis.Ids(messages)
  {
    ShrinksAt(read, now, scope, q);
    assert messages[0] in messages;
  }

  /** The pending messages of other consumers are what they were. */
  ghost predicate OthersKeep(before: Stream, after: Stream, consumer: string)
  {
    && (forall id :: id in before.pel && before.pel[id].consumer != consumer
           ==> id in after.pel && after.pel[id] == before.pel[id])
    && (forall id :: id in after.pel && after.pel[id].consumer != consumer
           ==> id in before.pel && before.pel[id] == after.pel[id])
  }

  lemma OthersKeepOn(a: Stream, b: Stream, c: Stream, consumer: string)
    requires OthersKeep(a, b, consumer) && OthersKeep(b, c, consumer)
    ensures OthersKeep(a, c, consumer)
  {
  }

  /** The messages `ids` are no longer pending; messages may have left the streams, but none has come or changed. */
  ghost predicate Processed(db: Db, db': Db, q: string, ids: set<nat>)
  {
    && db'.At(q).stream.pel == db.At(q).stream.pel - ids && db'.At(q).stream.cursor == db.At(q).stream.cursor
    && (forall other :: other != q ==> db'.At(other).stream == db.At(other).stream)
    && (forall id :: id in db'.At(q).stream.entries
           ==> id in db.At(q).stream.entries && db'.At(q).stream.entries[id] == db.At(q).stream.entries[id])
  }

  lemma SettledProcesses(db: Db, q: string, message: Message, reply: GateReply, outcome: Outcome, worker: string)
    requires OnOwnQueue(db) && BelongsTo(message, q)
    ensures Processed(db, Settled(db, q, message.id, message.body, reply, outcome, worker), q, {message.id})
  {
    hide OnOwnQueue, Concluded;
    GatedFollows(db, message.body, reply, ForGroup);
    ConcludedProcesses(Gated(db, message.body, reply), q, message, outcome, worker);
  }

  lemma FailStream(k: Queue, task: Task, err: string, score: int, id: nat)
    requires task.Meta().streamMsgID == Some(id)
    ensures k.Fail(task, err, score).stream == k.stream.Ack(id).Del(id)
  {
    hide Task.WithState, Task.RetryLimit, Task.RetryCount;
    assert task.Failed(err).Meta().streamMsgID == Some(id);
  }

  lemma ProcessedStaysOwn(db: Db, db': Db, q: string, ids: set<nat>)
    requires OnOwnQueue(db)
    ensures Processed(db, db', q, ids) ==> OnOwnQueue(db')
  {
    if Processed(db, db', q, ids) {
      forall other, id
        ensures BelongsTo(Fetch(db'.At(other).stream, id), other)
      {
        OwnQueueAt(db, other, id);
      }
      IsOnOwnQueue(db');
    }
  }

  lemma ProcessedMore(db: Db, db1: Db, db2: Db, q: string, ids: set<nat>, id: nat)
    requires Processed(db, db1, q, ids) && Processed(db1, db2, q, {id})
    ensures Processed(db, db2, q, ids + {id})
  {
  }

  lemma {:induction false} ReadAllEffect(stream: Stream, messages: seq<Message>, consumer: string)
    ensures var after := ReadAll(stream, messages, consumer);
            && after.entries == stream.entries && after.pel - Redis.Ids(messages) == stream.pel - Redis.Ids(messages)
            && after.cursor == if messages == [] then stream.cursor else messages[|messages| - 1].id + 1
    decreases |messages|
  {
    if messages != [] {
      var (id, rest) := (messages[0].id, messages[1..]);
      ReadAllEffect(stream.ReadNew(id, consumer), rest, consumer);
      assert messages == [messages[0]] + rest;
      assert Redis.Ids(messages) == {id} + Redis.Ids(rest);
      var after := ReadAll(stream, messages, consumer);
      assert after.pel - Redis.Ids(messages) == after.pel - Redis.Ids(rest) - {id};
      assert stream.pel - Redis.Ids(messages) == stream.ReadNew(id, consumer).pel - Redis.Ids(rest) - {id};
    }
  }

  lemma ReadNewStaysOwn(db: Db, db': Db, q: string)
    requires OnOwnQueue(db) && forall other :: db'.At(other).stream.entries == db.At(other).stream.entries
    ensures OnOwnQueue(db')
  {
    hide OnOwnQueue;
    forall other, id
      ensures BelongsTo(Fetch(db'.At(other).stream, id), other)
    {
      OwnQueueAt(db, other, id);
    }
    IsOnOwnQueue(db');
  }

  predicate AllBelong(messages: seq<Message>, q: string)
  {
    forall m :: m in messages ==> BelongsTo(m, q)
  }

  lemma IsAllBelong(messages: seq<Message>, q: string)
    requires forall m :: m in messages ==> BelongsTo(m, q)
    ensures AllBelong(messages, q)
  {
  }

  /** None of the messages in the first `n` replies is pending. */
  ghost predicate AllCleared(db: Db, queues: seq<string>, replies: seq<seq<Message>>, n: nat)
  {
    forall j :: 0 <= j < n && j < |queues| && j < |replies| ==>
      db.At(queues[j]).stream.pel.Keys !! Redis.Ids(replies[j])
  }

  lemma TakesAll(queues: seq<string>, replies: seq<seq<Message>>, j: nat)
    requires j < |queues| == |replies|
    ensures Redis.Ids(replies[j]) <= Taken(queues, replies, queues[j])
  {
    forall m | m in replies[j]
      ensures m.id in Taken(queues, replies, queues[j])
    {
      TakesOne(queues, replies, j, m);
    }
  }

  lemma TakesOne(queues: seq<string>, replies: seq<seq<Message>>, j: nat, m: Message)
    requires j < |queues| && j < |replies| && m in replies[j]
    ensures m.id in Taken(queues, replies, queues[j])
  {
    var q := queues[j];
    assert 0 <= j < |replies| && j < |queues| && queues[j] == q && m in replies[j];
  }

  lemma BatchIsCleared(read: Db, now: Db, q: string, messages: seq<Message>, scope: Scope)
    requires scope == ForBatch(map[q := Redis.Ids(messages)]) && Cleared(read, now, q, Redis.Ids(messages), scope)
    ensures now.At(q).stream.pel.Keys !! Redis.Ids(messages)
  {
  }

  /** The messages that the replies have for queue `q`. */
  function Taken(queues: seq<string>, replies: seq<seq<Message>>, q: string): set<nat>
  {
    set j, m | 0 <= j < |replies| && j < |queues| && queues[j] == q && m in replies[j] :: m.id
  }

  /** What has become pending is among these messages. */
  ghost predicate Grows(db: Db, db': Db, queues: seq<string>, replies: seq<seq<Message>>, scope: Scope)
  {
    forall q :: Guarded(db', q, scope) <= Guarded(db, q, scope) + Taken(queues, replies, q)
  }

  lemma NewAreCleared(before: Db, read: Db, now: Db, q: string, messages: seq<Message>, scope: Scope)
    requires scope.ForConsumer? && read == before.Put(q, read.At(q))
    requires read.At(q).stream.pel - Redis.Ids(messages) == before.At(q).stream.pel - Redis.Ids(messages)
    requires Cleared(read, now, q, Redis.Ids(messages), scope)
    ensures Shrinks(before, now, scope)
  {
    forall other
      ensures Guarded(now, other, scope) <= Guarded(before, other, scope)
    {
      ShrinksAt(read, now, scope, other);
      if other == q {
        forall id | id in Guarded(now, q, scope)
          ensures id in Guarded(before, q, scope)
        {
          assert id in read.At(q).stream.pel - Redis.Ids(messages);
        }
      }
    }
  }

  lemma NewAreGone(before: Db, read: Db, now: Db, q: string, messages: seq<Message>)
    requires before.At(q).stream.WellFormed()
             && IsReply(before.At(q).stream, Undelivered(before.At(q).stream), messages)
    requires read.At(q).stream.pel - Redis.Ids(messages) == before.At(q).stream.pel - Redis.Ids(messages)
    requires Processed(read, now, q, Redis.Ids(messages))
    ensures now.At(q).stream.pel == before.At(q).stream.pel && now.At(q).stream.cursor == read.At(q).stream.cursor
  {
    assert forall id :: id in before.At(q).stream.pel ==> id !in Redis.Ids(messages);
  }

  lemma ReadKeeps(db: Db, q: string, messages: seq<Message>, consumer: string)
    requires OnOwnQueue(db) && IsReply(db.At(q).stream, Own(db.At(q).stream, consumer), messages)
    ensures var db' := db.Put(q, Redelivered(db.At(q), Redis.Ids(messages), consumer));
            && OnOwnQueue(db') && Shrinks(db, db', ForConsumer(consumer))
            && Own(db'.At(q).stream, consumer) == Own(db.At(q).stream, consumer)
            && OthersKeep(db.At(q).stream, db'.At(q).stream, consumer)
            && (forall other :: other != q ==> db'.At(other) == db.At(other))
  {
    var db' := db.Put(q, Redelivered(db.At(q), Redis.Ids(messages), consumer));
    assert Redis.Ids(messages) <= Own(db.At(q).stream, consumer);
    ReadNewStaysOwn(db, db', q);
    hide OnOwnQueue, IsReply;
    assert Own(db'.At(q).stream, consumer) == Own(db.At(q).stream, consumer);
  }

  lemma ClaimProcesses(start: Db, turn: Db, claimed: Db, now: Db, q: string, consumer: string,
      messages: seq<Message>, ids: set<nat>, gone: set<nat>)
    requires Processed(start, turn, q, ids) && AutoClaimed(turn, claimed, q, consumer, messages, gone)
    requires Processed(claimed, now, q, Redis.Ids(messages))
    ensures Processed(start, now, q, ids + gone + Redis.Ids(messages))
  {
    assert now.At(q).stream.pel == start.At(q).stream.pel - (ids + gone + Redis.Ids(messages));
  }

  lemma NothingClaimed(head: Db, turn: Db, read: Db, q: string, consumer: string, gone: set<nat>, alone: bool)
    requires AutoClaimed(turn, read, q, consumer, [], gone) && (alone ==> turn == head)
    ensures Redis.Ids([]) == {}
    ensures alone ==> Processed(head, read, q, gone + Redis.Ids([]))
  {
    hide AutoClaimed, Processed;
    NothingFollows(head, ForGroup);
    NothingFollows(read, ForGroup);
    assert Redis.Ids([]) == {} && {} + gone + {} == gone + {};
    if alone { ClaimProcesses(head, head, read, read, q, consumer, [], {}, gone); }
  }

  lemma ClaimKeeps(db: Db, db': Db, q: string, consumer: string, messages: seq<Message>, gone: set<nat>)
    requires OnOwnQueue(db) && AutoClaimed(db, db', q, consumer, messages, gone)
    requires IsReply(db.At(q).stream, (set id | id in db.At(q).stream.pel && id in db.At(q).stream.entries), messages)
    ensures OnOwnQueue(db') && Shrinks(db, db', ForGroup)
    ensures db'.At(q).stream.pel.Keys <= db.At(q).stream.pel.Keys
    ensures Redis.Ids(messages) <= db'.At(q).stream.pel.Keys
    ensures forall m :: m in messages ==> BelongsTo(m, q)
  {
    ReadNewStaysOwn(db, db', q);
    forall m | m in messages
      ensures BelongsTo(m, q)
    {
      OwnQueueAt(db, q, m.id);
    }
  }

  lemma FetchedBelong(db: Db, q: string, eligible: set<nat>, messages: seq<Message>)
    requires OnOwnQueue(db) && IsReply(db.At(q).stream, eligible, messages)
    ensures forall m :: m in messages ==> BelongsTo(m, q) && m.id in eligible
  {
    forall m | m in messages
      ensures BelongsTo(m, q) && m.id in eligible
    {
      OwnQueueAt(db, q, m.id);
    }
  }

  lemma ProcessedKeepsOthers(turn: Db, read: Db, db: Db, q: string, messages: seq<Message>, consumer: string)
    requires (forall m :: m in messages ==> m.id in Own(turn.At(q).stream, consumer))
    requires Own(read.At(q).stream, consumer) == Own(turn.At(q).stream, consumer)
    requires Processed(read, db, q, Redis.Ids(messages))
    ensures OthersKeep(read.At(q).stream, db.At(q).stream, consumer)
    ensures forall other :: other != q ==> db.At(other).stream == read.At(other).stream
  {
  }

  /** The invariant of the lifecycle gives what the recovery loops need. */
  lemma AffinityGivesOwnQueue(s: Sys)
    requires PlacesOk(s.db)
    ensures OnOwnQueue(s.db)
  {
    forall q, id
      ensures BelongsTo(Fetch(s.db.At(q).stream, id), q)
    {
      if s.db.At(q).stream.HasTask(id) { PlaceFits(s.db, q, InStream(id)); }
    }
    IsOnOwnQueue(s.db);
  }

  /** The step hands a message to somebody in this scope. */
  predicate TakesIn(a: Action, scope: Scope)
  {
    match scope
    case ForConsumer(consumer) => (a.Deliver? || a.Redeliver?) && a.consumer == consumer
    case ForGroup => a.Deliver?
    case ForBatch(_) => false
  }

  /** The messages of a batch have been delivered: an ID below the read position never comes back once it is gone. */
  ghost predicate IsDelivered(db: Db, scope: Scope)
  {
    scope.ForBatch? ==>
      forall q :: q in scope.batch ==> forall id :: id in scope.batch[q] ==> id < db.At(q).stream.cursor
  }

  lemma ReadIsDelivered(stream: Stream, messages: seq<Message>, consumer: string, db: Db, q: string)
    requires IsReply(stream, Undelivered(stream), messages) && db.At(q).stream == ReadAll(stream, messages, consumer)
    ensures IsDelivered(db, ForBatch(map[q := Redis.Ids(messages)]))
  {
    ReadAllEffect(stream, messages, consumer);
    forall m | m in messages
      ensures m.id < db.At(q).stream.cursor
    {
      var i :| 0 <= i < |messages| && messages[i] == m;
    }
  }

  /**
   The theorem on interference: all steps of the lifecycle but those are things that others may do meanwhile, and for
   a batch of delivered messages these are all steps.
   */
  lemma StepMayFollow(s: Sys, a: Action, scope: Scope)
    requires Base(s) && Enabled(s, a) && !TakesIn(a, scope) && IsDelivered(s.db, scope)
    ensures MayFollow(s.db, Apply(s, a).db, scope)
  {
    hide Apply, OnOwnQueue;
    BaseStep(s, a);
    AffinityGivesOwnQueue(Apply(s, a));
    forall q
      ensures Guarded(Apply(s, a).db, q, scope) <= Guarded(s.db, q, scope)
    {
      StepQueue(s, a, q);
      if q == Touched(s, a) { TouchedShrinks(s, a, scope); }
    }
  }

  lemma DeliveredStays(s: Sys, a: Action, scope: Scope)
    requires Base(s) && Enabled(s, a) && IsDelivered(s.db, scope)
    ensures IsDelivered(Apply(s, a).db, scope)
  {
    StepMoves(s, a);
    hide Apply, MoveOf, Touched;
    if scope.ForBatch? {
      forall q | q in scope.batch
        ensures forall id :: id in scope.batch[q] ==> id < Apply(s, a).db.At(q).stream.cursor
      {
        StreamLater(s.db, Apply(s, a).db, Touched(s, a), MoveOf(s, a), q);
      }
    }
  }

  lemma TouchedShrinks(s: Sys, a: Action, scope: Scope)
    requires Enabled(s, a) && !TakesIn(a, scope) && IsDelivered(s.db, scope)
    ensures GuardedIn(Touched(s, a), QueueAfter(s, a).stream, scope) <= Guarded(s.db, Touched(s, a), scope)
  {
    hide Task.Meta, Task.WithState, Task.RetryCount, Task.RetryLimit, Task.Redriven, Task.Failed, Task.Queue;
  }

  ghost predicate BatchesBelong(queues: seq<string>, replies: seq<seq<Message>>)
  {
    forall j :: 0 <= j < |queues| && j < |replies| ==> AllBelong(replies[j], queues[j])
  }

  lemma BatchBelongs(queues: seq<string>, replies: seq<seq<Message>>, i: nat)
    requires i < |queues| == |replies| && BatchesBelong(queues, replies)
    ensures forall m :: m in replies[i] ==> BelongsTo(m, queues[i])
  {
  }

  /** Nothing has become pending in this scope, and none of the messages in the first `n` replies is pending there. */
  ghost predicate BatchesCleared(db: Db, db': Db, queues: seq<string>, replies: seq<seq<Message>>, n: nat, scope: Scope)
  {
    Shrinks(db, db', scope) && forall j :: 0 <= j < n && j < |queues| && j < |replies| ==>
      Guarded(db', queues[j], scope) !! Redis.Ids(replies[j])
  }

  lemma NothingRead(db: Db, queues: seq<string>, scope: Scope, c: Config, alone: bool)
    ensures Grows(db, db, queues, [], scope) && BatchesBelong(queues, [])
    ensures Traced(db, [], [], db, AllItems(queues, [], 0), c, alone) && RunsOf([]) == []
    ensures forall consumer, count: nat :: AreReads([], queues, [], consumer, count)
  {
  }

  lemma GrowsRead(start: Db, before: Db, read: Db, queues: seq<string>, replies: seq<seq<Message>>,
      reply: seq<Message>, scope: Scope)
    requires |replies| < |queues| && scope.ForConsumer? && Grows(start, before, queues, replies, scope)
    requires var q := queues[|replies|];
             read == before.Put(q, read.At(q))
             && read.At(q).stream.pel - Redis.Ids(reply) == before.At(q).stream.pel - Redis.Ids(reply)
    ensures Grows(start, read, queues, replies + [reply], scope)
  {
    var all := replies + [reply];
    forall q, id | id in Guarded(read, q, scope)
      ensures id in Guarded(start, q, scope) + Taken(queues, all, q)
    {
      if q == queues[|replies|] && id in Redis.Ids(reply) {
        var m :| m in reply && m.id == id;
        assert m in all[|replies|];
      } else {
        if q == queues[|replies|] { assert id in read.At(q).stream.pel - Redis.Ids(reply); }
        assert id in Guarded(before, q, scope);
        if id in Taken(queues, replies, q) {
          var j, m :| 0 <= j < |replies| && j < |queues| && queues[j] == q && m in replies[j] && m.id == id;
          assert m in all[j];
        }
      }
    }
  }

  /** One more stream has been read. */
  lemma StreamRead(start: Db, before: Db, read: Db, queues: seq<string>, replies: seq<seq<Message>>,
      trace: seq<Event>, e: Event, c: Config, alone: bool)
    requires |replies| < |queues| && e.ReadNew? && e.queue == queues[|replies|] && AllBelong(e.messages, e.queue)
    requires Grows(start, before, queues, replies, ForConsumer(e.consumer)) && BatchesBelong(queues, replies)
    requires Traced(start, [], trace, before, AllItems(queues, replies, 0), c, alone)
    requires Possible(before, AllItems(queues, replies, 0), e, c)
    requires read == NextDb(before, AllItems(queues, replies, 0), e, c)
    requires read == before.Put(e.queue, read.At(e.queue))
    requires read.At(e.queue).stream.pel - Redis.Ids(e.messages)
             == before.At(e.queue).stream.pel - Redis.Ids(e.messages)
    ensures var all := replies + [e.messages];
            && Grows(start, read, queues, all, ForConsumer(e.consumer)) && BatchesBelong(queues, all)
            && Traced(start, [], trace + [e], read, AllItems(queues, all, 0), c, alone)
    ensures RunsOf(trace + [e]) == RunsOf(trace)
  {
    hide Grows, Traced, Possible, NextDb, AllItems, Items, RunsOf, AllBelong;
    GrowsRead(start, before, read, queues, replies, e.messages, ForConsumer(e.consumer));
    TracedSnoc(start, [], trace, before, AllItems(queues, replies, 0), e, c, alone);
    AllItemsSnoc(queues, replies, e.messages, 0);
    RunsSnoc(trace, e);
  }

  lemma NothingProcessed(db: Db, queues: seq<string>, replies: seq<seq<Message>>, scope: Scope, c: Config, alone: bool)
    ensures BatchesCleared(db, db, queues, replies, 0, scope) && RunsOf([]) == [] && OnlyTurns([])
    ensures Traced(db, AllItems(queues, replies, 0), [], db, AllItems(queues, replies, 0), c, alone)
    ensures |queues| == |replies| ==> AllItems(queues, replies, |queues|) == []
  {
    NothingFollows(db, scope);
  }

  /** The messages of one more stream have been processed. */
  lemma BatchProcessed(start: Db, before: Db, now: Db, queues: seq<string>, replies: seq<seq<Message>>, i: nat,
      scope: Scope, items: seq<Item>, trace: seq<Event>, more: seq<Event>, c: Config, alone: bool)
    requires i < |queues| == |replies| && BatchesCleared(start, before, queues, replies, i, scope)
    requires Cleared(before, now, queues[i], Redis.Ids(replies[i]), scope) && OnlyTurns(more)
    requires Traced(start, items, trace, before, AllItems(queues, replies, i), c, alone)
    requires Traced(before, Items(queues[i], replies[i], true), more, now, [], c, alone)
    ensures BatchesCleared(start, now, queues, replies, i + 1, scope)
    ensures Traced(start, items, trace + more, now, AllItems(queues, replies, i + 1), c, alone)
  {
    hide Traced, Items, AllItems, Guarded, Shrinks, OnlyTurns;
    BatchTracedFrom(start, items, trace, before, queues, replies, i, more, now, c, alone);
    ShrinksOn(start, before, now, scope);
    forall j | 0 <= j <= i
      ensures Guarded(now, queues[j], scope) !! Redis.Ids(replies[j])
    {
      ShrinksAt(before, now, scope, queues[j]);
    }
  }

  lemma TakenAreCleared(read: Db, now: Db, queues: seq<string>, replies: seq<seq<Message>>, scope: Scope, q: string)
    requires |replies| == |queues| && BatchesCleared(read, now, queues, replies, |queues|, scope)
    ensures Guarded(now, q, scope) !! Taken(queues, replies, q)
  {
    hide Guarded, Shrinks;
    forall id | id in Taken(queues, replies, q)
      ensures id !in Guarded(now, q, scope)
    {
      var j, m :| 0 <= j < |replies| && j < |queues| && queues[j] == q && m in replies[j] && m.id == id;
      assert id in Redis.Ids(replies[j]);
    }
  }

  lemma EverythingProcessed(start: Db, read: Db, now: Db, queues: seq<string>, replies: seq<seq<Message>>,
      scope: Scope)
    requires |replies| == |queues| && Grows(start, read, queues, replies, scope)
    requires BatchesCleared(read, now, queues, replies, |queues|, scope)
    ensures Shrinks(start, now, scope)
  {
    hide Guarded, Taken;
    forall q
      ensures Guarded(now, q, scope) <= Guarded(start, q, scope)
    {
      ShrinksAt(read, now, scope, q);
      TakenAreCleared(read, now, queues, replies, scope, q);
    }
  }

  lemma EverythingCleared(read: Db, now: Db, queues: seq<string>, replies: seq<seq<Message>>)
    requires |replies| == |queues|
    requires BatchesCleared(read, now, queues, replies, |queues|,
                            ForBatch(map q | q in queues :: Taken(queues, replies, q)))
    ensures AllCleared(now, queues, replies, |queues|)
  {
    forall j | 0 <= j < |queues|
      ensures now.At(queues[j]).stream.pel.Keys !! Redis.Ids(replies[j])
    {
      TakesAll(queues, replies, j);
      assert queues[j] in queues;
    }
  }

  /** The events begin with one read of each stream. */
  predicate AreReads(trace: seq<Event>, queues: seq<string>, replies: seq<seq<Message>>, consumer: string, count: int)
  {
    |trace| >= |replies| && |queues| >= |replies| && count >= 0
    && forall i :: 0 <= i < |replies| ==> trace[i] == ReadNew(queues[i], consumer, count, replies[i])
  }

  lemma ReadsSnoc(trace: seq<Event>, queues: seq<string>, replies: seq<seq<Message>>, e: Event)
    requires |trace| == |replies| < |queues| && e.ReadNew? && e.queue == queues[|replies|]
    requires AreReads(trace, queues, replies, e.consumer, e.count)
    ensures AreReads(trace + [e], queues, replies + [e.messages], e.consumer, e.count)
  {
  }

  lemma ReadsFirst(taken: seq<Event>, trace: seq<Event>, queues: seq<string>, replies: seq<seq<Message>>,
      consumer: string, count: int)
    requires |taken| == |replies| <= |trace| && trace[..|replies|] == taken
    requires AreReads(taken, queues, replies, consumer, count)
    ensures AreReads(trace, queues, replies, consumer, count)
  {
    assert forall i :: 0 <= i < |replies| ==> trace[i] == trace[..|replies|][i];
  }

  /** The last event is a claim that has found nothing. */
  predicate EndsDrained(trace: seq<Event>, q: string, consumer: string)
  {
    trace != [] && var last := trace[|trace| - 1];
                   last.Claim? && last.queue == q && last.consumer == consumer && last.messages == []
  }

  lemma TurnsAppend(a: seq<Event>, b: seq<Event>)
    requires OnlyTurns(a) && OnlyTurns(b)
    ensures OnlyTurns(a + b)
  {
  }
}
