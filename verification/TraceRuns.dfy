/**
 The loops of a worker, in the company of clients, schedulers, redrives and other workers, taken apart into the steps
 of the lifecycle: whatever they do is a run of it.
 */
module TraceRuns {
  import opened Wrappers
  import opened Tasks
  import opened Streams
  import opened Keys
  import opened Lifecycle
  import opened Places
  import opened Affinity
  import opened NoLoss
  import opened Ownership
  import opened Redis
  import opened Turns
  import opened Interference
  import opened WorkerRuns
  import opened ReadRuns
  import opened Backoff

  /** A queue without keys and one whose keys are empty are the same. */
  ghost predicate SameKeys(a: Db, b: Db)
  {
    (forall q :: a.At(q) == b.At(q)) && a.known == b.known && a.processed == b.processed && a.unique == b.unique
  }

  ghost predicate PendingExist(db: Db)
  {
    forall q :: db.At(q).stream.pel.Keys <= db.At(q).stream.entries.Keys
  }

  lemma PendingStep(s: Sys, a: Action)
    requires Enabled(s, a) && AllIdsOk(s.db) && PendingExist(s.db)
    ensures PendingExist(Apply(s, a).db)
  {
    hide Apply, Enabled;
    forall q
      ensures Apply(s, a).db.At(q).stream.pel.Keys <= Apply(s, a).db.At(q).stream.entries.Keys
    {
      StepQueue(s, a, q);
      if q == Touched(s, a) { PendingAfter(s, a); }
    }
  }

  lemma PendingAfter(s: Sys, a: Action)
    requires Enabled(s, a) && IdsOk(s.db.At(Touched(s, a)))
    requires s.db.At(Touched(s, a)).stream.pel.Keys <= s.db.At(Touched(s, a)).stream.entries.Keys
    ensures QueueAfter(s, a).stream.pel.Keys <= QueueAfter(s, a).stream.entries.Keys
  {
    hide Task.WithState, Task.Failed, Task.Redriven, Task.RetryLimit, Task.RetryCount, Task.Queue, Task.Meta;
  }

  /** What every run keeps. In all that strego does itself, a message leaves the stream with its pending entry. */
  ghost predicate Sound(s: Sys)
  {
    Safe(s) && PendingExist(s.db)
  }

  lemma {:induction false} SoundAlways(s: Sys, actions: seq<Action>)
    requires Sound(s) && IsRun(s, actions)
    ensures Sound(After(s, actions))
    decreases |actions|
  {
    hide Safe, Apply, Enabled, PendingExist;
    if actions != [] {
      SafeStep(s, actions[0]);
      SafeHasIds(s);
      PendingStep(s, actions[0]);
      SoundAlways(Apply(s, actions[0]), actions[1..]);
    }
  }

  lemma SafeHasIds(s: Sys)
    requires Safe(s)
    ensures AllIdsOk(s.db) && PlacesOk(s.db)
  {
  }

  lemma InitSound()
    ensures Sound(INIT)
  {
  }

  function HolderOf(item: Item): Holder
    requires item.message.body.Data?
  {
    Holder(item.queue, item.message.id, item.message.body.task.Received(item.message.id), Received, item.first)
  }

  /** What is left of the message in its stream, if anything, is what the worker has read. */
  predicate IsLeft(db: Db, item: Item)
  {
    var stream := db.At(item.queue).stream;
    && item.message.id < stream.next
    && (item.message.id in stream.entries ==> stream.entries[item.message.id] == item.message.body)
  }

  /** Delivery number `h` of the lifecycle stands for the message in the hands of the worker. */
  predicate StandsFor(holders: map<nat, Holder>, h: nat, item: Item)
  {
    item.message.body.Data? ==> h in holders && holders[h] == HolderOf(item)
  }

  ghost predicate Holding(s: Sys, held: seq<Item>, handles: seq<nat>)
  {
    && |handles| == |held|
    && (forall i :: 0 <= i < |held| ==> IsLeft(s.db, held[i]) && StandsFor(s.holders, handles[i], held[i]))
    && (forall i, j :: 0 <= i < j < |held| && held[i].message.body.Data? && held[j].message.body.Data? ==>
          handles[i] != handles[j])
  }

  /** The keys and the worker's memory are those of the state. */
  ghost predicate Mirrors(s: Sys, db: Db, held: seq<Item>, handles: seq<nat>)
  {
    Sound(s) && SameKeys(s.db, db) && Holding(s, held, handles)
  }

  /** The deliveries that stand for these messages. */
  function Taken(held: seq<Item>, handles: seq<nat>): set<nat>
  {
    set i | 0 <= i < |held| && i < |handles| && held[i].message.body.Data? :: handles[i]
  }

  /** The deliveries of everybody else. */
  function Elsewhere(holders: map<nat, Holder>, held: seq<Item>, handles: seq<nat>): map<nat, Holder>
  {
    holders - Taken(held, handles)
  }

  lemma {:induction false} FreshExists(holders: map<nat, Holder>) returns (h: nat)
    ensures forall k :: k in holders ==> k < h
    decreases |holders|
  {
    if holders == map[] {
      h := 0;
    } else {
      var k :| k in holders;
      assert (holders - {k}).Keys == holders.Keys - {k};
      var rest := FreshExists(holders - {k});
      h := if rest <= k then k + 1 else rest;
      forall k' | k' in holders
        ensures k' < h
      {
        assert k' == k || k' in holders - {k};
      }
    }
  }

  lemma HasFresh(holders: map<nat, Holder>)
    ensures exists h: nat :: IsAbove(holders, h)
  {
    var h := FreshExists(holders);
    assert IsAbove(holders, h);
  }

  ghost predicate IsAbove(holders: map<nat, Holder>, h: nat)
  {
    forall k :: k in holders ==> k < h
  }

  /** A number above those of all deliveries. */
  ghost function Fresh(holders: map<nat, Holder>): (h: nat)
    ensures IsAbove(holders, h)
  {
    HasFresh(holders);
    var h: nat :| IsAbove(holders, h);
    h
  }

  function Numbers(h: nat, count: nat): seq<nat>
  {
    seq(count, i requires 0 <= i < count => h + i)
  }

  ghost function NextHandles(holders: map<nat, Holder>, handles: seq<nat>, e: Event): seq<nat>
  {
    match e
    case ReadNew(_, _, _, messages) => handles + Numbers(Fresh(holders), |messages|)
    case ReadOwn(_, _, _, messages) => handles + Numbers(Fresh(holders), |messages|)
    case Claim(_, _, messages, _) => handles + Numbers(Fresh(holders), |messages|)
    case Others(_) => handles
    case Turn(_, _, _, _) => if handles == [] then [] else handles[1..]
  }

  /** The worker's own steps up to the run of the handler. */
  function First(held: seq<Item>, handles: seq<nat>, e: Event, worker: string): seq<Action>
  {
    if e.Turn? && held != [] && handles != [] && held[0].message.body.Data? then
      [GateStep(handles[0], e.reply, e.outcome, worker)]
    else []
  }

  /** And from its end on. A message without a task that is not pending any more needs no step. */
  function Last(db: Db, held: seq<Item>, handles: seq<nat>, e: Event): seq<Action>
  {
    if !e.Turn? || held == [] || handles == [] then []
    else if held[0].message.body.Data? then LastSteps(handles[0], e.outcome)
    else if held[0].message.id in db.At(held[0].queue).stream.pel then [AckJunk(held[0].queue, held[0].message.id)]
    else []
  }

  /** All the steps of one event, those of the others included. */
  ghost function Joint(s: Sys, held: seq<Item>, handles: seq<nat>, e: Event, others: seq<Action>, worker: string)
    : seq<Action>
  {
    match e
    case ReadNew(q, consumer, _, messages) => Deliveries(q, messages, consumer, Fresh(s.holders), true)
    case ReadOwn(q, consumer, _, messages) => Deliveries(q, messages, consumer, Fresh(s.holders), false)
    case Claim(q, consumer, messages, _) => Deliveries(q, messages, consumer, Fresh(s.holders), false)
    case Others(_) => others
    case Turn(_, _, _, _) =>
      var begun := First(held, handles, e, worker) + others;
      if IsRun(s, begun) then begun + Last(After(s, begun).db, held, handles, e) else begun
  }

  /** The others do not act as this worker. */
  predicate Spares(others: seq<Action>, held: seq<Item>, handles: seq<nat>)
  {
    forall a, i :: a in others && 0 <= i < |held| && i < |handles| && held[i].message.body.Data? ==>
      Actor(a) != Some(handles[i])
  }

  /**
   `others` are possible steps of the others at this event, and they leave the keys that the event shows. Under the
   rules of `Ownership`, nobody holds a message that is delivered again.
   */
  ghost predicate Fits(s: Sys, held: seq<Item>, handles: seq<nat>, e: Event, others: seq<Action>, worker: string,
      owned: bool)
  {
    && Spares(others, held, handles)
    && match e
       case ReadNew(_, _, _, _) => others == []
       case ReadOwn(q, _, _, messages) => others == [] && (owned ==> NobodyHolds(s, q, messages))
       case Claim(q, _, messages, _) => others == [] && (owned ==> NobodyHolds(s, q, messages))
       case Others(after) =>
         IsRun(s, others) && (owned ==> IsOwnedRun(s, others)) && SameKeys(After(s, others).db, after)
       case Turn(_, middle, _, _) =>
         IsRun(s, First(held, handles, e, worker)) ==>
           var s1 := After(s, First(held, handles, e, worker));
           && IsRun(s1, others) && (owned ==> IsOwnedRun(s1, others)) && SameKeys(After(s1, others).db, middle)
  }

  /** At every event, the company does steps of the lifecycle. */
  ghost predicate Accompanied(s: Sys, held: seq<Item>, handles: seq<nat>, trace: seq<Event>,
      company: seq<seq<Action>>, worker: string, owned: bool)
    decreases |trace|
  {
    |company| == |trace| &&
    (trace != [] ==>
      && Fits(s, held, handles, trace[0], company[0], worker, owned)
      && (var steps := Joint(s, held, handles, trace[0], company[0], worker);
          IsRun(s, steps) ==>
            Accompanied(After(s, steps), NextHeld(held, trace[0]), NextHandles(s.holders, handles, trace[0]),
                        trace[1..], company[1..], worker, owned)))
  }

  /** The steps of a whole trace. */
  ghost function AllSteps(s: Sys, held: seq<Item>, handles: seq<nat>, trace: seq<Event>, company: seq<seq<Action>>,
      worker: string): seq<Action>
    requires |company| == |trace|
    decreases |trace|
  {
    if trace == [] then []
    else
      var steps := Joint(s, held, handles, trace[0], company[0], worker);
      if IsRun(s, steps) then
        steps + AllSteps(After(s, steps), NextHeld(held, trace[0]), NextHandles(s.holders, handles, trace[0]),
                         trace[1..], company[1..], worker)
      else steps
  }

  function Successes(runs: seq<HandlerRun>): set<string>
  {
    set r | r in runs && r.answer.None? :: r.task.id
  }

  /** A run in which these tasks have succeeded and, if `alone`, no others, and nothing else has been recorded. */
  ghost predicate Achieves(s: Sys, s': Sys, successes: set<string>, alone: bool)
  {
    && s.succeeded + successes <= s'.succeeded
    && (alone ==> s'.succeeded == s.succeeded + successes && s'.accepted == s.accepted && s'.crashed == s.crashed)
  }

  lemma {:induction false} RunSpares(s: Sys, actions: seq<Action>, h: nat)
    requires IsRun(s, actions) && h in s.holders && forall a :: a in actions ==> Actor(a) != Some(h)
    ensures h in After(s, actions).holders && After(s, actions).holders[h] == s.holders[h]
    decreases |actions|
  {
    hide Apply, Enabled, Actor;
    if actions != [] {
      assert actions[0] in actions && forall a :: a in actions[1..] ==> a in actions;
      OthersStay(s, actions[0], h);
      RunSpares(Apply(s, actions[0]), actions[1..], h);
    }
  }

  lemma {:induction false} RunLater(s: Sys, actions: seq<Action>, q: string)
    requires Sound(s) && IsRun(s, actions)
    ensures Later(s.db.At(q).stream, After(s, actions).db.At(q).stream)
    decreases |actions|
  {
    hide Apply, Enabled, Safe, PendingExist, AllIdsOk, MoveOf, Touched;
    if actions != [] {
      var a := actions[0];
      SafeHasIds(s);
      StepMoves(s, a);
      StreamLater(s.db, Apply(s, a).db, Touched(s, a), MoveOf(s, a), q);
      SafeStep(s, a);
      PendingStep(s, a);
      RunLater(Apply(s, a), actions[1..], q);
    }
  }

  /** What the worker holds, it keeps while others act. */
  lemma HoldingStays(s: Sys, actions: seq<Action>, held: seq<Item>, handles: seq<nat>)
    requires Sound(s) && IsRun(s, actions) && Holding(s, held, handles) && Spares(actions, held, handles)
    ensures Holding(After(s, actions), held, handles)
  {
    hide IsRun, After, Sound, HolderOf, Actor;
    var s' := After(s, actions);
    forall i | 0 <= i < |held|
      ensures IsLeft(s'.db, held[i]) && StandsFor(s'.holders, handles[i], held[i])
    {
      assert IsLeft(s.db, held[i]) && StandsFor(s.holders, handles[i], held[i]);
      RunLater(s, actions, held[i].queue);
      if held[i].message.body.Data? { RunSpares(s, actions, handles[i]); }
    }
  }

  lemma {:induction false} HeldAllAt(
      holders: map<nat, Holder>, q: string, messages: seq<Message>, h: nat, first: bool, k: nat)
    ensures var all := HeldAll(holders, q, messages, h, first);
            if h <= k < h + |messages| && messages[k - h].body.Data?
            then k in all && all[k] == HolderOf(Item(q, messages[k - h], first))
            else (k in all <==> k in holders) && (k in all ==> all[k] == holders[k])
    decreases |messages|
  {
    if messages != [] {
      var m := messages[0];
      var held := if m.body.Data? then holders[h := Holder(q, m.id, m.body.task.Received(m.id), Received, first)]
                  else holders;
      HeldAllAt(held, q, messages[1..], h + 1, first, k);
    }
  }

  lemma MoreItems(held: seq<Item>, q: string, messages: seq<Message>, first: bool)
    ensures var more := held + Items(q, messages, first);
            |more| == |held| + |messages|
            && forall i :: 0 <= i < |more| ==>
                 more[i] == if i < |held| then held[i] else Item(q, messages[i - |held|], first)
  {
  }

  lemma SameAt(a: Db, b: Db, q: string)
    requires SameKeys(a, b)
    ensures a.At(q) == b.At(q) && a.processed == b.processed
  {
  }

  lemma OnlyStreamSame(s: Sys, s': Sys, db: Db, q: string, stream: Stream, holders: map<nat, Holder>)
    requires SameKeys(s.db, db) && OnlyStream(s, s', q, stream, holders)
    ensures SameKeys(s'.db, db.Put(q, db.At(q).(stream := stream)))
  {
  }

  lemma OnlyStreamRecords(s: Sys, s': Sys, q: string, stream: Stream, holders: map<nat, Holder>)
    requires OnlyStream(s, s', q, stream, holders)
    ensures s'.holders == holders && s'.db.At(q) == s.db.At(q).(stream := stream)
    ensures forall other :: other != q ==> s'.db.At(other) == s.db.At(other)
    ensures s'.accepted == s.accepted && s'.succeeded == s.succeeded && s'.crashed == s.crashed
  {
  }

  lemma RedeliveredOnlyStream(k: Queue, ids: set<nat>, consumer: string)
    ensures k.(stream := Redelivered(k, ids, consumer).stream) == Redelivered(k, ids, consumer)
  {
  }

  lemma RepliesArePending(s: Sys, db: Db, q: string, e: Event, c: Config)
    requires Sound(s) && s.db.At(q) == db.At(q) && (e.ReadOwn? || e.Claim?) && e.queue == q && Possible(db, [], e, c)
    ensures IsPending(s.db.At(q).stream, e.messages)
    ensures forall i, j :: 0 <= i < j < |e.messages| ==> e.messages[i].id < e.messages[j].id
    ensures e.Claim? ==> Dropped(db.At(q), e.gone) == db.At(q)
  {
    assert s.db.At(q).stream.pel.Keys <= s.db.At(q).stream.entries.Keys;
    if e.Claim? { assert db.At(q).stream.pel - e.gone == db.At(q).stream.pel; }
  }

  lemma GatedSame(a: Db, b: Db, body: Body, reply: GateReply)
    requires SameKeys(a, b)
    ensures SameKeys(Gated(a, body, reply), Gated(b, body, reply))
  {
    hide PassGate;
    forall q
      ensures Gated(a, body, reply).At(q) == a.At(q) && Gated(b, body, reply).At(q) == b.At(q)
    {
    }
  }

  lemma PutSame(a: Db, b: Db, q: string, k: Queue)
    requires SameKeys(a, b)
    ensures SameKeys(a.Put(q, k), b.Put(q, k))
  {
    forall other
      ensures a.Put(q, k).At(other) == b.Put(q, k).At(other)
    {
      SameAt(a, b, other);
    }
  }

  lemma ConcludedSame(a: Db, b: Db, q: string, id: nat, body: Body, outcome: Outcome, worker: string)
    requires SameKeys(a, b)
    ensures SameKeys(Concluded(a, q, id, body, outcome, worker), Concluded(b, q, id, body, outcome, worker))
  {
    hide SameKeys, Queue.Fail, Queue.Ack, Stream.Ack, Task.Started, Task.Received, Task.Queue;
    SameAt(a, b, q);
    if body.Data? && outcome.Broken? {
      var own := body.task.Queue();
      var started := body.task.Received(id).Started(outcome.now, worker);
      SameAt(a, b, own);
      PutSame(a, b, own, a.At(own).Fail(started, outcome.err, Unix(outcome.failedAt + outcome.delay)));
    } else if body.Data? {
      PutSame(a, b, q, a.At(q).Ack(id));
    } else {
      PutSame(a, b, q, a.At(q).(stream := a.At(q).stream.Ack(id)));
    }
  }

  lemma TurnSuccesses(db: Db, message: Message, reply: GateReply, runs: seq<HandlerRun>, outcome: Outcome, c: Config)
    requires IsTurn(db, message, reply, runs, outcome, c)
    ensures Successes(runs) == if message.body.Data? && outcome.Finished? then {message.body.task.id} else {}
  {
    hide Delay;
    if |runs| == 1 { assert runs[0] in runs && forall r :: r in runs ==> r == runs[0]; }
  }

  lemma {:induction false} DeliveriesSpare(q: string, messages: seq<Message>, consumer: string, h: nat, first: bool)
    ensures forall a :: a in Deliveries(q, messages, consumer, h, first) ==> Actor(a) == None
    decreases |messages|
  {
    if messages != [] { DeliveriesSpare(q, messages[1..], consumer, h + 1, first); }
  }

  /** The messages of a reply come into the hands of the worker. */
  lemma ReadHolds(s: Sys, s': Sys, held: seq<Item>, handles: seq<nat>, q: string, messages: seq<Message>, first: bool)
    requires Holding(s, held, handles) && Holding(s', held, handles)
    requires s'.holders == HeldAll(s.holders, q, messages, Fresh(s.holders), first)
    requires forall m :: m in messages ==> IsLeft(s'.db, Item(q, m, first))
    ensures Holding(s', held + Items(q, messages, first), handles + Numbers(Fresh(s.holders), |messages|))
  {
    hide HolderOf, Items, HeldAll, IsLeft, Numbers;
    var h := Fresh(s.holders);
    var (more, all) := (held + Items(q, messages, first), handles + Numbers(h, |messages|));
    MoreItems(held, q, messages, first);
    MoreNumbers(handles, h, |messages|);
    forall i | 0 <= i < |more|
      ensures IsLeft(s'.db, more[i]) && StandsFor(s'.holders, all[i], more[i])
    {
      if i < |held| {
        assert StandsFor(s'.holders, handles[i], held[i]);
      } else {
        assert messages[i - |held|] in messages;
        HeldAllAt(s.holders, q, messages, h, first, all[i]);
      }
    }
    forall i, j | 0 <= i < j < |more| && more[i].message.body.Data? && more[j].message.body.Data?
      ensures all[i] != all[j]
    {
      if i < |held| {
        assert StandsFor(s.holders, handles[i], held[i]);
        assert handles[i] < h;
      }
    }
  }

  lemma MoreNumbers(handles: seq<nat>, h: nat, count: nat)
    ensures var all := handles + Numbers(h, count);
            && |all| == |handles| + count
            && forall i :: 0 <= i < |all| ==> all[i] == if i < |handles| then handles[i] else h + i - |handles|
  {
  }

  /** A read of new messages. */
  lemma ReadNewMirrors(s: Sys, db: Db, held: seq<Item>, handles: seq<nat>, e: Event, c: Config)
    requires Mirrors(s, db, held, handles) && e.ReadNew? && Possible(db, held, e, c)
    ensures var steps := Joint(s, held, handles, e, [], c.worker);
            && IsRun(s, steps) && IsOwnedRun(s, steps) && Achieves(s, After(s, steps), {}, true)
            && Mirrors(After(s, steps), NextDb(db, held, e, c), NextHeld(held, e),
                       NextHandles(s.holders, handles, e))
            && After(s, steps).holders == HeldAll(s.holders, e.queue, e.messages, Fresh(s.holders), true)
  {
    hide Sound, SameKeys, Holding, IsReply, AreFirst, Undelivered, OnlyStream, Items, HeldAll, IsRun, IsOwnedRun, After,
      Numbers, IsFree, IsAbove, IsLeft;
    var (q, messages, h) := (e.queue, e.messages, Fresh(s.holders));
    assert s.db.At(q) == db.At(q) by { SameAt(s.db, db, q); }
    FreshIsFree(s);
    var steps := Deliveries(q, messages, e.consumer, h, true);
    ReadNewIsRun(s, q, messages, e.count, e.consumer, h);
    var s' := After(s, steps);
    var stream := ReadAll(db.At(q).stream, messages, e.consumer);
    OnlyStreamRecords(s, s', q, stream, HeldAll(s.holders, q, messages, h, true));
    OnlyStreamSame(s, s', db, q, stream, HeldAll(s.holders, q, messages, h, true));
    SoundAlways(s, steps);
    DeliveriesSpare(q, messages, e.consumer, h, true);
    HoldingStays(s, steps, held, handles);
    NewAreLeft(s, s', q, messages, e.consumer);
    ReadHolds(s, s', held, handles, q, messages, true);
  }

  lemma FreshIsFree(s: Sys)
    ensures IsFree(s, Fresh(s.holders))
  {
  }

  lemma NewAreLeft(s: Sys, s': Sys, q: string, messages: seq<Message>, consumer: string)
    requires Sound(s) && IsReply(s.db.At(q).stream, Undelivered(s.db.At(q).stream), messages)
    requires s'.db.At(q).stream == ReadAll(s.db.At(q).stream, messages, consumer)
    ensures forall m :: m in messages ==> IsLeft(s'.db, Item(q, m, true))
  {
    hide Safe, PendingExist;
    SafeHasIds(s);
    assert IdsOk(s.db.At(q));
    ReadAllEffect(s.db.At(q).stream, messages, consumer);
    ReadAllNext(s.db.At(q).stream, messages, consumer);
  }

  lemma {:induction false} ReadAllNext(stream: Stream, messages: seq<Message>, consumer: string)
    ensures ReadAll(stream, messages, consumer).next == stream.next
    decreases |messages|
  {
    if messages != [] { ReadAllNext(stream.ReadNew(messages[0].id, consumer), messages[1..], consumer); }
  }

  /** A read of the worker's own pending messages, or a claim. */
  lemma RereadMirrors(s: Sys, db: Db, e: Event, c: Config, owned: bool)
    requires Mirrors(s, db, [], []) && (e.ReadOwn? || e.Claim?) && Possible(db, [], e, c)
    requires owned ==> NobodyHolds(s, e.queue, e.messages)
    ensures var steps := Joint(s, [], [], e, [], c.worker);
            && IsRun(s, steps) && (owned ==> IsOwnedRun(s, steps)) && Achieves(s, After(s, steps), {}, true)
            && Mirrors(After(s, steps), NextDb(db, [], e, c), NextHeld([], e), NextHandles(s.holders, [], e))
            && After(s, steps).holders == HeldAll(s.holders, e.queue, e.messages, Fresh(s.holders), false)
  {
    hide Sound, SameKeys, Holding, IsReply, AreFirst, OnlyStream, Items, HeldAll, Redelivered, NobodyHolds,
      Claimable, Redis.Own, IsRun, IsOwnedRun, After, Numbers, IsFree, IsAbove, IsLeft, IsPending;
    var (q, messages, h) := (e.queue, e.messages, Fresh(s.holders));
    assert s.db.At(q) == db.At(q) by { SameAt(s.db, db, q); }
    FreshIsFree(s);
    RepliesArePending(s, db, q, e, c);
    var steps := Deliveries(q, messages, e.consumer, h, false);
    RereadIsRun(s, q, messages, e.consumer, h);
    if owned { RereadIsOwnedRun(s, q, messages, e.consumer, h); }
    var s' := After(s, steps);
    var stream := Redelivered(s.db.At(q), Redis.Ids(messages), e.consumer).stream;
    OnlyStreamRecords(s, s', q, stream, HeldAll(s.holders, q, messages, h, false));
    OnlyStreamSame(s, s', db, q, stream, HeldAll(s.holders, q, messages, h, false));
    RedeliveredOnlyStream(s.db.At(q), Redis.Ids(messages), e.consumer);
    SoundAlways(s, steps);
    DeliveriesSpare(q, messages, e.consumer, h, false);
    HoldingStays(s, steps, [], []);
    PendingAreLeft(s, s', q, messages, e.consumer);
    ReadHolds(s, s', [], [], q, messages, false);
  }

  lemma PendingAreLeft(s: Sys, s': Sys, q: string, messages: seq<Message>, consumer: string)
    requires Sound(s) && IsPending(s.db.At(q).stream, messages)
    requires s'.db.At(q).stream == Redelivered(s.db.At(q), Redis.Ids(messages), consumer).stream
    ensures forall m :: m in messages ==> IsLeft(s'.db, Item(q, m, false))
  {
    hide Safe, PendingExist;
    SafeHasIds(s);
    assert IdsOk(s.db.At(q));
  }

  lemma {:induction false} RunRecords(s: Sys, actions: seq<Action>)
    requires IsRun(s, actions)
    ensures s.succeeded <= After(s, actions).succeeded
    decreases |actions|
  {
    hide Apply, Enabled;
    if actions != [] {
      RecordsGrow(s, actions[0]);
      RunRecords(Apply(s, actions[0]), actions[1..]);
    }
  }

  lemma RunsAppended(s: Sys, a: seq<Action>, b: seq<Action>, owned: bool)
    requires IsRun(s, a) && IsRun(After(s, a), b)
    requires owned ==> IsOwnedRun(s, a) && IsOwnedRun(After(s, a), b)
    ensures IsRun(s, a + b) && After(s, a + b) == After(After(s, a), b) && (owned ==> IsOwnedRun(s, a + b))
  {
    RunAppend(s, a, b);
    if owned { OwnedAppend(s, a, b); }
  }

  lemma EmptyRun(s: Sys)
    ensures IsRun(s, []) && IsOwnedRun(s, []) && After(s, []) == s
  {
  }

  /** The worker's turn on a task, with others between its gate and the end of its handler. */
  lemma TurnOfTask(s: Sys, h: nat, item: Item, task: Task, e: Event, others: seq<Action>, worker: string, owned: bool)
    requires e.Turn? && item.message.body == Data(task) && StandsFor(s.holders, h, item)
    requires IsOutcome(s.db, item.message.body, e.reply, e.outcome)
    requires Fits(s, [item], [h], e, others, worker, owned)
    ensures var steps := Joint(s, [item], [h], e, others, worker);
            && IsRun(s, steps) && (owned ==> IsOwnedRun(s, steps))
            && (var s' := After(s, steps);
                && SameKeys(s'.db, Concluded(e.middle, item.queue, item.message.id, item.message.body, e.outcome,
                                             worker))
                && Achieves(s, s', if e.outcome.Finished? then {task.id} else {}, others == [])
                && (others == [] ==> s'.holders == s.holders - {h}))
    ensures var gate := GateStep(h, e.reply, e.outcome, worker);
            Joint(s, [item], [h], e, others, worker) == [gate] + others + LastSteps(h, e.outcome)
  {
    hide SameKeys, Concluded, IsRun, IsOwnedRun, After, IsBeyondGate, LastSteps, GateStep, IsOutcome, Actor;
    var gate := GateStep(h, e.reply, e.outcome, worker);
    GateIsRun(s, h, task, e.reply, e.outcome, worker);
    var s1 := After(s, [gate]);
    RunSpares(s1, others, h);
    RunRecords(s1, others);
    if others == [] { EmptyRun(s1); }
    var s2 := After(s1, others);
    RunsAppended(s, [gate], others, owned);
    ConcludeIsRun(s2, h, task, e.outcome, worker);
    RunsAppended(s, [gate] + others, LastSteps(h, e.outcome), owned);
    ConcludedSame(s2.db, e.middle, item.queue, item.message.id, item.message.body, e.outcome, worker);
    assert s.holders[h := s1.holders[h]] - {h} == s.holders - {h};
  }

  /** Its turn on a message without a task, which somebody else may have acknowledged already. */
  lemma TurnOfJunk(s: Sys, h: nat, item: Item, e: Event, others: seq<Action>, worker: string, owned: bool)
    requires e.Turn? && !item.message.body.Data? && Sound(s) && IsLeft(s.db, item) && e.outcome.Discarded?
    requires Fits(s, [item], [h], e, others, worker, owned)
    ensures var steps := Joint(s, [item], [h], e, others, worker);
            && IsRun(s, steps) && (owned ==> IsOwnedRun(s, steps))
            && (var s' := After(s, steps);
                && SameKeys(s'.db, Concluded(e.middle, item.queue, item.message.id, item.message.body, e.outcome,
                                             worker))
                && Achieves(s, s', {}, others == [])
                && (others == [] ==> s'.holders == s.holders))
    ensures exists last :: Joint(s, [item], [h], e, others, worker) == others + last
                           && forall a :: a in last ==> Actor(a) == None
  {
    hide Concluded, IsRun, IsOwnedRun, After, Sound, SameKeys;
    var (q, id) := (item.queue, item.message.id);
    EmptyRun(s);
    assert [] + others == others;
    var s2 := After(s, others);
    RunRecords(s, others);
    RunLater(s, others, q);
    SoundAlways(s, others);
    StillJunk(s2, item);
    var last := Last(s2.db, [item], [h], e);
    if id in s2.db.At(q).stream.pel {
      DiscardIsRun(s2, q, id, e.reply, e.outcome, worker);
    } else {
      EmptyRun(s2);
      assert s2.db.At(q).stream.Ack(id) == s2.db.At(q).stream;
    }
    RunsAppended(s, others, last, owned);
    JunkConcluded(s2, After(s2, last), item, e.reply, e.outcome, worker);
    ConcludedSame(s2.db, e.middle, q, id, item.message.body, e.outcome, worker);
    SameOn(After(s2, last).db, Concluded(s2.db, q, id, item.message.body, e.outcome, worker),
           Concluded(e.middle, q, id, item.message.body, e.outcome, worker));
    assert Joint(s, [item], [h], e, others, worker) == others + last;
  }

  lemma StillJunk(s: Sys, item: Item)
    requires Sound(s) && !item.message.body.Data? && IsLeft(s.db, item)
    ensures var stream := s.db.At(item.queue).stream;
            item.message.id in stream.pel ==>
              item.message.id in stream.entries && stream.entries[item.message.id] == item.message.body
  {
  }

  lemma JunkConcluded(s: Sys, s': Sys, item: Item, reply: GateReply, outcome: Outcome, worker: string)
    requires !item.message.body.Data?
    requires var (q, id) := (item.queue, item.message.id);
             if id in s.db.At(q).stream.pel
             then s'.db == Settled(s.db, q, id, item.message.body, reply, outcome, worker)
             else s' == s && s.db.At(q).stream.Ack(id) == s.db.At(q).stream
    ensures SameKeys(s'.db, Concluded(s.db, item.queue, item.message.id, item.message.body, outcome, worker))
  {
  }

  lemma SameOn(a: Db, b: Db, c: Db)
    requires SameKeys(a, b) && SameKeys(b, c)
    ensures SameKeys(a, c)
  {
    forall q
      ensures a.At(q) == c.At(q)
    {
      SameAt(a, b, q);
      SameAt(b, c, q);
    }
  }

  /** A turn is about the first message only. */
  lemma TurnIsFirst(s: Sys, held: seq<Item>, handles: seq<nat>, e: Event, others: seq<Action>, worker: string,
      owned: bool)
    requires e.Turn? && held != [] && |handles| == |held| && Fits(s, held, handles, e, others, worker, owned)
    ensures Fits(s, [held[0]], [handles[0]], e, others, worker, owned)
    ensures Joint(s, [held[0]], [handles[0]], e, others, worker) == Joint(s, held, handles, e, others, worker)
  {
    hide IsRun, IsOwnedRun, After, SameKeys, Actor;
    assert First([held[0]], [handles[0]], e, worker) == First(held, handles, e, worker);
  }

  lemma TurnSpares(s: Sys, held: seq<Item>, handles: seq<nat>, others: seq<Action>, steps: seq<Action>)
    requires held != [] && Holding(s, held, handles) && Spares(others, held, handles)
    requires forall a :: a in steps ==> a in others || Actor(a) == None
                                        || (held[0].message.body.Data? && Actor(a) == Some(handles[0]))
    ensures Spares(steps, held[1..], handles[1..]) && Holding(s, held[1..], handles[1..])
  {
    hide IsLeft, StandsFor, Actor;
    forall i | 0 <= i < |held| - 1
      ensures held[1..][i] == held[i + 1] && handles[1..][i] == handles[i + 1]
    {
    }
  }

  lemma LastStepsActor(h: nat, reply: GateReply, outcome: Outcome, worker: string)
    ensures Actor(GateStep(h, reply, outcome, worker)) == Some(h)
    ensures forall a :: a in LastSteps(h, outcome) ==> Actor(a) == Some(h)
  {
  }

  lemma TurnMirrors(s: Sys, db: Db, held: seq<Item>, handles: seq<nat>, e: Event, others: seq<Action>, c: Config,
      owned: bool)
    requires Mirrors(s, db, held, handles) && e.Turn? && Possible(db, held, e, c)
    requires Fits(s, held, handles, e, others, c.worker, owned)
    ensures var steps := Joint(s, held, handles, e, others, c.worker);
            && IsRun(s, steps) && (owned ==> IsOwnedRun(s, steps))
            && Achieves(s, After(s, steps), Successes(e.runs), others == [])
            && Mirrors(After(s, steps), NextDb(db, held, e, c), NextHeld(held, e),
                       NextHandles(s.holders, handles, e))
            && (others == [] ==>
                  After(s, steps).holders
                  == if held[0].message.body.Data? then s.holders - {handles[0]} else s.holders)
  {
    hide Sound, SameKeys, Holding, IsTurn, IsRun, IsOwnedRun, After, Successes, Concluded, Fits, Joint, Spares,
      LastSteps, GateStep, Actor, IsOutcome, IsLeft, StandsFor, Achieves;
    HeadIsHeld(s, db, held, handles, e, c);
    var (item, h) := (held[0], handles[0]);
    TurnIsFirst(s, held, handles, e, others, c.worker, owned);
    TurnSuccesses(s.db, item.message, e.reply, e.runs, e.outcome, c);
    TurnHasOutcome(s.db, item.message, e.reply, e.runs, e.outcome, c);
    var steps := Joint(s, held, handles, e, others, c.worker);
    match item.message.body {
      case Data(task) =>
        TurnOfTask(s, h, item, task, e, others, c.worker, owned);
        LastStepsActor(h, e.reply, e.outcome, c.worker);
      case _ =>
        JunkIsDiscarded(s.db, item.message, e, c);
        TurnOfJunk(s, h, item, e, others, c.worker, owned);
    }
    FitsSpares(s, held, handles, e, others, c.worker, owned);
    TurnSpares(s, held, handles, others, steps);
    SoundAlways(s, steps);
    HoldingStays(s, steps, held[1..], handles[1..]);
  }

  lemma FitsSpares(s: Sys, held: seq<Item>, handles: seq<nat>, e: Event, others: seq<Action>, worker: string,
      owned: bool)
    requires Fits(s, held, handles, e, others, worker, owned)
    ensures Spares(others, held, handles)
  {
  }

  lemma JunkIsDiscarded(db: Db, message: Message, e: Event, c: Config)
    requires e.Turn? && !message.body.Data? && IsTurn(db, message, e.reply, e.runs, e.outcome, c)
    ensures e.outcome.Discarded?
  {
  }

  lemma HeadIsHeld(s: Sys, db: Db, held: seq<Item>, handles: seq<nat>, e: Event, c: Config)
    requires Mirrors(s, db, held, handles) && e.Turn? && Possible(db, held, e, c)
    ensures held != [] && |handles| == |held| && IsLeft(s.db, held[0]) && StandsFor(s.holders, handles[0], held[0])
    ensures IsTurn(s.db, held[0].message, e.reply, e.runs, e.outcome, c)
  {
    hide Sound, IsLeft, StandsFor, Delay;
    assert s.db.processed == db.processed;
  }

  lemma ReadElsewhere(s: Sys, s': Sys, held: seq<Item>, handles: seq<nat>, q: string, messages: seq<Message>,
      first: bool)
    requires Holding(s, held, handles)
    requires s'.holders == HeldAll(s.holders, q, messages, Fresh(s.holders), first)
    ensures Elsewhere(s'.holders, held + Items(q, messages, first),
                      handles + Numbers(Fresh(s.holders), |messages|))
            == Elsewhere(s.holders, held, handles)
  {
    hide HolderOf, Items, HeldAll, IsLeft, Numbers, StandsFor;
    var h := Fresh(s.holders);
    var (more, all) := (held + Items(q, messages, first), handles + Numbers(h, |messages|));
    MoreItems(held, q, messages, first);
    MoreNumbers(handles, h, |messages|);
    var (taken, takenMore) := (Taken(held, handles), Taken(more, all));
    forall k: nat
      ensures k in takenMore <==> k in taken || (h <= k < h + |messages| && messages[k - h].body.Data?)
    {
      if k in taken {
        var i :| 0 <= i < |held| && i < |handles| && held[i].message.body.Data? && handles[i] == k;
        assert more[i] == held[i] && all[i] == k;
      }
      if h <= k < h + |messages| && messages[k - h].body.Data? {
        assert all[|held| + k - h] == k && more[|held| + k - h].message == messages[k - h];
      }
      if k in takenMore {
        var i :| 0 <= i < |more| && i < |all| && more[i].message.body.Data? && all[i] == k;
        if i < |held| { assert held[i].message.body.Data? && handles[i] == k; }
      }
      HeldAllAt(s.holders, q, messages, h, first, k);
    }
    forall k: nat
      ensures if h <= k < h + |messages| && messages[k - h].body.Data? then k in s'.holders
              else (k in s'.holders <==> k in s.holders) && (k in s.holders ==> s'.holders[k] == s.holders[k])
    {
      HeldAllAt(s.holders, q, messages, h, first, k);
    }
    hide Taken;
    assert forall k :: k in s.holders ==> k < h;
    assert s'.holders - takenMore == s.holders - taken;
  }

  /** One event, with whatever others do meanwhile. */
  lemma EventMirrors(s: Sys, db: Db, held: seq<Item>, handles: seq<nat>, e: Event, others: seq<Action>, c: Config,
      owned: bool)
    requires Mirrors(s, db, held, handles) && Possible(db, held, e, c)
    requires Fits(s, held, handles, e, others, c.worker, owned)
    ensures var steps := Joint(s, held, handles, e, others, c.worker);
            && IsRun(s, steps) && (owned ==> IsOwnedRun(s, steps))
            && Achieves(s, After(s, steps), Successes(RunsIn(e)), others == [])
            && Mirrors(After(s, steps), NextDb(db, held, e, c), NextHeld(held, e),
                       NextHandles(s.holders, handles, e))
            && (others == [] ==>
                  Elsewhere(After(s, steps).holders, NextHeld(held, e), NextHandles(s.holders, handles, e))
                  == Elsewhere(s.holders, held, handles))
  {
    hide Mirrors, Holding, IsRun, IsOwnedRun, After, Elsewhere, Successes, SameKeys, HeldAll, Items, Numbers, Achieves;
    NoSuccesses();
    MirrorsHold(s, db, held, handles);
    match e {
      case ReadNew(q, _, _, messages) =>
        ReadNewMirrors(s, db, held, handles, e, c);
        ReadElsewhere(s, After(s, Joint(s, held, handles, e, others, c.worker)), held, handles, q, messages, true);
      case ReadOwn(q, _, _, messages) =>
        RereadMirrors(s, db, e, c, owned);
        ReadElsewhere(s, After(s, Joint(s, held, handles, e, others, c.worker)), held, handles, q, messages, false);
      case Claim(q, _, messages, _) =>
        RereadMirrors(s, db, e, c, owned);
        ReadElsewhere(s, After(s, Joint(s, held, handles, e, others, c.worker)), held, handles, q, messages, false);
      case Others(after) =>
        OthersMirror(s, db, held, handles, e, others, c, owned);
      case Turn(_, _, _, _) =>
        TurnMirrors(s, db, held, handles, e, others, c, owned);
        if others == [] { TurnElsewhere(s, After(s, Joint(s, held, handles, e, [], c.worker)), held, handles); }
    }
  }

  lemma NoSuccesses()
    ensures Successes([]) == {}
  {
  }

  lemma MirrorsHold(s: Sys, db: Db, held: seq<Item>, handles: seq<nat>)
    requires Mirrors(s, db, held, handles)
    ensures Holding(s, held, handles) && |handles| == |held| && SameKeys(s.db, db) && Sound(s)
  {
  }

  lemma OthersMirror(s: Sys, db: Db, held: seq<Item>, handles: seq<nat>, e: Event, others: seq<Action>, c: Config,
      owned: bool)
    requires Mirrors(s, db, held, handles) && e.Others? && Fits(s, held, handles, e, others, c.worker, owned)
    ensures IsRun(s, others) && (owned ==> IsOwnedRun(s, others)) && Achieves(s, After(s, others), {}, others == [])
    ensures Mirrors(After(s, others), e.after, held, handles)
    ensures others == [] ==> After(s, others) == s
  {
    hide Sound, Holding, SameKeys, IsRun, IsOwnedRun, After, Spares;
    EmptyRun(s);
    RunRecords(s, others);
    SoundAlways(s, others);
    HoldingStays(s, others, held, handles);
  }

  lemma TurnElsewhere(s: Sys, s': Sys, held: seq<Item>, handles: seq<nat>)
    requires Holding(s, held, handles) && held != []
    requires s'.holders == if held[0].message.body.Data? then s.holders - {handles[0]} else s.holders
    ensures Elsewhere(s'.holders, held[1..], handles[1..]) == Elsewhere(s.holders, held, handles)
  {
    hide IsLeft, StandsFor, HolderOf;
    var (taken, less) := (Taken(held, handles), Taken(held[1..], handles[1..]));
    forall k: nat
      ensures k in taken <==> k in less || (held[0].message.body.Data? && k == handles[0])
    {
      if k in less {
        var i :| 0 <= i < |held| - 1 && held[1..][i].message.body.Data? && handles[1..][i] == k;
        assert held[i + 1].message.body.Data? && handles[i + 1] == k;
      }
      if k in taken {
        var i :| 0 <= i < |held| && held[i].message.body.Data? && handles[i] == k;
        if i > 0 { assert held[1..][i - 1].message.body.Data? && handles[1..][i - 1] == k; }
      }
    }
    hide Taken;
    assert s'.holders - less == s.holders - taken;
  }

  lemma RunsCons(trace: seq<Event>)
    requires trace != []
    ensures RunsOf(trace) == RunsIn(trace[0]) + RunsOf(trace[1..])
  {
    assert trace == [trace[0]] + trace[1..];
    RunsAppend([trace[0]], trace[1..]);
    assert RunsOf([trace[0]]) == RunsIn(trace[0]) by { RunsSnoc([], trace[0]); assert [] + [trace[0]] == [trace[0]]; }
  }

  lemma SuccessesAppend(a: seq<HandlerRun>, b: seq<HandlerRun>)
    ensures Successes(a + b) == Successes(a) + Successes(b)
  {
  }

  lemma AchievesOn(s: Sys, s1: Sys, s2: Sys, first: set<string>, second: set<string>, alone: bool)
    requires Achieves(s, s1, first, alone) && Achieves(s1, s2, second, alone)
    ensures Achieves(s, s2, first + second, alone)
  {
  }

  predicate IsNobody(company: seq<seq<Action>>)
  {
    forall others :: others in company ==> others == []
  }

  /** All the events of a trace. */
  lemma {:induction false} TraceMirrors(s: Sys, db: Db, held: seq<Item>, handles: seq<nat>, trace: seq<Event>, db': Db,
      company: seq<seq<Action>>, c: Config, owned: bool)
    requires Mirrors(s, db, held, handles) && Traced(db, held, trace, db', [], c, false)
    requires Accompanied(s, held, handles, trace, company, c.worker, owned)
    ensures |company| == |trace|
    ensures var steps := AllSteps(s, held, handles, trace, company, c.worker);
            && IsRun(s, steps) && (owned ==> IsOwnedRun(s, steps)) && SameKeys(After(s, steps).db, db')
            && Sound(After(s, steps))
            && Achieves(s, After(s, steps), Successes(RunsOf(trace)), IsNobody(company))
            && (IsNobody(company) ==> After(s, steps).holders == Elsewhere(s.holders, held, handles))
    decreases |trace|
  {
    hide Mirrors, Holding, Possible, NextDb, NextHeld, NextHandles, Fits, Joint, IsRun, IsOwnedRun, After, SameKeys,
      Successes, RunsOf, Achieves, Elsewhere, Sound;
    MirrorsHold(s, db, held, handles);
    if trace == [] {
      NoSuccesses();
      NothingRuns();
      EmptyRun(s);
      NothingAchieved(s);
      AchievesWeaker(s, s, {}, true, IsNobody(company));
      NobodyTaken(s.holders);
    } else {
      var (e, others) := (trace[0], company[0]);
      EventMirrors(s, db, held, handles, e, others, c, owned);
      var steps := Joint(s, held, handles, e, others, c.worker);
      var s1 := After(s, steps);
      var (held', handles') := (NextHeld(held, e), NextHandles(s.holders, handles, e));
      TraceMirrors(s1, NextDb(db, held, e, c), held', handles', trace[1..], db', company[1..], c, owned);
      var rest := AllSteps(s1, held', handles', trace[1..], company[1..], c.worker);
      RunsAppended(s, steps, rest, owned);
      NobodyCons(company);
      AchievesWeaker(s, s1, Successes(RunsIn(e)), others == [], IsNobody(company));
      AchievesWeaker(s1, After(s1, rest), Successes(RunsOf(trace[1..])), IsNobody(company[1..]), IsNobody(company));
      AchievesOn(s, s1, After(s1, rest), Successes(RunsIn(e)), Successes(RunsOf(trace[1..])), IsNobody(company));
      RunsCons(trace);
      SuccessesAppend(RunsIn(e), RunsOf(trace[1..]));
    }
  }

  lemma AchievesWeaker(s: Sys, s': Sys, successes: set<string>, alone: bool, alone': bool)
    requires Achieves(s, s', successes, alone) && (alone' ==> alone)
    ensures Achieves(s, s', successes, alone')
  {
  }

  lemma NothingAchieved(s: Sys)
    ensures Achieves(s, s, {}, true)
  {
  }

  lemma NobodyTaken(holders: map<nat, Holder>)
    ensures Elsewhere(holders, [], []) == holders
  {
    assert Taken([], []) == {};
  }

  lemma NobodyCons(company: seq<seq<Action>>)
    requires company != []
    ensures IsNobody(company) ==> company[0] == [] && IsNobody(company[1..])
  {
    assert company[0] in company && forall others :: others in company[1..] ==> others in company;
  }

  /**
   The theorem on the loops: whatever a worker does from a reachable state on, while others take any steps of the
   lifecycle between its reads and turns and while its handlers run, is a run of the lifecycle, with the same keys at
   the end. The tasks whose handlers answered without an error have succeeded. Alone, no others have, nothing else is
   recorded, and nothing is left in its hands. Under the rules of `Ownership`, it keeps to them if the others do.
   */
  lemma LoopIsRun(before: seq<Action>, db: Db, trace: seq<Event>, db': Db, company: seq<seq<Action>>, c: Config,
      owned: bool)
    requires IsRun(INIT, before) && SameKeys(After(INIT, before).db, db) && Traced(db, [], trace, db', [], c, false)
    requires Accompanied(After(INIT, before), [], [], trace, company, c.worker, owned)
    ensures |company| == |trace|
    ensures var s := After(INIT, before);
            var steps := AllSteps(s, [], [], trace, company, c.worker);
            && IsRun(s, steps) && (owned ==> IsOwnedRun(s, steps)) && IsRun(INIT, before + steps)
            && (var s' := After(INIT, before + steps);
                && SameKeys(s'.db, db') && s.succeeded + Successes(RunsOf(trace)) <= s'.succeeded
                && (IsNobody(company) ==>
                      && s'.holders == s.holders && s'.accepted == s.accepted && s'.crashed == s.crashed
                      && s'.succeeded == s.succeeded + Successes(RunsOf(trace))))
  {
    hide IsRun, IsOwnedRun, After, Traced, Accompanied, AllSteps, Sound, SameKeys, RunsOf, Successes, Elsewhere,
      IsNobody;
    var s := After(INIT, before);
    InitSound();
    SoundAlways(INIT, before);
    TraceMirrors(s, db, [], [], trace, db', company, c, owned);
    RunAppend(INIT, before, AllSteps(s, [], [], trace, company, c.worker));
    NobodyTaken(s.holders);
  }

  /**
   Nothing is lost in the loops: afterwards every task accepted so far has a copy in Redis, or its first attempt is
   running, or it has succeeded, or its crash is on record.
   */
  lemma LoopLosesNothing(before: seq<Action>, db: Db, trace: seq<Event>, db': Db, company: seq<seq<Action>>,
      c: Config, t: string)
    requires IsRun(INIT, before) && SameKeys(After(INIT, before).db, db) && Traced(db, [], trace, db', [], c, false)
    requires Accompanied(After(INIT, before), [], [], trace, company, c.worker, false)
    requires t in After(INIT, before).accepted
    ensures |company| == |trace|
    ensures var steps := AllSteps(After(INIT, before), [], [], trace, company, c.worker);
            IsRun(INIT, before + steps) &&
            var s' := After(INIT, before + steps);
            || (exists q, p :: Copy(db', t, q, p))
            || (exists h :: FirstRun(s', t, h))
            || t in s'.succeeded
            || t in s'.crashed
  {
    hide IsRun, After, Traced, Accompanied, AllSteps, RunsOf, Successes, Has, TaskAt;
    LoopIsRun(before, db, trace, db', company, c, false);
    var s := After(INIT, before);
    var steps := AllSteps(s, [], [], trace, company, c.worker);
    RunAccepts(s, steps);
    RunAppend(INIT, before, steps);
    NothingIsLost(before + steps, t);
    var s' := After(INIT, before + steps);
    if q, p :| Copy(s'.db, t, q, p) { assert Copy(db', t, q, p); }
  }

  lemma {:induction false} RunAccepts(s: Sys, actions: seq<Action>)
    requires IsRun(s, actions)
    ensures s.accepted.Keys <= After(s, actions).accepted.Keys
    decreases |actions|
  {
    hide Apply, Enabled;
    if actions != [] {
      RecordsGrow(s, actions[0]);
      RunAccepts(Apply(s, actions[0]), actions[1..]);
    }
  }

  function Nobody(n: nat): seq<seq<Action>>
  {
    seq(n, i requires 0 <= i < n => [])
  }

  lemma AloneFits(s: Sys, db: Db, held: seq<Item>, handles: seq<nat>, e: Event, c: Config, owned: bool)
    requires Mirrors(s, db, held, handles) && Possible(db, held, e, c) && IsQuiet(db, held, e)
    requires owned ==> Elsewhere(s.holders, held, handles) == map[]
    ensures Fits(s, held, handles, e, [], c.worker, owned)
  {
    hide Sound, SameKeys, IsTurn, IsRun, IsOwnedRun, After, IsReply, AreFirst, NobodyHolds;
    match e
    case ReadNew(_, _, _, _) =>
    case ReadOwn(q, _, _, messages) => AloneReads(s, q, messages);
    case Claim(q, _, messages, _) => AloneReads(s, q, messages);
    case Others(_) => EmptyRun(s);
    case Turn(reply, _, runs, outcome) =>
      HeadIsHeld(s, db, held, handles, e, c);
      GatedSame(s.db, db, held[0].message.body, reply);
      EmptyRun(s);
      if held[0].message.body.Data? {
        TurnHasOutcome(s.db, held[0].message, reply, runs, outcome, c);
        GateIsRun(s, handles[0], held[0].message.body.task, reply, outcome, c.worker);
        EmptyRun(After(s, [GateStep(handles[0], reply, outcome, c.worker)]));
      }
  }

  lemma AloneReads(s: Sys, q: string, messages: seq<Message>)
    ensures Elsewhere(s.holders, [], []) == map[] ==> NobodyHolds(s, q, messages)
  {
    NobodyTaken(s.holders);
  }

  lemma {:induction false} AloneAccompanied(s: Sys, db: Db, held: seq<Item>, handles: seq<nat>, trace: seq<Event>,
      db': Db, c: Config, owned: bool)
    requires Mirrors(s, db, held, handles) && Traced(db, held, trace, db', [], c, true)
    requires owned ==> Elsewhere(s.holders, held, handles) == map[]
    ensures Accompanied(s, held, handles, trace, Nobody(|trace|), c.worker, owned)
    ensures Traced(db, held, trace, db', [], c, false)
    decreases |trace|
  {
    hide Mirrors, Possible, IsQuiet, NextDb, NextHeld, NextHandles, Fits, Joint, IsRun, IsOwnedRun, After, Successes,
      Achieves, Elsewhere;
    if trace != [] {
      var e := trace[0];
      AloneFits(s, db, held, handles, e, c, owned);
      EventMirrors(s, db, held, handles, e, [], c, owned);
      var s1 := After(s, Joint(s, held, handles, e, [], c.worker));
      AloneAccompanied(s1, NextDb(db, held, e, c), NextHeld(held, e), NextHandles(s.holders, handles, e), trace[1..],
                       db', c, owned);
      assert Nobody(|trace|)[1..] == Nobody(|trace| - 1);
    }
  }

  /** Alone, this is the case without a condition; from a state in which nobody holds a message, it is an owned run. */
  lemma AloneLoopIsRun(before: seq<Action>, db: Db, trace: seq<Event>, db': Db, c: Config)
    requires IsRun(INIT, before) && SameKeys(After(INIT, before).db, db) && Traced(db, [], trace, db', [], c, true)
    ensures var s := After(INIT, before);
            var steps := AllSteps(s, [], [], trace, Nobody(|trace|), c.worker);
            && IsRun(s, steps) && (s.holders == map[] ==> IsOwnedRun(s, steps)) && IsRun(INIT, before + steps)
            && (var s' := After(INIT, before + steps);
                && SameKeys(s'.db, db') && s'.holders == s.holders && s'.accepted == s.accepted
                && s'.crashed == s.crashed && s'.succeeded == s.succeeded + Successes(RunsOf(trace)))
  {
    hide IsRun, IsOwnedRun, After, Traced, Accompanied, AllSteps, Sound, SameKeys, RunsOf, Successes, Elsewhere;
    var s := After(INIT, before);
    InitSound();
    SoundAlways(INIT, before);
    NobodyTaken(s.holders);
    AloneAccompanied(s, db, [], [], trace, db', c, s.holders == map[]);
    LoopIsRun(before, db, trace, db', Nobody(|trace|), c, s.holders == map[]);
  }
}
