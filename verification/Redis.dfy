/** The Redis server: the commands that strego sends, each changing the keys in place. */
module Redis {
  import opened Tasks
  import opened Streams
  import opened Keys
  import opened Promotion
  import opened Sets

  /** One message of a reply. `body` is NoData for a pending message whose entry has been deleted. */
  datatype Message = Message(id: nat, body: Body)

  function Fetch(stream: Stream, id: nat): Message
  {
    Message(id, if id in stream.entries then stream.entries[id] else NoData)
  }

  lemma {:induction false} Least(ids: set<nat>) returns (least: nat)
    requires ids != {}
    ensures least in ids && forall other :: other in ids ==> least <= other
    decreases |ids|
  {
    var id :| id in ids;
    if ids == {id} {
      least := id;
    } else {
      var rest := Least(ids - {id});
      least := if id < rest then id else rest;
      forall other | other in ids ensures least <= other { assert other == id || other in ids - {id}; }
    }
  }

  class Client {
    var queues: map<string, Queue>
    var known: set<string>
    var processed: set<string>
    var unique: map<string, string>

    constructor ()
      ensures View() == EMPTY_DB
    {
      queues, known, processed, unique := map[], {}, {}, map[];
    }

    function View(): Db
      reads this
    {
      Db(queues, known, processed, unique)
    }

    function At(q: string): Queue
      reads this
    {
      View().At(q)
    }

    method SAdd(q: string)
      modifies `known
      ensures View() == old(View()).Known(q)
    {
      known := known + {q};
    }

    /** The members of the set of queue names, in whatever order. */
    method SMembers() returns (order: seq<string>)
      ensures Distinct(order) && Elements(order) == known
    {
      var rest := known;
      order := [];
      while rest != {}
        invariant Distinct(order) && Elements(order) !! rest && Elements(order) + rest == known
        decreases rest
      {
        var q :| q in rest;
        ghost var before := order;
        order := order + [q];
        assert Elements(order) == Elements(before) + {q};
        assert forall i :: 0 <= i < |before| ==> before[i] in Elements(before);
        rest := rest - {q};
      }
    }

    method XAdd(q: string, body: Body)
      modifies `queues
      ensures View() == old(View().Put(q, At(q).(stream := At(q).stream.Add(body))))
    {
      queues := queues[q := At(q).(stream := At(q).stream.Add(body))];
    }

    method XAck(q: string, id: nat)
      modifies `queues
      ensures View() == old(View().Put(q, At(q).(stream := At(q).stream.Ack(id))))
    {
      queues := queues[q := At(q).(stream := At(q).stream.Ack(id))];
    }

    method XDel(q: string, id: nat)
      modifies `queues
      ensures View() == old(View().Put(q, At(q).(stream := At(q).stream.Del(id))))
    {
      queues := queues[q := At(q).(stream := At(q).stream.Del(id))];
    }

    method XAddDLQ(q: string, body: Body)
      modifies `queues
      ensures View() == old(View().Put(q, At(q).(dlq := At(q).dlq.Add(body))))
    {
      queues := queues[q := At(q).(dlq := At(q).dlq.Add(body))];
    }

    method XDelDLQ(q: string, id: nat)
      modifies `queues
      ensures View() == old(View().Put(q, At(q).(dlq := At(q).dlq.Del(id))))
    {
      queues := queues[q := At(q).(dlq := At(q).dlq.Del(id))];
    }

    method ZAddScheduled(q: string, member: Task, score: int)
      modifies `queues
      ensures View() == old(View().Put(q, At(q).(scheduled := At(q).scheduled[member := score])))
    {
      queues := queues[q := At(q).(scheduled := At(q).scheduled[member := score])];
    }

    method ZAddRetry(q: string, member: Task, score: int)
      modifies `queues
      ensures View() == old(View().Put(q, At(q).(retry := At(q).retry[member := score])))
    {
      queues := queues[q := At(q).(retry := At(q).retry[member := score])];
    }

    method ZRem(q: string, fromRetry: bool, member: Task)
      modifies `queues
      ensures View() == old(View().Put(q, if fromRetry then At(q).(retry := At(q).retry - {member})
                                          else At(q).(scheduled := At(q).scheduled - {member})))
    {
      if fromRetry {
        queues := queues[q := At(q).(retry := At(q).retry - {member})];
      } else {
        queues := queues[q := At(q).(scheduled := At(q).scheduled - {member})];
      }
    }

    method HIncrBy(q: string, enqueued: nat, completed: nat, scheduled: nat)
      modifies `queues
      ensures View() == old(View().Put(q, At(q).(stats := At(q).stats.Plus(enqueued, completed, scheduled))))
    {
      queues := queues[q := At(q).(stats := At(q).stats.Plus(enqueued, completed, scheduled))];
    }

    /** SET NX on a processed key. */
    method SetNXProcessed(taskID: string) returns (ok: bool)
      modifies `processed
      ensures ok == (taskID !in old(processed))
      ensures View() == old(View().(processed := processed + {taskID}))
    {
      ok := taskID !in processed;
      processed := processed + {taskID};
    }

    method DelProcessed(taskID: string)
      modifies `processed
      ensures View() == old(View().(processed := processed - {taskID}))
    {
      processed := processed - {taskID};
    }

    /** SET NX on a unique key. */
    method SetNXUnique(key: string, taskID: string) returns (ok: bool)
      modifies `unique
      ensures ok == (key !in old(unique))
      ensures View() == old(View().(unique := if key in unique then unique else unique[key := taskID]))
    {
      ok := key !in unique;
      if ok { unique := unique[key := taskID]; }
    }

    /** XREADGROUP with ID 0: the first `count` messages that are pending for `consumer`, in ID order. */
    method XReadGroupOwn(q: string, consumer: string, count: nat) returns (messages: seq<Message>)
      requires count > 0
      modifies `queues
      ensures IsReply(old(At(q)).stream, Own(old(At(q)).stream, consumer), messages)
      ensures AreFirst(Own(old(At(q)).stream, consumer), count, messages)
      ensures messages == [] ==> Own(old(At(q)).stream, consumer) == {}
      ensures View() == old(View()).Put(q, Redelivered(old(At(q)), Ids(messages), consumer))
    {
      messages := FirstMessages(At(q).stream, Own(At(q).stream, consumer), count);
      queues := queues[q := Redelivered(At(q), Ids(messages), consumer)];
    }

    /**
     XAUTOCLAIM from the beginning: some of the messages that have been pending for long enough change hands;
     pending messages without an entry that it comes across leave the list. Which ones are old enough, and how
     far the command looks, is up to Redis.
     */
    method XAutoClaim(q: string, consumer: string, count: nat) returns (messages: seq<Message>)
      requires count > 0
      modifies `queues
      ensures var before := old(At(q)).stream;
              IsReply(before, (set id | id in before.pel && id in before.entries), messages)
      ensures |messages| <= count
      ensures exists gone :: AutoClaimed(old(View()), View(), q, consumer, messages, gone)
    {
      var stale: set<nat> := *;
      var found := set id | id in stale && id in At(q).stream.pel && id in At(q).stream.entries;
      var gone := set id | id in stale && id in At(q).stream.pel && id !in At(q).stream.entries;
      messages := FirstMessages(At(q).stream, found, count);
      queues := queues[q := Redelivered(Dropped(At(q), gone), Ids(messages), consumer)];
      assert AutoClaimed(old(View()), View(), q, consumer, messages, gone);
    }

    /** XREADGROUP with ID ">": the first `count` messages that were never delivered. */
    method XReadGroupNew(q: string, consumer: string, count: nat) returns (messages: seq<Message>)
      requires count > 0
      modifies `queues
      ensures IsReply(old(At(q)).stream, Undelivered(old(At(q)).stream), messages)
      ensures AreFirst(Undelivered(old(At(q)).stream), count, messages)
      ensures messages == [] ==> Undelivered(old(At(q)).stream) == {}
      ensures View() == old(View()).Put(q, At(q))
      ensures At(q) == old(At(q)).(stream := ReadAll(old(At(q)).stream, messages, consumer))
    {
      messages := FirstMessages(At(q).stream, Undelivered(At(q).stream), count);
      queues := queues[q := At(q).(stream := ReadAll(At(q).stream, messages, consumer))];
    }
  }

  function Own(stream: Stream, consumer: string): set<nat>
  {
    set id | id in stream.pel && stream.pel[id].consumer == consumer
  }

  function Undelivered(stream: Stream): set<nat>
  {
    set id | id in stream.entries && stream.cursor <= id
  }

  function Ids(messages: seq<Message>): set<nat>
  {
    set m | m in messages :: m.id
  }

  /** The messages `ids` now belong to `consumer`, each delivered once more. */
  function Redelivered(k: Queue, ids: set<nat>, consumer: string): Queue
  {
    k.(stream := k.stream.(pel := map id | id in k.stream.pel ::
      if id in ids then PendingEntry(consumer, k.stream.pel[id].deliveries + 1) else k.stream.pel[id]))
  }

  function Dropped(k: Queue, gone: set<nat>): Queue
  {
    k.(stream := k.stream.(pel := k.stream.pel - gone))
  }

  ghost predicate AutoClaimed(db: Db, db': Db, q: string, consumer: string, messages: seq<Message>, gone: set<nat>)
  {
    gone !! db.At(q).stream.entries.Keys
        && db' == db.Put(q, Redelivered(Dropped(db.At(q), gone), Ids(messages), consumer))
  }

  function ReadAll(stream: Stream, messages: seq<Message>, consumer: string): Stream
    decreases |messages|
  {
    if messages == [] then stream else ReadAll(stream.ReadNew(messages[0].id, consumer), messages[1..], consumer)
  }

  /** A reply lists eligible messages in ID order. */
  ghost predicate IsReply(stream: Stream, eligible: set<nat>, messages: seq<Message>)
  {
    && (forall m :: m in messages ==> m.id in eligible && m == Fetch(stream, m.id))
    && (forall i, j :: 0 <= i < j < |messages| ==> messages[i].id < messages[j].id)
  }

  /** The lowest `count` of the eligible messages, or all of them. */
  ghost predicate AreFirst(eligible: set<nat>, count: nat, messages: seq<Message>)
  {
    && |messages| <= count && (|messages| == count || eligible <= Ids(messages))
    && (forall m, id :: m in messages && id in eligible && id !in Ids(messages) ==> m.id < id)
  }

  lemma ReplySnoc(stream: Stream, eligible: set<nat>, rest: set<nat>, messages: seq<Message>, id: nat)
    requires IsReply(stream, eligible, messages) && id in rest && rest <= eligible
    requires forall m, other :: m in messages && other in rest ==> m.id < other
    requires forall other :: other in rest ==> id <= other
    ensures IsReply(stream, eligible, messages + [Fetch(stream, id)])
    ensures forall m, other :: m in messages + [Fetch(stream, id)] && other in rest - {id} ==> m.id < other
    ensures Ids(messages + [Fetch(stream, id)]) == Ids(messages) + {id}
  {
    var all := messages + [Fetch(stream, id)];
    forall m ensures m in all <==> m in messages || m == Fetch(stream, id) {
      if m in messages { var i :| 0 <= i < |messages| && messages[i] == m; assert all[i] == m; }
      assert all[|messages|] == Fetch(stream, id);
    }
    forall i, j | 0 <= i < j < |all| ensures all[i].id < all[j].id {
      assert all[i] == messages[i] && all[i] in messages;
    }
    assert Fetch(stream, id).id == id;
  }

  method FirstMessages(stream: Stream, eligible: set<nat>, count: nat) returns (messages: seq<Message>)
    requires count > 0
    ensures IsReply(stream, eligible, messages)
    ensures AreFirst(eligible, count, messages)
    ensures messages == [] ==> eligible == {}
  {
    var rest := eligible;
    messages := [];
    while rest != {} && |messages| < count
      invariant IsReply(stream, eligible, messages) && rest <= eligible
      invariant |messages| <= count && (messages == [] ==> rest == eligible)
      invariant forall m, id :: m in messages && id in rest ==> m.id < id
      invariant forall id :: id in eligible && id !in rest ==> id in Ids(messages)
      decreases rest
    {
      ghost var least := Least(rest);
      var id :| id in rest && forall other :: other in rest ==> id <= other;
      ReplySnoc(stream, eligible, rest, messages, id);
      messages := messages + [Fetch(stream, id)];
      rest := rest - {id};
    }
  }
}
