/** The replies of Redis to a worker's reads, taken apart into the single deliveries of the lifecycle. */
module ReadRuns {
  import opened Wrappers
  import opened Tasks
  import opened Streams
  import opened Keys
  import opened Lifecycle
  import opened Ownership
  import opened Redis

  /** The worker numbers its deliveries from `h` on. */
  function Deliveries(q: string, messages: seq<Message>, consumer: string, h: nat, first: bool): seq<Action>
    decreases |messages|
  {
    if messages == [] then []
    else
      var id := messages[0].id;
      [if first then Deliver(q, id, consumer, h) else Redeliver(q, id, consumer, h)]
      + Deliveries(q, messages[1..], consumer, h + 1, first)
  }

  /** The worker now holds every message that carries a task. */
  function HeldAll(holders: map<nat, Holder>, q: string, messages: seq<Message>, h: nat, first: bool): map<nat, Holder>
    decreases |messages|
  {
    if messages == [] then holders
    else
      var m := messages[0];
      var held := if m.body.Data? then holders[h := Holder(q, m.id, m.body.task.Received(m.id), Received, first)]
                  else holders;
      HeldAll(held, q, messages[1..], h + 1, first)
  }

  ghost predicate IsFree(s: Sys, h: nat)
  {
    forall k :: k in s.holders ==> k < h
  }

  /** Nothing but the stream of `q` and the holders has changed. */
  ghost predicate OnlyStream(s: Sys, s': Sys, q: string, stream: Stream, holders: map<nat, Holder>)
  {
    && s'.db.At(q) == s.db.At(q).(stream := stream) && s'.holders == holders
    && (forall other :: other != q ==> s'.db.At(other) == s.db.At(other))
    && s'.db.known == s.db.known && s'.db.processed == s.db.processed && s'.db.unique == s.db.unique
    && s'.lookups == s.lookups && s'.accepted == s.accepted && s'.succeeded == s.succeeded && s'.crashed == s.crashed
  }

  lemma OnlyStreamTwice(s: Sys, s1: Sys, s2: Sys, q: string, st1: Stream, st2: Stream,
      h1: map<nat, Holder>, h2: map<nat, Holder>)
    requires OnlyStream(s, s1, q, st1, h1) && OnlyStream(s1, s2, q, st2, h2)
    ensures OnlyStream(s, s2, q, st2, h2)
  {
  }

  lemma IdsCons(messages: seq<Message>)
    requires messages != []
    ensures Ids(messages) == {messages[0].id} + Ids(messages[1..])
    ensures forall m :: m in messages <==> m == messages[0] || m in messages[1..]
  {
    assert messages == [messages[0]] + messages[1..];
  }

  lemma RestIsLater(stream: Stream, eligible: set<nat>, messages: seq<Message>, m: Message)
    requires messages != [] && IsReply(stream, eligible, messages) && m in messages[1..]
    ensures messages[0].id < m.id && m.id in eligible && m == Fetch(stream, m.id)
  {
    var i :| 0 <= i < |messages| - 1 && messages[1..][i] == m;
    assert messages[i + 1] == m;
  }

  /** The head of a reply is the next message. */
  lemma HeadIsNext(stream: Stream, messages: seq<Message>, count: nat)
    requires messages != [] && IsReply(stream, Undelivered(stream), messages)
    requires AreFirst(Undelivered(stream), count, messages)
    ensures stream.IsNext(messages[0].id) && messages[0] == Fetch(stream, messages[0].id)
  {
    var id := messages[0].id;
    assert messages[0] in messages;
    IdsCons(messages);
    forall other | other in stream.entries && stream.cursor <= other
      ensures id <= other
    {
      assert other in Undelivered(stream);
      if other in Ids(messages[1..]) {
        var m :| m in messages[1..] && m.id == other;
        RestIsLater(stream, Undelivered(stream), messages, m);
      }
    }
  }

  /** The rest of the reply is what comes after it. */
  lemma TailIsReply(stream: Stream, messages: seq<Message>, count: nat, consumer: string)
    requires messages != [] && IsReply(stream, Undelivered(stream), messages)
    requires AreFirst(Undelivered(stream), count, messages)
    ensures var rest := stream.ReadNew(messages[0].id, consumer);
            IsReply(rest, Undelivered(rest), messages[1..]) && AreFirst(Undelivered(rest), count - 1, messages[1..])
  {
    var id := messages[0].id;
    var rest := stream.ReadNew(id, consumer);
    IdsCons(messages);
    assert id in Undelivered(stream);
    assert Undelivered(rest) == set other | other in Undelivered(stream) && id < other;
    forall m | m in messages[1..]
      ensures m.id in Undelivered(rest) && m == Fetch(rest, m.id)
    {
      RestIsLater(stream, Undelivered(stream), messages, m);
    }
  }

  lemma DeliverHolds(s: Sys, q: string, message: Message, consumer: string, h: nat)
    requires IsFree(s, h) && s.db.At(q).stream.IsNext(message.id) && message == Fetch(s.db.At(q).stream, message.id)
    ensures var a := Deliver(q, message.id, consumer, h);
            && OwnedEnabled(s, a) && IsFree(Apply(s, a), h + 1)
            && OnlyStream(s, Apply(s, a), q, s.db.At(q).stream.ReadNew(message.id, consumer),
                          HeldAll(s.holders, q, [message], h, true))
  {
    assert [message][1..] == [];
  }

  lemma HeldCons(holders: map<nat, Holder>, q: string, messages: seq<Message>, h: nat, first: bool)
    requires messages != []
    ensures HeldAll(holders, q, messages, h, first)
            == HeldAll(HeldAll(holders, q, [messages[0]], h, first), q, messages[1..], h + 1, first)
  {
    assert [messages[0]][1..] == [];
  }

  /**
   The theorem on new messages: a read hands out the next messages, one delivery after the other, which the rules of
   `Ownership` always admit.
   */
  lemma {:induction false} ReadNewIsRun(
      s: Sys, q: string, messages: seq<Message>, count: nat, consumer: string, h: nat)
    requires IsReply(s.db.At(q).stream, Undelivered(s.db.At(q).stream), messages) && IsFree(s, h)
    requires AreFirst(Undelivered(s.db.At(q).stream), count, messages)
    ensures IsOwnedRun(s, Deliveries(q, messages, consumer, h, true))
    ensures IsRun(s, Deliveries(q, messages, consumer, h, true))
    ensures OnlyStream(s, After(s, Deliveries(q, messages, consumer, h, true)), q,
                       ReadAll(s.db.At(q).stream, messages, consumer), HeldAll(s.holders, q, messages, h, true))
    decreases |messages|
  {
    if messages != [] {
      var stream := s.db.At(q).stream;
      var a := Deliver(q, messages[0].id, consumer, h);
      HeadIsNext(stream, messages, count);
      TailIsReply(stream, messages, count, consumer);
      DeliverHolds(s, q, messages[0], consumer, h);
      HeldCons(s.holders, q, messages, h, true);
      hide Apply, Enabled, IsReply, AreFirst, Undelivered, IsFree, HeldAll, Stream.IsNext, Fetch;
      var s1 := Apply(s, a);
      var rest := Deliveries(q, messages[1..], consumer, h + 1, true);
      ReadNewIsRun(s1, q, messages[1..], count - 1, consumer, h + 1);
      OwnedRunCons(s, a, rest);
      OnlyStreamTwice(s, s1, After(s1, rest), q, s1.db.At(q).stream, ReadAll(stream, messages, consumer),
                      s1.holders, HeldAll(s.holders, q, messages, h, true));
    }
  }

  /** Pending messages with their entries still in place, none of them twice. */
  ghost predicate IsPending(stream: Stream, messages: seq<Message>)
  {
    && (forall m :: m in messages ==> m.id in stream.pel && m.id in stream.entries && m == Fetch(stream, m.id))
    && (forall i, j :: 0 <= i < j < |messages| ==> messages[i].id != messages[j].id)
  }

  ghost predicate NobodyHolds(s: Sys, q: string, messages: seq<Message>)
  {
    forall m, k :: m in messages ==> !Holds(s, k, q, m.id)
  }

  lemma NobodyHoldsRest(s: Sys, q: string, messages: seq<Message>, consumer: string, h: nat)
    requires messages != [] && IsPending(s.db.At(q).stream, messages) && NobodyHolds(s, q, messages) && IsFree(s, h)
    ensures var a := Redeliver(q, messages[0].id, consumer, h);
            Enabled(s, a) && OwnedEnabled(s, a) && NobodyHolds(Apply(s, a), q, messages[1..])
  {
    IdsCons(messages);
    NotTwice(s.db.At(q).stream, messages);
    assert messages[0] in messages;
    forall m, k | m in messages[1..]
      ensures !Holds(Apply(s, Redeliver(q, messages[0].id, consumer, h)), k, q, m.id)
    {
      assert m in messages && m.id in Ids(messages[1..]);
      assert !Holds(s, k, q, m.id);
    }
  }

  lemma RedeliverHolds(s: Sys, q: string, message: Message, consumer: string, h: nat)
    requires IsFree(s, h) && IsPending(s.db.At(q).stream, [message])
    ensures var a := Redeliver(q, message.id, consumer, h);
            && Enabled(s, a) && IsFree(Apply(s, a), h + 1)
            && OnlyStream(s, Apply(s, a), q, s.db.At(q).stream.Reassign(message.id, consumer),
                          HeldAll(s.holders, q, [message], h, false))
  {
    assert message in [message];
    assert [message][1..] == [];
  }

  lemma NotTwice(stream: Stream, messages: seq<Message>)
    requires messages != [] && IsPending(stream, messages)
    ensures messages[0].id !in Ids(messages[1..])
  {
    forall m | m in messages[1..]
      ensures m.id != messages[0].id
    {
      var i :| 0 <= i < |messages| - 1 && messages[1..][i] == m;
      assert messages[i + 1] == m;
    }
  }

  lemma PendingTail(k: Queue, messages: seq<Message>, consumer: string)
    requires messages != [] && IsPending(k.stream, messages)
    ensures IsPending(k.stream, [messages[0]])
    ensures var rest := k.(stream := k.stream.Reassign(messages[0].id, consumer));
            && IsPending(rest.stream, messages[1..])
            && Redelivered(rest, Ids(messages[1..]), consumer) == Redelivered(k, Ids(messages), consumer)
  {
    var id := messages[0].id;
    IdsCons(messages);
    NotTwice(k.stream, messages);
    var rest := k.(stream := k.stream.Reassign(id, consumer));
    hide Ids;
    assert Redelivered(rest, Ids(messages[1..]), consumer).stream.pel
        == Redelivered(k, Ids(messages), consumer).stream.pel;
  }

  /** The theorem on pending messages: a read of one's own messages, and a claim, redeliver them one by one. */
  lemma {:induction false} RereadIsRun(s: Sys, q: string, messages: seq<Message>, consumer: string, h: nat)
    requires IsPending(s.db.At(q).stream, messages) && IsFree(s, h)
    ensures IsRun(s, Deliveries(q, messages, consumer, h, false))
    ensures OnlyStream(s, After(s, Deliveries(q, messages, consumer, h, false)), q,
                       Redelivered(s.db.At(q), Ids(messages), consumer).stream,
                       HeldAll(s.holders, q, messages, h, false))
    decreases |messages|
  {
    var k := s.db.At(q);
    if messages == [] {
      assert Redelivered(k, {}, consumer).stream.pel == k.stream.pel;
    } else {
      var a := Redeliver(q, messages[0].id, consumer, h);
      PendingTail(k, messages, consumer);
      RedeliverHolds(s, q, messages[0], consumer, h);
      HeldCons(s.holders, q, messages, h, false);
      hide Apply, Enabled, IsPending, IsFree, HeldAll, Fetch, Redelivered, Ids;
      var s1 := Apply(s, a);
      var rest := Deliveries(q, messages[1..], consumer, h + 1, false);
      RereadIsRun(s1, q, messages[1..], consumer, h + 1);
      RunCons(s, a, rest);
      OnlyStreamTwice(s, s1, After(s1, rest), q, s1.db.At(q).stream, Redelivered(k, Ids(messages), consumer).stream,
                      s1.holders, HeldAll(s.holders, q, messages, h, false));
    }
  }

  /** If nobody holds these messages, it is a run under the rules of `Ownership`, and all that they keep is kept. */
  lemma {:induction false} RereadIsOwnedRun(s: Sys, q: string, messages: seq<Message>, consumer: string, h: nat)
    requires IsPending(s.db.At(q).stream, messages) && IsFree(s, h) && NobodyHolds(s, q, messages)
    ensures IsOwnedRun(s, Deliveries(q, messages, consumer, h, false))
    ensures IsRun(s, Deliveries(q, messages, consumer, h, false))
    decreases |messages|
  {
    if messages != [] {
      var a := Redeliver(q, messages[0].id, consumer, h);
      PendingTail(s.db.At(q), messages, consumer);
      RedeliverHolds(s, q, messages[0], consumer, h);
      NobodyHoldsRest(s, q, messages, consumer, h);
      hide Apply, Enabled, IsPending, IsFree, HeldAll, Fetch, Redelivered, Ids, NobodyHolds;
      var rest := Deliveries(q, messages[1..], consumer, h + 1, false);
      RereadIsOwnedRun(Apply(s, a), q, messages[1..], consumer, h + 1);
      OwnedRunCons(s, a, rest);
    }
  }
}
