/** The dead letter queue of one queue, read in the order of its message IDs, and what redriving it does. */
module DeadLetters {
  import opened Wrappers
  import opened Tasks
  import opened Streams
  import opened Keys
  import opened Sets

  /** XRANGE from `lo`: the IDs of the messages that carry a task, in order. */
  function TaskIds(stream: Stream, lo: nat): (ids: seq<nat>)
    decreases stream.next - lo
  {
    if lo >= stream.next then []
    else (if stream.HasTask(lo) then [lo] else []) + TaskIds(stream, lo + 1)
  }

  /** The listing has exactly the decodable messages, oldest first. */
  lemma {:induction false} TaskIdsListing(stream: Stream, lo: nat)
    requires stream.WellFormed()
    ensures var ids := TaskIds(stream, lo);
            && (forall id: nat :: id in ids <==> lo <= id && stream.HasTask(id))
            && (forall i, j :: 0 <= i < j < |ids| ==> ids[i] < ids[j])
    decreases stream.next - lo
  {
    if lo < stream.next {
      TaskIdsListing(stream, lo + 1);
      if stream.HasTask(lo) {
        ConsListing(stream, lo, TaskIds(stream, lo + 1));
      } else {
        assert TaskIds(stream, lo) == TaskIds(stream, lo + 1);
      }
    }
  }

  lemma ConsListing(stream: Stream, lo: nat, rest: seq<nat>)
    requires forall id: nat :: id in rest <==> lo + 1 <= id && stream.HasTask(id)
    requires stream.HasTask(lo) && forall i, j :: 0 <= i < j < |rest| ==> rest[i] < rest[j]
    ensures forall id: nat :: id in [lo] + rest <==> lo <= id && stream.HasTask(id)
    ensures forall i, j :: 0 <= i < j < |[lo] + rest| ==> ([lo] + rest)[i] < ([lo] + rest)[j]
  {
    forall j | 0 <= j < |rest|
      ensures lo < rest[j]
    {
      assert rest[j] in rest;
    }
  }

  /** XRANGE from `lo`: the IDs of all the messages, in order. */
  function Range(stream: Stream, lo: nat): (ids: seq<nat>)
    ensures forall i :: 0 <= i < |ids| ==> lo <= ids[i] && ids[i] in stream.entries
    ensures forall i, j :: 0 <= i < j < |ids| ==> ids[i] < ids[j]
    decreases stream.next - lo
  {
    if lo >= stream.next then []
    else (if lo in stream.entries then [lo] else []) + Range(stream, lo + 1)
  }

  /** The messages that carry a task, in the same order. */
  function Decodable(stream: Stream, ids: seq<nat>): seq<nat>
    decreases |ids|
  {
    if ids == [] then [] else
      var last := ids[|ids| - 1];
      Decodable(stream, ids[..|ids| - 1]) + if stream.HasTask(last) then [last] else []
  }

  lemma {:induction false} DecodableAppend(stream: Stream, a: seq<nat>, b: seq<nat>)
    ensures Decodable(stream, a + b) == Decodable(stream, a) + Decodable(stream, b)
    decreases |b|
  {
    if b == [] {
      assert a + b == a;
    } else {
      assert (a + b)[..|a + b| - 1] == a + b[..|b| - 1];
      DecodableAppend(stream, a, b[..|b| - 1]);
    }
  }

  lemma {:induction false} RangeDecodes(stream: Stream, lo: nat)
    ensures Decodable(stream, Range(stream, lo)) == TaskIds(stream, lo)
    decreases stream.next - lo
  {
    if lo < stream.next {
      RangeDecodes(stream, lo + 1);
      var head: seq<nat> := if lo in stream.entries then [lo] else [];
      DecodableAppend(stream, head, Range(stream, lo + 1));
      assert head != [] ==> head[..0] == [];
      assert Range(stream, lo) == head + Range(stream, lo + 1);
    }
  }

  lemma {:induction false} RangeComplete(stream: Stream, lo: nat, id: nat)
    requires stream.WellFormed() && lo <= id && id in stream.entries
    ensures id in Range(stream, lo)
    decreases stream.next - lo
  {
    if lo < id { RangeComplete(stream, lo + 1, id); }
  }

  predicate AllTasks(stream: Stream, ids: seq<nat>)
  {
    forall id :: id in ids ==> stream.HasTask(id)
  }

  predicate IsTask(stream: Stream, id: nat, taskID: string)
  {
    stream.HasTask(id) && stream.entries[id].task.id == taskID
  }

  /** The first task with this ID among the listed ones. */
  function Find(stream: Stream, ids: seq<nat>, taskID: string): (found: Option<nat>)
    requires AllTasks(stream, ids)
    ensures found.Some? ==> found.value in ids && IsTask(stream, found.value, taskID)
    ensures found.None? ==> forall id :: id in ids ==> !IsTask(stream, id, taskID)
    decreases |ids|
  {
    if ids == [] then None
    else if IsTask(stream, ids[0], taskID) then Some(ids[0])
    else Find(stream, ids[1..], taskID)
  }

  /** The pipeline of RetryFromDLQ, right after its lookup. */
  function RedriveIn(k: Queue, id: nat): Queue
    requires k.dlq.HasTask(id)
  {
    k.Redrive(id, k.dlq.entries[id].task)
  }

  function RedriveFound(db: Db, q: string, id: nat): Db
    requires db.At(q).dlq.HasTask(id)
  {
    Keys.Redrive(db, q, id, db.At(q).dlq.entries[id].task)
  }

  datatype RedriveResult = Moved | NotFound | Panicked

  /** RetryFromDLQ. A task without metadata makes it dereference a nil pointer. */
  function RetryFromDLQ(db: Db, q: string, taskID: string): (Db, RedriveResult)
    requires db.At(q).dlq.WellFormed()
  {
    TaskIdsListing(db.At(q).dlq, 0);
    match Find(db.At(q).dlq, TaskIds(db.At(q).dlq, 0), taskID)
    case None => (db, NotFound)
    case Some(id) =>
      if db.At(q).dlq.entries[id].task.metadata.None? then (db, Panicked) else (RedriveFound(db, q, id), Moved)
  }

  /** It takes the oldest message with this task ID, which is the one that the lifecycle redrives. */
  lemma FindsFirst(db: Db, q: string, taskID: string)
    requires db.At(q).dlq.WellFormed()
    ensures AllTasks(db.At(q).dlq, TaskIds(db.At(q).dlq, 0))
    ensures match Find(db.At(q).dlq, TaskIds(db.At(q).dlq, 0), taskID)
            case None => forall id :: !db.At(q).InDLQ(taskID, id)
            case Some(id) => db.At(q).IsFirstInDLQ(taskID, id)
  {
    var dlq := db.At(q).dlq;
    TaskIdsListing(dlq, 0);
    assert forall id: nat :: IsTask(dlq, id, taskID) ==> id in TaskIds(dlq, 0);
    FindIsFirst(dlq, TaskIds(dlq, 0), taskID);
  }

  lemma {:induction false} FindIsFirst(stream: Stream, ids: seq<nat>, taskID: string)
    requires AllTasks(stream, ids)
    requires forall i, j :: 0 <= i < j < |ids| ==> ids[i] < ids[j]
    ensures var found := Find(stream, ids, taskID);
            found.Some? ==> forall id :: id in ids && IsTask(stream, id, taskID) ==> found.value <= id
    decreases |ids|
  {
    if ids != [] && !IsTask(stream, ids[0], taskID) {
      FindIsFirst(stream, ids[1..], taskID);
      assert forall id :: id in ids ==> id == ids[0] || id in ids[1..];
    }
  }

  /** The messages `ids` go back to the stream, one after the other. */
  function RedriveAll(db: Db, q: string, ids: seq<nat>): Db
    decreases |ids|
  {
    if ids == [] || !db.At(q).dlq.HasTask(ids[0]) then db else RedriveAll(RedriveFound(db, q, ids[0]), q, ids[1..])
  }

  /** A redrive takes one message out of the listing and leaves the rest as it is. */
  lemma {:induction false} TaskIdsAfterDel(stream: Stream, lo: nat, id: nat)
    requires stream.WellFormed() && TaskIds(stream, lo) != [] && TaskIds(stream, lo)[0] == id
    ensures TaskIds(stream.Del(id), lo) == TaskIds(stream, lo)[1..]
    decreases stream.next - lo
  {
    if stream.HasTask(lo) {
      assert id == lo && TaskIds(stream, lo)[1..] == TaskIds(stream, lo + 1);
      TaskIdsAbove(stream, lo + 1, lo);
    } else {
      TaskIdsAfterDel(stream, lo + 1, id);
    }
  }

  lemma {:induction false} TaskIdsAbove(stream: Stream, lo: nat, id: nat)
    requires id < lo
    ensures TaskIds(stream.Del(id), lo) == TaskIds(stream, lo)
    decreases stream.next - lo
  {
    if lo < stream.next { TaskIdsAbove(stream, lo + 1, id); }
  }

  predicate HasMetadata(stream: Stream, id: nat)
  {
    stream.HasTask(id) && stream.entries[id].task.metadata.Some?
  }

  /**
   Looking for the task at the head of the listing finds exactly that message, even if other ones carry the same ID.
   */
  lemma HeadIsFound(db: Db, q: string)
    requires db.At(q).dlq.WellFormed() && TaskIds(db.At(q).dlq, 0) != []
    ensures var (k, id) := (db.At(q), TaskIds(db.At(q).dlq, 0)[0]);
            k.dlq.HasTask(id)
            && RetryFromDLQ(db, q, k.dlq.entries[id].task.id)
               == if HasMetadata(k.dlq, id) then (RedriveFound(db, q, id), Moved) else (db, Panicked)
  {
    TaskIdsListing(db.At(q).dlq, 0);
  }

  /** GetDLQ: the first `limit` tasks, or all of them if `limit` is not positive. */
  function Listed(stream: Stream, limit: int): seq<nat>
  {
    var ids := TaskIds(stream, 0);
    if 0 < limit < |ids| then ids[..limit] else ids
  }

  /** The tasks among the first `i` messages are listed if there are `limit` of them, or if `i` is the end. */
  lemma ListedBy(stream: Stream, limit: int, i: nat)
    requires i <= |Range(stream, 0)|
    requires var ids := Decodable(stream, Range(stream, 0)[..i]);
             if i < |Range(stream, 0)| then 0 < limit == |ids| else limit <= 0 || |ids| <= limit
    ensures Listed(stream, limit) == Decodable(stream, Range(stream, 0)[..i])
  {
    hide Range, Decodable;
    var messages := Range(stream, 0);
    RangeDecodes(stream, 0);
    assert messages == messages[..i] + messages[i..];
    DecodableAppend(stream, messages[..i], messages[i..]);
    if i == |messages| { assert messages[..i] == messages; }
  }

  lemma DecodableSnoc(stream: Stream, messages: seq<nat>, i: nat)
    requires i < |messages|
    ensures Decodable(stream, messages[..i + 1])
            == Decodable(stream, messages[..i]) + if stream.HasTask(messages[i]) then [messages[i]] else []
  {
    assert messages[..i + 1][..i] == messages[..i];
  }

  function TasksOf(stream: Stream, ids: seq<nat>): seq<Task>
    requires AllTasks(stream, ids)
  {
    seq(|ids|, i requires 0 <= i < |ids| => assert ids[i] in ids; stream.entries[ids[i]].task)
  }

  lemma TasksOfAt(stream: Stream, ids: seq<nat>)
    requires AllTasks(stream, ids)
    ensures |TasksOf(stream, ids)| == |ids|
    ensures forall i :: 0 <= i < |ids| ==>
              stream.HasTask(ids[i]) && TasksOf(stream, ids)[i] == stream.entries[ids[i]].task
  {
    forall i | 0 <= i < |ids| ensures stream.HasTask(ids[i]) { assert ids[i] in ids; }
  }

  lemma TasksOfSnoc(stream: Stream, ids: seq<nat>, id: nat)
    requires AllTasks(stream, ids) && stream.HasTask(id)
    ensures AllTasks(stream, ids + [id])
    ensures TasksOf(stream, ids + [id]) == TasksOf(stream, ids) + [stream.entries[id].task]
  {
  }

  /** How many of the listed tasks come before the first one without metadata. */
  function Redrivable(stream: Stream, ids: seq<nat>): (n: nat)
    ensures n <= |ids|
    ensures forall i :: 0 <= i < n ==> HasMetadata(stream, ids[i])
    ensures n < |ids| ==> !HasMetadata(stream, ids[n])
    decreases |ids|
  {
    if ids == [] || !HasMetadata(stream, ids[0]) then 0 else 1 + Redrivable(stream, ids[1..])
  }

  lemma RedrivableReaches(stream: Stream, ids: seq<nat>, i: nat)
    requires i <= Redrivable(stream, ids) && i < |ids|
    ensures HasMetadata(stream, ids[i]) <==> i < Redrivable(stream, ids)
  {
  }

  /** The tasks `ids` have gone, in this order, from the dead letter queue to the end of the stream. */
  ghost predicate MovedFromDLQ(k: Queue, k': Queue, ids: seq<nat>)
    requires AllTasks(k.dlq, ids)
  {
    && k'.dlq == k.dlq.(entries := k.dlq.entries - Elements(ids))
    && k'.scheduled == k.scheduled && k'.retry == k.retry && k'.stats == k.stats
    && k'.stream.cursor == k.stream.cursor && k'.stream.pel == k.stream.pel
    && k'.stream.next == k.stream.next + |ids|
    && (forall id :: id in k'.stream.entries <==> id in k.stream.entries || k.stream.next <= id < k'.stream.next)
    && (forall id :: id in k.stream.entries && id < k.stream.next ==> k'.stream.entries[id] == k.stream.entries[id])
    && (forall i :: 0 <= i < |ids| ==> IsRedriven(k, k', ids[i], k.stream.next + i))
  }

  predicate IsRedriven(k: Queue, k': Queue, from: nat, to: nat)
  {
    k.dlq.HasTask(from) && k'.stream.HasTask(to) && k'.stream.entries[to].task == k.dlq.entries[from].task.Redriven()
  }

  lemma {:induction false} RedriveAllSnoc(db: Db, q: string, ids: seq<nat>, id: nat)
    requires AllTasks(db.At(q).dlq, ids + [id]) && Distinct(ids + [id])
    ensures RedriveAll(db, q, ids).At(q).dlq.HasTask(id)
    ensures RedriveAll(db, q, ids + [id]) == RedriveFound(RedriveAll(db, q, ids), q, id)
    decreases |ids|
  {
    assert (ids + [id])[|ids|] == id;
    if ids == [] {
      assert ([id])[1..] == [];
      assert RedriveAll(RedriveFound(db, q, id), q, []) == RedriveFound(db, q, id);
      assert ids + [id] == [id];
    } else {
      assert (ids + [id])[0] == ids[0];
      assert (ids + [id])[1..] == ids[1..] + [id];
      forall x | x in ids[1..] + [id]
        ensures RedriveFound(db, q, ids[0]).At(q).dlq.HasTask(x)
      {
        assert x in ids + [id];
      }
      RedriveAllSnoc(RedriveFound(db, q, ids[0]), q, ids[1..], id);
    }
  }

  lemma RedrivenSnoc(k: Queue, k1: Queue, k2: Queue, ids: seq<nat>, id: nat)
    requires AllTasks(k.dlq, ids + [id]) && id !in ids && AllTasks(k.dlq, ids) && MovedFromDLQ(k, k1, ids)
    requires k1.dlq.HasTask(id) && k2 == RedriveIn(k1, id)
    ensures MovedFromDLQ(k, k2, ids + [id])
  {
    var all := ids + [id];
    assert Elements(all) == Elements(ids) + {id};
    assert all[|ids|] == id && id in all;
    forall i | 0 <= i < |all| ensures IsRedriven(k, k2, all[i], k.stream.next + i) {
      if i < |ids| { assert IsRedriven(k, k1, ids[i], k.stream.next + i); }
    }
  }

  lemma RedrivenKeeps(k: Queue, k': Queue, ids: seq<nat>, id: nat)
    requires AllTasks(k.dlq, ids) && MovedFromDLQ(k, k', ids) && id in k'.dlq.entries
    ensures id in k.dlq.entries && k'.dlq.entries[id] == k.dlq.entries[id]
  {
  }

  /** The processed keys of the tasks in these messages. */
  function KeysOf(stream: Stream, ids: seq<nat>): set<string>
    requires AllTasks(stream, ids)
  {
    set id | id in ids :: stream.entries[id].task.id
  }

  lemma KeysOfSnoc(stream: Stream, ids: seq<nat>, id: nat)
    requires AllTasks(stream, ids) && AllTasks(stream, ids + [id]) && stream.HasTask(id)
    ensures KeysOf(stream, ids + [id]) == KeysOf(stream, ids) + {stream.entries[id].task.id}
  {
    assert (ids + [id])[|ids|] == id;
    forall i | i in ids
      ensures i in ids + [id]
    {
    }
  }

  lemma RedriveEffect(db: Db, q: string, id: nat)
    requires db.At(q).dlq.HasTask(id)
    ensures var db' := RedriveFound(db, q, id);
            && db'.At(q) == RedriveIn(db.At(q), id)
            && (forall other :: other != q ==> db'.At(other) == db.At(other))
            && db'.processed == db.processed - {db.At(q).dlq.entries[id].task.id}
            && db'.known == db.known && db'.unique == db.unique
  {
  }

  /**
   The theorem: redriving a list of messages moves exactly these, in order, to the end of the stream, with a
   fresh retry budget; their processed keys are gone and nothing else changes.
   */
  lemma {:induction false} RedriveAllMoves(db: Db, q: string, ids: seq<nat>)
    requires AllTasks(db.At(q).dlq, ids) && Distinct(ids)
    ensures var db' := RedriveAll(db, q, ids);
            && MovedFromDLQ(db.At(q), db'.At(q), ids)
            && (forall other :: other != q ==> db'.At(other) == db.At(other))
            && db'.processed == db.processed - KeysOf(db.At(q).dlq, ids)
            && db'.known == db.known && db'.unique == db.unique
    decreases |ids|
  {
    if ids == [] {
      assert Elements(ids) == {};
    } else {
      hide MovedFromDLQ, RedriveAll, KeysOf, RedriveFound;
      var (init, id) := (ids[..|ids| - 1], ids[|ids| - 1]);
      assert init + [id] == ids && id !in init;
      RedriveAllMoves(db, q, init);
      RedriveAllSnoc(db, q, init, id);
      var db1 := RedriveAll(db, q, init);
      RedriveEffect(db1, q, id);
      assert db1.At(q).dlq.entries[id] == db.At(q).dlq.entries[id] by { RedrivenKeeps(db.At(q), db1.At(q), init, id); }
      RedrivenSnoc(db.At(q), db1.At(q), RedriveAll(db, q, ids).At(q), init, id);
      KeysOfSnoc(db.At(q).dlq, init, id);
    }
  }

  /** `now` lacks exactly the first `i` of the tasks in `before`. */
  ghost predicate RemainsFrom(before: Stream, now: Stream, i: nat)
  {
    && now.WellFormed() && i <= |TaskIds(before, 0)| && TaskIds(now, 0) == TaskIds(before, 0)[i..]
    && (forall id :: id in TaskIds(now, 0)
           ==> before.HasTask(id) && now.HasTask(id) && now.entries[id] == before.entries[id])
  }

  lemma ListedPrefix(stream: Stream, limit: int)
    requires stream.WellFormed()
    ensures var ids := Listed(stream, limit);
            && |ids| <= |TaskIds(stream, 0)| && ids == TaskIds(stream, 0)[..|ids|]
            && AllTasks(stream, ids) && Distinct(ids)
    ensures RemainsFrom(stream, stream, 0)
  {
    TaskIdsListing(stream, 0);
    assert forall id :: id in Listed(stream, limit) ==> id in TaskIds(stream, 0);
  }

  /** One turn of the loop that retries all dead tasks: the task at the head goes, whatever IDs the other ones have. */
  lemma RetryTurn(db: Db, now: Db, q: string, limit: int, i: nat)
    requires db.At(q).dlq.WellFormed() && i < |Listed(db.At(q).dlq, limit)|
    requires now == RedriveAll(db, q, Listed(db.At(q).dlq, limit)[..i]) && RemainsFrom(db.At(q).dlq, now.At(q).dlq, i)
    ensures var (dlq, id) := (db.At(q).dlq, Listed(db.At(q).dlq, limit)[i]);
            dlq.HasTask(id) &&
            if HasMetadata(dlq, id) then
              && RetryFromDLQ(now, q, dlq.entries[id].task.id)
                 == (RedriveAll(db, q, Listed(dlq, limit)[..i + 1]), Moved)
              && RemainsFrom(dlq, RedriveAll(db, q, Listed(dlq, limit)[..i + 1]).At(q).dlq, i + 1)
            else RetryFromDLQ(now, q, dlq.entries[id].task.id) == (now, Panicked)
  {
    var (dlq, ids) := (db.At(q).dlq, Listed(db.At(q).dlq, limit));
    ListedPrefix(dlq, limit);
    hide Listed, TaskIds, AllTasks, Distinct, RemainsFrom, RedriveAll, RetryFromDLQ, RedriveFound, RedriveIn;
    var id := ids[i];
    RemainsHead(dlq, now.At(q).dlq, i);
    HeadIsFound(now, q);
    if HasMetadata(dlq, id) {
      RedriveAllTurn(db, q, ids, i);
      RedriveEffect(now, q, id);
      RemainsAfter(dlq, now.At(q).dlq, i);
      assert RedriveIn(now.At(q), id).dlq == now.At(q).dlq.Del(id) by { RedriveDeletes(now.At(q), id); }
    }
  }

  lemma RedriveDeletes(k: Queue, id: nat)
    requires k.dlq.HasTask(id)
    ensures RedriveIn(k, id).dlq == k.dlq.Del(id)
  {
  }

  lemma RedriveAllTurn(db: Db, q: string, ids: seq<nat>, i: nat)
    requires AllTasks(db.At(q).dlq, ids) && Distinct(ids) && i < |ids|
    ensures RedriveAll(db, q, ids[..i]).At(q).dlq.HasTask(ids[i])
    ensures RedriveAll(db, q, ids[..i + 1]) == RedriveFound(RedriveAll(db, q, ids[..i]), q, ids[i])
  {
    hide RedriveAll, RedriveFound;
    var id := ids[i];
    assert ids[..i + 1] == ids[..i] + [id];
    assert forall x :: x in ids[..i + 1] ==> x in ids;
    RedriveAllSnoc(db, q, ids[..i], id);
  }

  lemma RemainsHead(before: Stream, now: Stream, i: nat)
    requires RemainsFrom(before, now, i) && i < |TaskIds(before, 0)|
    ensures var id := TaskIds(before, 0)[i];
            && now.WellFormed() && TaskIds(now, 0) != [] && TaskIds(now, 0)[0] == id
            && before.HasTask(id) && now.HasTask(id) && now.entries[id] == before.entries[id]
  {
    hide TaskIds;
    assert TaskIds(now, 0)[0] in TaskIds(now, 0);
  }

  lemma RemainsAfter(before: Stream, now: Stream, i: nat)
    requires RemainsFrom(before, now, i) && i < |TaskIds(before, 0)|
    ensures RemainsFrom(before, now.Del(TaskIds(before, 0)[i]), i + 1)
  {
    var id := TaskIds(before, 0)[i];
    assert id == TaskIds(now, 0)[0];
    TaskIdsAfterDel(now, 0, id);
    TaskIdsListing(now, 0);
    TaskIdsListing(now.Del(id), 0);
    hide TaskIds;
  }
}
