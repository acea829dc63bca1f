/**
 Redis streams with one consumer group, and Redis sorted sets.

 A stream is an ordered map from message IDs to bodies. IDs are issued in increasing order and are
 never issued twice, so that a natural number stands for the `ms-seq` pair of Redis.
 */
module Streams {
  import opened Tasks

  /** What a reader finds in the `data` field of a message. */
  datatype Body = NoData | BadJson | Data(task: Task)

  datatype PendingEntry = PendingEntry(consumer: string, deliveries: nat)

  /** `next` is the ID of the next XADD; every message below `cursor` has been delivered to the group. */
  datatype Stream = Stream(entries: map<nat, Body>, next: nat, cursor: nat, pel: map<nat, PendingEntry>)
  {
    function Add(body: Body): Stream
    {
      this.(entries := entries[next := body], next := next + 1)
    }

    function Del(id: nat): Stream
    {
      this.(entries := entries - {id})
    }

    function Ack(id: nat): Stream
    {
      this.(pel := pel - {id})
    }

    predicate HasTask(id: nat)
    {
      id in entries && entries[id].Data?
    }

    /** `id` is the first message that XREADGROUP with ">" has not handed out yet. */
    ghost predicate IsNext(id: nat)
    {
      id in entries && cursor <= id && forall other :: other in entries && cursor <= other ==> id <= other
    }

    /** XREADGROUP with ">" hands out message `id`. */
    function ReadNew(id: nat, consumer: string): Stream
    {
      this.(cursor := id + 1, pel := pel[id := PendingEntry(consumer, 1)])
    }

    /**
     XAUTOCLAIM, or XREADGROUP over a consumer's own history, reaches the pending message `id`.
     A pending message whose entry is gone leaves the pending entries list.
     */
    function Reassign(id: nat, consumer: string): Stream
      requires id in pel
    {
      if id in entries then this.(pel := pel[id := PendingEntry(consumer, pel[id].deliveries + 1)])
      else Ack(id)
    }

    predicate WellFormed()
    {
      && cursor <= next
      && (forall id :: id in entries ==> id < next)
      && (forall id :: id in pel ==> id < cursor)
    }
  }

  const EMPTY_STREAM := Stream(map[], 1, 1, map[])

  /** From sorted set members to their scores. */
  type SortedSet = map<Task, int>
}
