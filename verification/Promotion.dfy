/**
 The two promotion scripts. They differ only in the sorted set that they read, so one definition serves both.
 A run visits every known queue and moves at most `limit` due members of each, in the order of the sorted set.
 */
module Promotion {
  import opened Tasks
  import opened Streams
  import opened Keys
  import opened Sets

  datatype Source = FromScheduled | FromRetry

  function SetOf(k: Queue, src: Source): SortedSet
  {
    match src
    case FromScheduled => k.scheduled
    case FromRetry => k.retry
  }

  function Promote(k: Queue, src: Source, member: Task): Queue
  {
    match src
    case FromScheduled => k.PromoteScheduled(member)
    case FromRetry => k.PromoteRetry(member)
  }

  /** The order of members with equal scores: byte order of their encodings, which are not modelled here. */
  ghost predicate IsOrder(less: (Task, Task) -> bool)
  {
    && (forall a, b :: a != b ==> less(a, b) != less(b, a))
    && (forall a, b, c :: a != b && b != c && a != c && less(a, b) && less(b, c) ==> less(a, c))
  }

  predicate Before(z: SortedSet, less: (Task, Task) -> bool, a: Task, b: Task)
    requires a in z && b in z
  {
    z[a] < z[b] || (z[a] == z[b] && less(a, b))
  }

  predicate IsFirst(z: SortedSet, less: (Task, Task) -> bool, members: set<Task>, m: Task)
    requires members <= z.Keys
  {
    m in members && forall other :: other in members && other != m ==> Before(z, less, m, other)
  }

  lemma {:induction false} FirstExists(
      z: SortedSet, less: (Task, Task) -> bool, members: set<Task>) returns (first: Task)
    requires IsOrder(less) && members <= z.Keys && members != {}
    ensures IsFirst(z, less, members, first)
  {
    var m :| m in members;
    var rest := members - {m};
    if rest == {} {
      first := m;
      assert members == {m};
    } else {
      var best := FirstExists(z, less, rest);
      first := if Before(z, less, m, best) then m else best;
      assert forall other :: other in members && other != m ==> other in rest;
    }
  }

  lemma FirstUnique(z: SortedSet, less: (Task, Task) -> bool, members: set<Task>)
    requires IsOrder(less) && members <= z.Keys && members != {}
    ensures exists m :: IsFirst(z, less, members, m)
    ensures forall m, m' :: IsFirst(z, less, members, m) && IsFirst(z, less, members, m') ==> m == m'
  {
    var first := FirstExists(z, less, members);
  }

  /** The members in the order of the sorted set. */
  function Ordered(z: SortedSet, less: (Task, Task) -> bool, members: set<Task>): seq<Task>
    requires IsOrder(less) && members <= z.Keys
  {
    if members == {} then []
    else
      FirstUnique(z, less, members);
      var first :| first in members && IsFirst(z, less, members, first);
      [first] + Ordered(z, less, members - {first})
  }

  function Due(z: SortedSet, cutoff: int): set<Task>
  {
    set m | m in z && z[m] <= cutoff
  }

  /** ZRANGEBYSCORE from minus infinity to `cutoff`. */
  function Ready(z: SortedSet, less: (Task, Task) -> bool, cutoff: int): seq<Task>
    requires IsOrder(less)
  {
    Ordered(z, less, Due(z, cutoff))
  }

  /** LIMIT 0 `limit`; Redis reads a negative limit as no limit. */
  function Take(s: seq<Task>, limit: int): seq<Task>
  {
    if 0 <= limit < |s| then s[..limit] else s
  }

  /** The inner loop of the script. */
  function PromoteList(k: Queue, src: Source, members: seq<Task>): Queue
    decreases |members|
  {
    if members == [] then k else PromoteList(Promote(k, src, members[0]), src, members[1..])
  }

  function PromoteIn(db: Db, q: string, src: Source, members: seq<Task>): Db
  {
    if members == [] then db else db.Put(q, PromoteList(db.At(q), src, members))
  }

  lemma PromoteInStep(db: Db, q: string, src: Source, members: seq<Task>)
    requires members != []
    ensures PromoteIn(db.Put(q, Promote(db.At(q), src, members[0])), q, src, members[1..])
            == PromoteIn(db, q, src, members)
  {
    var k1 := Promote(db.At(q), src, members[0]);
    hide Promote;
    PutTwice(db, q, k1, PromoteList(k1, src, members[1..]));
    assert PromoteList(db.At(q), src, members) == PromoteList(k1, src, members[1..]);
    if members[1..] == [] { assert PromoteList(k1, src, []) == k1; }
  }

  function Batch(k: Queue, src: Source, less: (Task, Task) -> bool, cutoff: int, limit: int): seq<Task>
    requires IsOrder(less)
  {
    Take(Ready(SetOf(k, src), less, cutoff), limit)
  }

  /** The outer loop of the script, over the queues in the order in which SMEMBERS returns them. */
  function Script(
      db: Db, src: Source, less: (Task, Task) -> bool, order: seq<string>, cutoff: int, limit: int): (Db, nat)
    requires IsOrder(less)
    decreases |order|
  {
    if order == [] then (db, 0)
    else
      var q := order[0];
      var members := Batch(db.At(q), src, less, cutoff, limit);
      var (db', count) := Script(PromoteIn(db, q, src, members), src, less, order[1..], cutoff, limit);
      (db', |members| + count)
  }

  ghost predicate IsListing(z: SortedSet, less: (Task, Task) -> bool, members: set<Task>, s: seq<Task>)
    requires members <= z.Keys
  {
    && (forall m :: m in s <==> m in members) && |s| == |members|
    && (forall i, j :: 0 <= i < j < |s| ==> s[i] != s[j] && Before(z, less, s[i], s[j]))
  }

  lemma ListingCons(z: SortedSet, less: (Task, Task) -> bool, members: set<Task>, first: Task, rest: seq<Task>)
    requires members <= z.Keys && IsFirst(z, less, members, first) && IsListing(z, less, members - {first}, rest)
    ensures IsListing(z, less, members, [first] + rest)
  {
    hide Before;
    var s := [first] + rest;
    forall m ensures m in s <==> m in members { assert m in s <==> m == first || m in rest; }
    forall i, j | 0 <= i < j < |s| ensures s[i] != s[j] && Before(z, less, s[i], s[j]) {
      assert s[j] == rest[j - 1] && s[j] in rest;
      if i > 0 { assert s[i] == rest[i - 1]; }
    }
  }

  /** The listing has exactly the given members, each once, earlier ones first. */
  lemma {:induction false} OrderedIsListing(z: SortedSet, less: (Task, Task) -> bool, members: set<Task>)
    requires IsOrder(less) && members <= z.Keys
    ensures IsListing(z, less, members, Ordered(z, less, members))
    decreases |members|
  {
    if members != {} {
      hide IsListing, Before;
      FirstUnique(z, less, members);
      var first :| IsFirst(z, less, members, first);
      assert Ordered(z, less, members) == [first] + Ordered(z, less, members - {first});
      OrderedIsListing(z, less, members - {first});
      ListingCons(z, less, members, first, Ordered(z, less, members - {first}));
    } else {
      assert Ordered(z, less, members) == [];
    }
  }

  /** The order of the remaining members does not depend on the ones that are gone. */
  lemma {:induction false} OrderedElsewhere(z: SortedSet, z': SortedSet, less: (Task, Task) -> bool, members: set<Task>)
    requires IsOrder(less) && members <= z.Keys && members <= z'.Keys
    requires forall m :: m in members ==> z[m] == z'[m]
    ensures Ordered(z, less, members) == Ordered(z', less, members)
  {
    if members != {} {
      FirstUnique(z, less, members);
      var first := Ordered(z, less, members)[0];
      assert IsFirst(z', less, members, first);
      FirstUnique(z', less, members);
      OrderedElsewhere(z, z', less, members - {first});
    }
  }

  function Other(src: Source): Source
  {
    if src.FromRetry? then FromScheduled else FromRetry
  }

  /** `k'` is `k` after its `members` have moved, in this order, from the sorted set to the end of the stream. */
  ghost predicate Promoted(k: Queue, k': Queue, src: Source, members: seq<Task>)
  {
    && SetOf(k', src) == SetOf(k, src) - Elements(members)
    && SetOf(k', Other(src)) == SetOf(k, Other(src))
    && k'.stats == k.stats.(enqueued := k.stats.enqueued + |members|)
    && k'.dlq == k.dlq && k'.stream.cursor == k.stream.cursor && k'.stream.pel == k.stream.pel
    && k'.stream.next == k.stream.next + |members|
    && (forall id :: id in k'.stream.entries <==> id in k.stream.entries || k.stream.next <= id < k'.stream.next)
    && (forall id :: id in k.stream.entries && id < k.stream.next ==> k'.stream.entries[id] == k.stream.entries[id])
    && (forall i :: 0 <= i < |members| ==> k'.stream.entries[k.stream.next + i] == Data(members[i].WithState(Pending)))
  }

  lemma PromotedCons(k: Queue, k1: Queue, k2: Queue, src: Source, m: Task, rest: seq<Task>)
    requires Promoted(k, k1, src, [m]) && Promoted(k1, k2, src, rest)
    ensures Promoted(k, k2, src, [m] + rest)
  {
    var all := [m] + rest;
    assert Elements(all) == {m} + Elements(rest) && Elements([m]) == {m};
    forall i | 0 <= i < |all| ensures k2.stream.entries[k.stream.next + i] == Data(all[i].WithState(Pending)) {
      if i == 0 { assert k1.stream.entries[k.stream.next + 0] == Data([m][0].WithState(Pending)); }
      else { assert all[i] == rest[i - 1] && k.stream.next + i == k1.stream.next + (i - 1); }
    }
  }

  /** What the inner loop does to the keys of its queue. */
  lemma {:induction false} PromoteListPromotes(k: Queue, src: Source, members: seq<Task>)
    ensures Promoted(k, PromoteList(k, src, members), src, members)
    decreases |members|
  {
    if members != [] {
      hide Promoted;
      PromoteOne(k, src, members[0]);
      PromoteListPromotes(Promote(k, src, members[0]), src, members[1..]);
      PromotedCons(k, Promote(k, src, members[0]), PromoteList(k, src, members), src, members[0], members[1..]);
      assert members == [members[0]] + members[1..];
    }
  }

  lemma PromoteOne(k: Queue, src: Source, m: Task)
    ensures Promoted(k, Promote(k, src, m), src, [m])
  {
    assert Elements([m]) == {m};
  }

  lemma {:induction false} OrderedDrop(z: SortedSet, less: (Task, Task) -> bool, members: set<Task>, n: nat)
    requires IsOrder(less) && members <= z.Keys && n <= |Ordered(z, less, members)|
    ensures Elements(Ordered(z, less, members)[..n]) <= members
    ensures Ordered(z, less, members)[n..] == Ordered(z, less, members - Elements(Ordered(z, less, members)[..n]))
    decreases n
  {
    var all := Ordered(z, less, members);
    if n == 0 {
      assert members - Elements(all[..0]) == members;
    } else {
      FirstUnique(z, less, members);
      var first :| IsFirst(z, less, members, first);
      var rest := Ordered(z, less, members - {first});
      assert all == [first] + rest;
      OrderedDrop(z, less, members - {first}, n - 1);
      assert all[..n] == [first] + rest[..n - 1];
      assert Elements(all[..n]) == {first} + Elements(rest[..n - 1]);
      assert members - Elements(all[..n]) == members - {first} - Elements(rest[..n - 1]);
    }
  }

  /** After a batch, the ready list is what the batch has left of it. */
  lemma ReadyAfter(k: Queue, src: Source, less: (Task, Task) -> bool, cutoff: int, n: nat)
    requires IsOrder(less) && n <= |Ready(SetOf(k, src), less, cutoff)|
    ensures var all := Ready(SetOf(k, src), less, cutoff);
            Ready(SetOf(PromoteList(k, src, all[..n]), src), less, cutoff) == all[n..]
  {
    var z := SetOf(k, src);
    var all := Ready(z, less, cutoff);
    var z' := SetOf(PromoteList(k, src, all[..n]), src);
    PromoteListPromotes(k, src, all[..n]);
    hide PromoteList, SetOf;
    OrderedDrop(z, less, Due(z, cutoff), n);
    assert z' == z - Elements(all[..n]);
    assert Due(z', cutoff) == Due(z, cutoff) - Elements(all[..n]);
    OrderedElsewhere(z, z', less, Due(z', cutoff));
  }

  lemma {:induction false} PromoteListAppend(k: Queue, src: Source, a: seq<Task>, b: seq<Task>)
    ensures PromoteList(PromoteList(k, src, a), src, b) == PromoteList(k, src, a + b)
    decreases |a|
  {
    hide Promote;
    if a == [] {
      assert a + b == b;
    } else {
      PromoteListAppend(Promote(k, src, a[0]), src, a[1..], b);
      assert (a + b)[1..] == a[1..] + b;
    }
  }

  /** One queue after `n` runs of the script with the same cutoff. */
  ghost function Ticks(k: Queue, src: Source, less: (Task, Task) -> bool, cutoff: int, limit: int, n: nat): Queue
    requires IsOrder(less)
    decreases n
  {
    if n == 0 then k
    else Ticks(PromoteList(k, src, Batch(k, src, less, cutoff, limit)), src, less, cutoff, limit, n - 1)
  }

  /** How many of `ready` tasks `n` runs with this limit move. */
  function MovedBy(n: nat, limit: nat, ready: nat): nat
  {
    if n * limit < ready then n * limit else ready
  }

  lemma MovedByStep(n: nat, limit: nat, ready: nat)
    requires n > 0
    ensures var first := MovedBy(1, limit, ready);
            && first <= ready && MovedBy(n - 1, limit, ready - first) <= ready - first
            && MovedBy(n, limit, ready) == first + MovedBy(n - 1, limit, ready - first)
  {
    assert n * limit == (n - 1) * limit + limit;
    if limit >= ready { assert n * limit >= limit; }
  }

  /**
   One queue by itself: `n` runs with a limit have moved the first `n * limit` tasks that were
   ready, and nothing else, as a single pass over that prefix would have done; the rest is still ready.
   */
  lemma {:induction false} TicksMovePrefix(
      k: Queue, src: Source, less: (Task, Task) -> bool, cutoff: int, limit: nat, n: nat)
    requires IsOrder(less)
    ensures var all := Ready(SetOf(k, src), less, cutoff);
            var moved := MovedBy(n, limit, |all|);
            && Ticks(k, src, less, cutoff, limit, n) == PromoteList(k, src, all[..moved])
            && Ready(SetOf(Ticks(k, src, less, cutoff, limit, n), src), less, cutoff) == all[moved..]
    decreases n
  {
    hide Ready, SetOf, PromoteList, IsOrder;
    var all := Ready(SetOf(k, src), less, cutoff);
    if n == 0 {
      NoneMoved(k, src, all);
    } else {
      var first := MovedBy(1, limit, |all|);
      var rest := MovedBy(n - 1, limit, |all| - first);
      assert Batch(k, src, less, cutoff, limit) == all[..first];
      MovedByStep(n, limit, |all|);
      hide MovedBy, Batch;
      var k1 := PromoteList(k, src, all[..first]);
      ReadyAfter(k, src, less, cutoff, first);
      TicksMovePrefix(k1, src, less, cutoff, limit, n - 1);
      PromoteListAppend(k, src, all[..first], all[first..][..rest]);
      assert all[..first] + all[first..][..rest] == all[..first + rest];
      assert all[first..][rest..] == all[first + rest..];
    }
  }

  lemma NoneMoved(k: Queue, src: Source, all: seq<Task>)
    ensures PromoteList(k, src, all[..0]) == k && all[0..] == all
  {
    assert all[..0] == [];
  }

  /** Enough runs with any positive limit do what one run without a limit does. */
  lemma BatchedIsUnlimited(k: Queue, src: Source, less: (Task, Task) -> bool, cutoff: int, limit: nat, n: nat)
    requires IsOrder(less) && n * limit >= |Ready(SetOf(k, src), less, cutoff)|
    ensures Ticks(k, src, less, cutoff, limit, n) == PromoteList(k, src, Batch(k, src, less, cutoff, -1))
  {
    TicksMovePrefix(k, src, less, cutoff, limit, n);
    var all := Ready(SetOf(k, src), less, cutoff);
    assert all[..|all|] == all;
  }

  /** Each queue is served by itself: the limit is per queue, and the order in which the queues come does not matter. */
  lemma {:induction false} ScriptAt(
      db: Db, src: Source, less: (Task, Task) -> bool, order: seq<string>, cutoff: int, limit: int, q: string)
    requires IsOrder(less) && Distinct(order)
    ensures var db' := Script(db, src, less, order, cutoff, limit).0;
            && db'.At(q)
               == (if q in order then PromoteList(db.At(q), src, Batch(db.At(q), src, less, cutoff, limit))
                   else db.At(q))
            && db'.known == db.known && db'.processed == db.processed && db'.unique == db.unique
            && (q in db'.queues <==> q in db.queues || (q in order && Batch(db.At(q), src, less, cutoff, limit) != []))
    decreases |order|
  {
    if order != [] {
      hide PromoteList, Batch, IsOrder;
      HeadName(order);
      NoneMoved(db.At(order[0]), src, []);
      hide Elements;
      var db1 := PromoteIn(db, order[0], src, Batch(db.At(order[0]), src, less, cutoff, limit));
      ScriptAt(db1, src, less, order[1..], cutoff, limit, q);
    }
  }

  /** One run of the script after the other; each may find the queues in another order. */
  function Runs(db: Db, src: Source, less: (Task, Task) -> bool, orders: seq<seq<string>>, cutoff: int, limit: int): Db
    requires IsOrder(less)
    decreases |orders|
  {
    if orders == [] then db
    else Runs(Script(db, src, less, orders[0], cutoff, limit).0, src, less, orders[1..], cutoff, limit)
  }

  predicate AllList(orders: seq<seq<string>>, q: string)
  {
    forall order :: order in orders ==> Distinct(order) && q in order
  }

  /** What repeated runs do to a queue that they all visit. */
  lemma {:induction false} RunsAt(
      db: Db, src: Source, less: (Task, Task) -> bool, orders: seq<seq<string>>, cutoff: int, limit: int, q: string)
    requires IsOrder(less) && AllList(orders, q)
    ensures Runs(db, src, less, orders, cutoff, limit).At(q) == Ticks(db.At(q), src, less, cutoff, limit, |orders|)
    decreases |orders|
  {
    hide IsOrder, PromoteList, Batch, Script, Distinct;
    if orders != [] {
      assert orders[0] in orders;
      ScriptAt(db, src, less, orders[0], cutoff, limit, q);
      assert forall order :: order in orders[1..] ==> order in orders;
      RunsAt(Script(db, src, less, orders[0], cutoff, limit).0, src, less, orders[1..], cutoff, limit, q);
    }
  }

  /**
   The theorem on batching, for the script itself: repeated runs, each with its own order of the queues, have moved
   the first `|orders| * limit` ready tasks of every queue that they visit, in order, and left the rest ready.
   */
  lemma RunsMovePrefix(
      db: Db, src: Source, less: (Task, Task) -> bool, orders: seq<seq<string>>, cutoff: int, limit: nat, q: string)
    requires IsOrder(less) && AllList(orders, q)
    ensures var all := Ready(SetOf(db.At(q), src), less, cutoff);
            var moved := MovedBy(|orders|, limit, |all|);
            var k := Runs(db, src, less, orders, cutoff, limit).At(q);
            k == PromoteList(db.At(q), src, all[..moved]) && Ready(SetOf(k, src), less, cutoff) == all[moved..]
  {
    RunsAt(db, src, less, orders, cutoff, limit, q);
    TicksMovePrefix(db.At(q), src, less, cutoff, limit, |orders|);
  }

  /** Enough runs with any positive limit leave each queue as one run without a limit does, in whatever orders. */
  lemma RunsAreUnlimited(db: Db, src: Source, less: (Task, Task) -> bool, orders: seq<seq<string>>,
      order: seq<string>, cutoff: int, limit: nat, q: string)
    requires IsOrder(less) && AllList(orders, q) && AllList([order], q)
    requires |orders| * limit >= |Ready(SetOf(db.At(q), src), less, cutoff)|
    ensures Runs(db, src, less, orders, cutoff, limit).At(q) == Script(db, src, less, order, cutoff, -1).0.At(q)
  {
    RunsAt(db, src, less, orders, cutoff, limit, q);
    BatchedIsUnlimited(db.At(q), src, less, cutoff, limit, |orders|);
    assert order in [order];
    ScriptAt(db, src, less, order, cutoff, -1, q);
  }

  /** The number of tasks that a run moves out of the given queues. */
  ghost function Moved(db: Db, src: Source, less: (Task, Task) -> bool, qs: set<string>, cutoff: int, limit: int): nat
    requires IsOrder(less)
  {
    if qs == {} then 0
    else var q :| q in qs; |Batch(db.At(q), src, less, cutoff, limit)| + Moved(db, src, less, qs - {q}, cutoff, limit)
  }

  lemma {:induction false} MovedSplit(
      db: Db, src: Source, less: (Task, Task) -> bool, qs: set<string>, cutoff: int, limit: int, q: string)
    requires IsOrder(less) && q in qs
    ensures Moved(db, src, less, qs, cutoff, limit)
            == |Batch(db.At(q), src, less, cutoff, limit)| + Moved(db, src, less, qs - {q}, cutoff, limit)
    decreases |qs|
  {
    hide Batch;
    var first :| first in qs && Moved(db, src, less, qs, cutoff, limit)
      == |Batch(db.At(first), src, less, cutoff, limit)| + Moved(db, src, less, qs - {first}, cutoff, limit);
    if first != q {
      MovedSplit(db, src, less, qs - {first}, cutoff, limit, q);
      MovedSplit(db, src, less, qs - {q}, cutoff, limit, first);
      assert qs - {first} - {q} == qs - {q} - {first};
    }
  }

  lemma {:induction false} MovedElsewhere(
      db: Db, db': Db, src: Source, less: (Task, Task) -> bool, qs: set<string>, cutoff: int, limit: int)
    requires IsOrder(less) && forall q :: q in qs ==> db'.At(q) == db.At(q)
    ensures Moved(db', src, less, qs, cutoff, limit) == Moved(db, src, less, qs, cutoff, limit)
    decreases |qs|
  {
    hide Batch;
    if qs != {} {
      var q :| q in qs;
      MovedSplit(db, src, less, qs, cutoff, limit, q);
      MovedSplit(db', src, less, qs, cutoff, limit, q);
      MovedElsewhere(db, db', src, less, qs - {q}, cutoff, limit);
    }
  }

  /** The script returns the number of tasks that it moves, summed over the queues. */
  lemma {:induction false} ScriptCounts(
      db: Db, src: Source, less: (Task, Task) -> bool, order: seq<string>, cutoff: int, limit: int)
    requires IsOrder(less) && Distinct(order)
    ensures Script(db, src, less, order, cutoff, limit).1 == Moved(db, src, less, Elements(order), cutoff, limit)
    decreases |order|
  {
    if order != [] {
      hide PromoteList, Batch, IsOrder, Moved;
      var q := order[0];
      var db1 := PromoteIn(db, q, src, Batch(db.At(q), src, less, cutoff, limit));
      HeadName(order);
      assert forall other :: other in Elements(order[1..]) ==> db1.At(other) == db.At(other);
      hide Elements, PromoteIn;
      ScriptCounts(db1, src, less, order[1..], cutoff, limit);
      MovedSplit(db, src, less, Elements(order), cutoff, limit, q);
      MovedElsewhere(db, db1, src, less, Elements(order[1..]), cutoff, limit);
    }
  }

  lemma HeadName(order: seq<string>)
    requires order != [] && Distinct(order)
    ensures order[0] in Elements(order) && order[0] !in Elements(order[1..])
    ensures Elements(order) - {order[0]} == Elements(order[1..])
    ensures Elements(order) == {order[0]} + Elements(order[1..])
    ensures forall q :: q in order <==> q == order[0] || q in order[1..]
  {
    assert order == [order[0]] + order[1..];
  }

  /**
   The theorem on the order of the queues: two runs that see the same queues have the same result and the same count.
   */
  lemma ScriptOrderIrrelevant(
      db: Db, src: Source, less: (Task, Task) -> bool, order: seq<string>, order': seq<string>, cutoff: int, limit: int)
    requires IsOrder(less) && Distinct(order) && Distinct(order') && Elements(order) == Elements(order')
    ensures Script(db, src, less, order, cutoff, limit) == Script(db, src, less, order', cutoff, limit)
  {
    hide Script, PromoteList, Batch;
    var (a, b) := (Script(db, src, less, order, cutoff, limit), Script(db, src, less, order', cutoff, limit));
    ScriptCounts(db, src, less, order, cutoff, limit);
    ScriptCounts(db, src, less, order', cutoff, limit);
    ScriptAt(db, src, less, order, cutoff, limit, "");
    ScriptAt(db, src, less, order', cutoff, limit, "");
    forall q ensures a.0.At(q) == b.0.At(q) && (q in a.0.queues <==> q in b.0.queues) {
      ScriptAt(db, src, less, order, cutoff, limit, q);
      ScriptAt(db, src, less, order', cutoff, limit, q);
      assert q in order <==> q in Elements(order);
      assert q in order' <==> q in Elements(order');
    }
    assert a.0.queues == b.0.queues by {
      forall q | q in a.0.queues ensures a.0.queues[q] == b.0.queues[q] { assert a.0.At(q) == b.0.At(q); }
    }
  }
}
