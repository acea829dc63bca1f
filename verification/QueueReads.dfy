/**
 GetQueueInfo sends six commands, and the system may act between them. How far its numbers can then be off, and when
 its clamp at zero has an effect.
 */
module QueueReads {
  import opened Wrappers
  import opened Tasks
  import opened Streams
  import opened Keys
  import opened Lifecycle
  import opened Places
  import opened Affinity
  import opened NoLoss
  import opened Ownership
  import opened Conservation
  import opened Sets

  /** The last `n` of the numbers dead, completed, scheduled and retry, which are read in this order. */
  function Unread(k: Queue, n: nat): nat
  {
    (if n >= 4 then |k.dlq.entries| else 0) + (if n >= 3 then k.stats.completed else 0)
    + (if n >= 2 then |k.scheduled| else 0) + if n >= 1 then |k.retry| else 0
  }

  lemma SizeWith<X, Y>(m: map<X, Y>, x: X, y: Y)
    ensures |m| <= |m[x := y]| <= |m| + 1
  {
    assert m[x := y].Keys == m.Keys + {x};
    assert |m.Keys| == |m| && |m[x := y].Keys| == |m[x := y]|;
    if x in m { assert m.Keys + {x} == m.Keys; }
  }

  lemma SizeWithout<X, Y>(m: map<X, Y>, x: X)
    ensures |m| - 1 <= |m - {x}| <= |m|
  {
    assert (m - {x}).Keys == m.Keys - {x};
    assert |m.Keys| == |m| && |(m - {x}).Keys| == |m - {x}|;
    if x !in m { assert m.Keys - {x} == m.Keys; }
  }

  predicate Near(a: int, b: int, distance: nat)
  {
    a - distance <= b <= a + distance
  }

  lemma BuryShifts(k: Queue, task: Task, n: nat)
    ensures Near(Unread(k, n), Unread(k.MoveToDLQ(task), n), 1)
  {
    SizeWith(k.dlq.entries, k.dlq.next, Data(task.WithState(Dead)));
    hide Task.WithState, Task.Meta;
  }

  lemma RetryShifts(k: Queue, task: Task, score: int, n: nat)
    ensures Near(Unread(k, n), Unread(k.Retry(task, score), n), 1)
  {
    SizeWith(k.retry, task.WithState(TaskState.Retry), score);
    hide Task.WithState, Task.Meta;
  }

  lemma FailShifts(k: Queue, task: Task, err: string, score: int, n: nat)
    ensures Near(Unread(k, n), Unread(k.Fail(task, err, score), n), 1)
  {
    hide Task.Failed, Task.RetryCount, Task.RetryLimit, Queue.MoveToDLQ, Queue.Retry, Unread;
    BuryShifts(k, task.Failed(err), n);
    RetryShifts(k, task.Failed(err), score, n);
  }

  lemma EnqueueShifts(db: Db, task: Task, now: int, n: nat)
    ensures Near(Unread(db.At(task.Queue()), n), Unread(EnqueueAfter(db, task, now), n), 1)
  {
    var k := db.At(task.Queue());
    if IsScheduled(task, now) {
      SizeWith(k.scheduled, task.WithState(Scheduled), Unix(task.options.value.processAt.value));
    }
    hide Task.WithState, Task.Queue;
  }

  lemma EnqueuedShiftsNothing(k: Queue, body: Body)
    ensures var k' := k.Enqueued(body);
            && k'.scheduled == k.scheduled && k'.retry == k.retry && k'.dlq == k.dlq
            && k'.stats.completed == k.stats.completed
  {
  }

  lemma PromoteShifts(k: Queue, member: Task, n: nat)
    ensures Near(Unread(k, n), Unread(k.PromoteScheduled(member), n), 1)
    ensures Near(Unread(k, n), Unread(k.PromoteRetry(member), n), 1)
  {
    hide Queue.PromoteScheduled, Queue.PromoteRetry, Unread;
    PromoteScheduledShifts(k, member, n);
    PromoteRetryShifts(k, member, n);
  }

  lemma PromoteScheduledShifts(k: Queue, member: Task, n: nat)
    ensures Near(Unread(k, n), Unread(k.PromoteScheduled(member), n), 1)
  {
    hide Queue.Enqueued, Task.WithState;
    EnqueuedShiftsNothing(k, Data(member.WithState(Pending)));
    SizeWithout(k.scheduled, member);
  }

  lemma PromoteRetryShifts(k: Queue, member: Task, n: nat)
    ensures Near(Unread(k, n), Unread(k.PromoteRetry(member), n), 1)
  {
    hide Queue.Enqueued, Task.WithState;
    EnqueuedShiftsNothing(k, Data(member.WithState(Pending)));
    SizeWithout(k.retry, member);
  }

  lemma RedriveShifts(k: Queue, id: nat, task: Task, n: nat)
    ensures Near(Unread(k, n), Unread(k.Redrive(id, task), n), 1)
  {
    SizeWithout(k.dlq.entries, id);
    hide Task.Redriven;
  }

  /** One step moves one task at most, so it shifts what is still to be read by one at most. */
  lemma StepShifts(s: Sys, a: Action, q: string, n: nat)
    requires Enabled(s, a)
    ensures Near(Unread(s.db.At(q), n), Unread(Apply(s, a).db.At(q), n), if q == Touched(s, a) then 1 else 0)
  {
    StepQueue(s, a, q);
    hide Apply, Queue.Fail, Queue.PromoteScheduled, Queue.PromoteRetry, Queue.Redrive, EnqueueAfter, Unread;
    if q == Touched(s, a) { TouchedShifts(s, a, n); }
  }

  lemma TouchedShifts(s: Sys, a: Action, n: nat)
    requires Enabled(s, a)
    ensures Near(Unread(s.db.At(Touched(s, a)), n), Unread(QueueAfter(s, a), n), 1)
  {
    hide Queue.Fail, Queue.PromoteScheduled, Queue.PromoteRetry, Queue.Redrive, EnqueueAfter;
    var k := s.db.At(Touched(s, a));
    match a
    case Enqueue(task, now) => EnqueueShifts(s.db, task, now, n);
    case PromoteScheduled(_, member) => PromoteShifts(k, member, n);
    case PromoteRetry(_, member) => PromoteShifts(k, member, n);
    case HandlerFail(h, err, score) => FailShifts(k, s.holders[h].task, err, score, n);
    case Redrive(_, _, id, task) => RedriveShifts(k, id, task, n);
    case _ =>
  }

  /** How many steps of a run touch a queue, and how many of them hand out a new message of it. */
  ghost function Touches(s: Sys, actions: seq<Action>, q: string): nat
    requires IsRun(s, actions)
    decreases |actions|
  {
    if actions == [] then 0
    else (if q == Touched(s, actions[0]) then 1 else 0) + Touches(Apply(s, actions[0]), actions[1..], q)
  }

  function HandedOut(actions: seq<Action>, q: string): nat
  {
    if actions == [] then 0
    else (if actions[0].Deliver? && actions[0].queue == q then 1 else 0) + HandedOut(actions[1..], q)
  }

  lemma {:induction false} RunShifts(s: Sys, actions: seq<Action>, q: string, n: nat)
    requires IsRun(s, actions)
    ensures Near(Unread(s.db.At(q), n), Unread(After(s, actions).db.At(q), n), Touches(s, actions, q))
    decreases |actions|
  {
    hide Apply, Enabled, Touched, Unread;
    if actions != [] {
      StepShifts(s, actions[0], q, n);
      RunShifts(Apply(s, actions[0]), actions[1..], q, n);
    }
  }

  lemma StepPends(s: Sys, a: Action, q: string)
    requires Enabled(s, a)
    ensures |Apply(s, a).db.At(q).stream.pel|
            <= |s.db.At(q).stream.pel| + if a.Deliver? && a.queue == q then 1 else 0
  {
    StepQueue(s, a, q);
    hide Apply;
    if q == Touched(s, a) { TouchedPends(s, a); }
  }

  lemma FailUnpends(k: Queue, task: Task, err: string, score: int)
    ensures k.Fail(task, err, score).stream.pel.Keys <= k.stream.pel.Keys
  {
    hide Task.WithState, Task.RetryCount, Task.RetryLimit, Task.Failed, Task.Meta;
  }

  lemma TouchedPends(s: Sys, a: Action)
    requires Enabled(s, a)
    ensures |QueueAfter(s, a).stream.pel| <= |s.db.At(Touched(s, a)).stream.pel| + if a.Deliver? then 1 else 0
  {
    hide Queue.Fail, Task.WithState, Task.Redriven, Task.Queue;
    var (k, after) := (s.db.At(Touched(s, a)), QueueAfter(s, a));
    assert |k.stream.pel.Keys| == |k.stream.pel| && |after.stream.pel.Keys| == |after.stream.pel|;
    if a.Deliver? {
      SizeWith(k.stream.pel, a.id, PendingEntry(a.consumer, 1));
    } else {
      if a.HandlerFail? { FailUnpends(k, s.holders[a.h].task, a.err, a.score); }
      assert after.stream.pel.Keys <= k.stream.pel.Keys;
      SubsetSize(after.stream.pel.Keys, k.stream.pel.Keys);
    }
  }

  lemma {:induction false} RunPends(s: Sys, actions: seq<Action>, q: string)
    requires IsRun(s, actions)
    ensures |After(s, actions).db.At(q).stream.pel| <= |s.db.At(q).stream.pel| + HandedOut(actions, q)
    decreases |actions|
  {
    hide Apply, Enabled;
    if actions != [] {
      StepPends(s, actions[0], q);
      RunPends(Apply(s, actions[0]), actions[1..], q);
    }
  }

  /** What happens between the six reads: the states in which they are made are `at[0]` to `at[5]`. */
  ghost predicate AreReads(at: seq<Sys>, between: seq<seq<Action>>)
  {
    && |at| == 6 && |between| == 5
    && forall i :: 0 <= i < 5 ==> IsRun(at[i], between[i]) && at[i + 1] == After(at[i], between[i])
  }

  ghost function InfoAt(at: seq<Sys>, q: string): QueueInfo
    requires |at| == 6
  {
    InfoRead(at[0].db.At(q), at[1].db.At(q), at[2].db.At(q), at[3].db.At(q), at[4].db.At(q), at[5].db.At(q))
  }

  function Counted(info: QueueInfo): int
  {
    info.pending + info.active + info.scheduled + info.retry + info.dead + info.completed
  }

  /** The steps between the reads that touch the queue. */
  ghost function TouchesBetween(at: seq<Sys>, between: seq<seq<Action>>, q: string): nat
    requires AreReads(at, between)
  {
    Touches(at[0], between[0], q) + Touches(at[1], between[1], q) + Touches(at[2], between[2], q)
    + Touches(at[3], between[3], q) + Touches(at[4], between[4], q)
  }

  /**
   The theorem on the reads, for arbitrary steps between them: the sum of the numbers is what it was at the first
   read, but for one for each step that touches the queue, and what the clamp adds is no more than the number of
   messages that are handed out between the first two reads. Without these the clamp has no effect.
   */
  lemma ReadsDrift(at: seq<Sys>, between: seq<seq<Action>>, q: string)
    requires AreReads(at, between) && Owned(at[0])
    ensures var (info, steps) := (InfoAt(at, q), TouchesBetween(at, between, q));
            && Total(at[0].db.At(q)) - steps <= Counted(info)
            && Counted(info) <= Total(at[0].db.At(q)) + steps + HandedOut(between[0], q)
            && (HandedOut(between[0], q) == 0 ==>
                  info.pending == |at[0].db.At(q).stream.entries| - |at[1].db.At(q).stream.pel|)
  {
    var (k0, k1, k2, k3, k4, k5) := (
      at[0].db.At(q), at[1].db.At(q), at[2].db.At(q), at[3].db.At(q), at[4].db.At(q), at[5].db.At(q));
    QueueIsOwned(at[0], q);
    SubsetSize(k0.stream.pel.Keys, k0.stream.entries.Keys);
    assert |k0.stream.pel.Keys| == |k0.stream.pel| && |k0.stream.entries.Keys| == |k0.stream.entries|;
    hide Owned, IsRun, After, QueueOwned, IdsOk;
    RunPends(at[0], between[0], q);
    RunShifts(at[0], between[0], q, 4);
    RunShifts(at[1], between[1], q, 4);
    RunShifts(at[2], between[2], q, 3);
    RunShifts(at[3], between[3], q, 2);
    RunShifts(at[4], between[4], q, 1);
  }

  /** The theorem on GetQueueInfo in a running system: it accounts for the accepted tasks as well as that. */
  lemma QueueInfoDrifts(actions: seq<Action>, at: seq<Sys>, between: seq<seq<Action>>, q: string)
    requires IsOwnedRun(INIT, actions) && AreReads(at, between) && IsRun(INIT, actions) && at[0] == After(INIT, actions)
    ensures var (info, steps) := (InfoAt(at, q), TouchesBetween(at, between, q));
            var counted := |AcceptedIn(at[0].accepted, q)| + |Junk(at[0].db.At(q))|;
            counted - steps <= Counted(info) <= counted + steps + HandedOut(between[0], q)
  {
    hide Owned, IsRun, After, IsOwnedRun, InfoAt, TouchesBetween, Conserved, HandedOut;
    InitConserved(q);
    AllConserved(INIT, actions, q);
    ConservedMeans(at[0], q);
    ReadsDrift(at, between, q);
  }

  /** The clamp does fire: a task that arrives and is handed out between the first two reads makes the difference -1. */
  lemma ClampFires(task: Task)
    requires task.metadata.Some? && task.RetryCount() == 0 && !IsScheduled(task, 0)
    ensures var actions := [Enqueue(task, 0), Deliver(task.Queue(), 1, "", 0)];
            && IsOwnedRun(INIT, actions) && IsRun(INIT, actions)
            && |INIT.db.At(task.Queue()).stream.entries| - |After(INIT, actions).db.At(task.Queue()).stream.pel| == -1
  {
    var (a0, a1) := (Enqueue(task, 0), Deliver(task.Queue(), 1, "", 0));
    var s1 := Apply(INIT, a0);
    assert s1.db.At(task.Queue()).stream == EMPTY_STREAM.Add(Data(task.WithState(Pending)));
    var s2 := Apply(s1, a1);
    assert s2.db.At(task.Queue()).stream.pel == map[1 := PendingEntry("", 1)];
    hide Apply, Enabled;
    assert [a1] + [] == [a1] && [a0] + [a1] == [a0, a1];
    OwnedRunCons(s1, a1, []);
    OwnedRunCons(INIT, a0, [a1]);
  }
}
