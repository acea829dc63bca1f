/**
 The lifecycle when every task ID is enqueued once, a pending message is only taken over from a delivery that is
 no longer alive, and the message of a redrive is still in the dead letter queue when its pipeline runs. Then each task
 is in exactly one place and each message has at most one holder.
 */
module Ownership {
  import opened Wrappers
  import opened Tasks
  import opened Streams
  import opened Keys
  import opened Lifecycle
  import opened Places
  import opened Affinity
  import opened NoLoss

  predicate Holds(s: Sys, h: nat, q: string, id: nat)
  {
    h in s.holders && s.holders[h].queue == q && s.holders[h].id == id
  }

  ghost predicate OwnedEnabled(s: Sys, a: Action)
  {
    && Enabled(s, a)
    && (a.Enqueue? ==> a.task.id !in s.accepted)
    && (a.Redeliver? ==> forall h :: !Holds(s, h, a.queue, a.id))
    && (a.Redrive? ==> a.id in s.db.At(a.queue).dlq.entries)
  }

  ghost predicate IsOwnedRun(s: Sys, actions: seq<Action>)
    decreases |actions|
  {
    actions == [] || (OwnedEnabled(s, actions[0]) && IsOwnedRun(Apply(s, actions[0]), actions[1..]))
  }

  /** The delivered tasks of a queue are its pending ones, and a retry names a message that is gone. */
  ghost predicate QueueOwned(k: Queue)
  {
    && (forall id :: id in k.stream.pel ==> id in k.stream.entries)
    && (forall id: nat :: k.stream.HasTask(id) && id < k.stream.cursor ==> id in k.stream.pel)
    && (forall id :: id in k.dlq.entries ==> k.dlq.entries[id].Data?)
    && (forall m :: m in k.retry ==>
          m.Meta().streamMsgID.Some? && m.Meta().streamMsgID.value < k.stream.next
              && m.Meta().streamMsgID.value !in k.stream.entries)
  }

  ghost predicate QueuesOwned(db: Db)
  {
    forall q :: QueueOwned(db.At(q))
  }

  predicate IsKnownTask(s: Sys, task: Task)
  {
    task.id in s.accepted && task.SameWork(s.accepted[task.id])
  }

  ghost predicate CopiesKnown(s: Sys)
  {
    forall q, p :: Has(s.db.At(q), p) ==> IsKnownTask(s, TaskAt(s.db.At(q), p))
  }

  /** Two places of one queue do not hold the same task. */
  ghost predicate SingleCopy(db: Db)
  {
    forall q, p, p' :: Has(db.At(q), p) && Has(db.At(q), p') && TaskAt(db.At(q), p).id == TaskAt(db.At(q), p').id
        ==> p == p'
  }

  ghost predicate HoldersOwn(s: Sys)
  {
    && (forall h :: h in s.holders ==>
          s.db.At(s.holders[h].queue).stream.HasTask(s.holders[h].id)
              && s.holders[h].id in s.db.At(s.holders[h].queue).stream.pel)
    && (forall h, h', q, id :: Holds(s, h, q, id) && Holds(s, h', q, id) ==> h == h')
  }

  ghost predicate Owned(s: Sys)
  {
    Base(s) && SuccessesOk(s) && QueuesOwned(s.db) && CopiesKnown(s) && SingleCopy(s.db) && HoldersOwn(s)
  }

  lemma FailQueueOwned(k: Queue, task: Task, err: string, score: int)
    requires IdsOk(k) && QueueOwned(k)
    requires task.Meta().streamMsgID.Some? && task.Meta().streamMsgID.value < k.stream.next
    ensures QueueOwned(k.Fail(task, err, score))
  {
  }

  lemma EnqueueQueueOwned(db: Db, task: Task, now: int)
    requires IdsOk(db.At(task.Queue())) && QueueOwned(db.At(task.Queue()))
    ensures QueueOwned(EnqueueAfter(db, task, now))
  {
  }

  lemma ReadQueueOwned(s: Sys, a: Action)
    requires IdsOk(s.db.At(Touched(s, a))) && QueueOwned(s.db.At(Touched(s, a)))
    requires Enabled(s, a) && (a.Deliver? || a.Redeliver? || a.AckJunk?)
    ensures QueueOwned(QueueAfter(s, a))
  {
  }

  lemma QueueAfterOwned(s: Sys, a: Action)
    requires IdsOk(s.db.At(Touched(s, a))) && QueueOwned(s.db.At(Touched(s, a)))
    requires Enabled(s, a) && (a.HandlerFail? ==> HolderOk(s.db, s.holders[a.h]))
    ensures QueueOwned(QueueAfter(s, a))
  {
    hide Queue.Fail, EnqueueAfter;
    match a
    case Enqueue(task, now) => EnqueueQueueOwned(s.db, task, now);
    case HandlerFail(h, err, score) => FailQueueOwned(s.db.At(Touched(s, a)), s.holders[h].task, err, score);
    case Deliver(_, _, _, _) => ReadQueueOwned(s, a);
    case Redeliver(_, _, _, _) => ReadQueueOwned(s, a);
    case AckJunk(_, _) => ReadQueueOwned(s, a);
    case _ =>
  }

  lemma QueueOwnedStep(s: Sys, a: Action, q: string)
    requires Owned(s) && OwnedEnabled(s, a)
    ensures QueueOwned(Apply(s, a).db.At(q))
  {
    assert IdsOk(s.db.At(q)) && QueueOwned(s.db.At(q));
    assert a.HandlerFail? ==> HolderOk(s.db, s.holders[a.h]);
    StepQueue(s, a, q);
    hide Apply, QueueAfter, Touched, QueueOwned, HolderOk, IdsOk;
    if q == Touched(s, a) { QueueAfterOwned(s, a); }
  }

  /** Enqueue accepts the task. */
  predicate Accepts(s: Sys, a: Action)
  {
    a.Enqueue? && EnqueueMove(s.db, a.task, a.now).come.Some?
  }

  function NewTask(s: Sys, a: Action): Task
    requires Accepts(s, a)
  {
    EnqueueMove(s.db, a.task, a.now).come.value.1
  }

  lemma AcceptedStep(s: Sys, a: Action)
    requires OwnedEnabled(s, a)
    ensures if Accepts(s, a) then
              && NewTask(s, a).id !in s.accepted && NewTask(s, a).Queue() == Touched(s, a)
              && Apply(s, a).accepted == s.accepted[NewTask(s, a).id := NewTask(s, a)]
            else Apply(s, a).accepted == s.accepted
  {
    hide Keys.Redrive, Queue.Fail, Queue.Ack, Hold, PassGate;
  }

  /** What arrives at a place is the task that leaves another one, or a task that Enqueue has just accepted. */
  lemma MovedTask(s: Sys, a: Action)
    requires Owned(s) && OwnedEnabled(s, a)
    ensures var (k, m) := (s.db.At(Touched(s, a)), MoveOf(s, a));
            && (m.gone.Some? ==> Has(k, m.gone.value))
            && (m.gone.Some? && m.come.Some? ==> m.come.value.1.SameWork(TaskAt(k, m.gone.value)))
            && (m.gone.None? && m.come.Some? ==> Accepts(s, a) && m.come.value.1 == NewTask(s, a))
            && (Accepts(s, a) ==> m.gone.None?)
  {
    hide Apply, PlacesOk, AllIdsOk, QueuesOwned, CopiesKnown, SingleCopy, SuccessesOk;
    match a
    case HandlerFail(h, err, _) => HolderFits(s, h);
    case AckDone(h) => HolderFits(s, h);
    case Redrive(_, _, _, _) => RedriveFinds(s, a);
    case _ =>
  }

  lemma CopyKnown(s: Sys, q: string, p: Place)
    requires CopiesKnown(s) && Has(s.db.At(q), p)
    ensures IsKnownTask(s, TaskAt(s.db.At(q), p))
  {
  }

  lemma KnownStep(s: Sys, a: Action)
    requires Owned(s) && OwnedEnabled(s, a)
    ensures CopiesKnown(Apply(s, a))
  {
    hide Apply, MoveOf, Touched, Accepts, NewTask, Has, PlacesOk, AllIdsOk, QueuesOwned, SingleCopy, HoldersOk,
      HoldersOwn, SuccessesOk;
    var s' := Apply(s, a);
    StepMoves(s, a);
    MovedTask(s, a);
    AcceptedStep(s, a);
    var (touched, m) := (Touched(s, a), MoveOf(s, a));
    forall q, p | Has(s'.db.At(q), p) ensures IsKnownTask(s', TaskAt(s'.db.At(q), p)) {
      if q == touched { assert MovesAt(s.db.At(q), s'.db.At(q), m, p); }
      if Has(s.db.At(q), p) { CopyKnown(s, q, p); }
      if m.gone.Some? { CopyKnown(s, touched, m.gone.value); }
    }
  }

  lemma SingleStep(s: Sys, a: Action)
    requires Owned(s) && OwnedEnabled(s, a)
    ensures SingleCopy(Apply(s, a).db)
  {
    hide Apply, MoveOf, Touched, Accepts, NewTask, Has, TaskAt, CopiesKnown, PlacesOk, AllIdsOk, QueuesOwned,
      HoldersOk, HoldersOwn, SuccessesOk;
    var s' := Apply(s, a);
    StepMoves(s, a);
    MovedTask(s, a);
    AcceptedStep(s, a);
    var (touched, m) := (Touched(s, a), MoveOf(s, a));
    forall q, p, p' | Has(s'.db.At(q), p) && Has(s'.db.At(q), p')
        && TaskAt(s'.db.At(q), p).id == TaskAt(s'.db.At(q), p').id
      ensures p == p'
    {
      if q == touched {
        assert MovesAt(s.db.At(q), s'.db.At(q), m, p) && MovesAt(s.db.At(q), s'.db.At(q), m, p');
        if Has(s.db.At(q), p) { CopyKnown(s, q, p); }
        if Has(s.db.At(q), p') { CopyKnown(s, q, p'); }
      }
    }
  }

  /** A task is in one place in all of Redis. */
  lemma OnePlace(s: Sys, q: string, p: Place, q': string, p': Place)
    requires Owned(s) && Has(s.db.At(q), p) && Has(s.db.At(q'), p')
    requires TaskAt(s.db.At(q), p).id == TaskAt(s.db.At(q'), p').id
    ensures q == q' && p == p'
  {
    assert PlaceOk(s.db, q, p) && PlaceOk(s.db, q', p');
    assert IsKnownTask(s, TaskAt(s.db.At(q), p)) && IsKnownTask(s, TaskAt(s.db.At(q'), p'));
  }

  lemma PendingStays(s: Sys, a: Action, id: nat)
    requires Enabled(s, a) && id in s.db.At(Touched(s, a)).stream.pel && s.db.At(Touched(s, a)).stream.HasTask(id)
    requires MoveOf(s, a).gone != Some(InStream(id))
    ensures id in QueueAfter(s, a).stream.pel
  {
  }

  lemma OneHolderStep(s: Sys, a: Action, h: nat, h': nat)
    requires Owned(s) && OwnedEnabled(s, a) && h in Apply(s, a).holders && h' in Apply(s, a).holders
    requires Apply(s, a).holders[h].queue == Apply(s, a).holders[h'].queue
             && Apply(s, a).holders[h].id == Apply(s, a).holders[h'].id
    requires h in s.holders
    ensures h == h'
  {
    hide PlacesOk, AllIdsOk, HoldersOk, QueuesOwned, CopiesKnown, SingleCopy, SuccessesOk, Keys.Enqueue, Keys.Redrive,
      Queue.Fail, Queue.Ack;
    StepHolders(s, a, h);
    StepHolders(s, a, h');
    var holder := s.holders[h];
    HolderFits(s, h);
    assert Holds(s, h, holder.queue, holder.id);
    if h' in s.holders { assert Holds(s, h', holder.queue, holder.id); }
  }

  lemma HoldersOwnStep(s: Sys, a: Action)
    requires Owned(s) && OwnedEnabled(s, a)
    ensures HoldersOwn(Apply(s, a))
  {
    var s' := Apply(s, a);
    forall h, h', q, id | Holds(s', h, q, id) && Holds(s', h', q, id) ensures h == h' {
      if h in s.holders { OneHolderStep(s, a, h, h'); }
      else if h' in s.holders { OneHolderStep(s, a, h', h); }
      else { OneNewHolder(s, a, h); OneNewHolder(s, a, h'); }
    }
    StepMoves(s, a);
    forall h | h in s'.holders
      ensures s'.db.At(s'.holders[h].queue).stream.HasTask(s'.holders[h].id)
              && s'.holders[h].id in s'.db.At(s'.holders[h].queue).stream.pel
    {
      var q, id := s'.holders[h].queue, s'.holders[h].id;
      StepHolders(s, a, h);
      StepQueue(s, a, q);
      if h in s.holders {
        StillHeld(s, a, h);
        hide Apply;
        Stays(s.db, s'.db, Touched(s, a), MoveOf(s, a), q, InStream(id));
        if q == Touched(s, a) { PendingStays(s, a, id); }
      } else {
        OneNewHolder(s, a, h);
      }
    }
  }

  lemma OneNewHolder(s: Sys, a: Action, h: nat)
    requires Enabled(s, a) && h in Apply(s, a).holders && h !in s.holders
    ensures (a.Deliver? || a.Redeliver?) && a.h == h
    ensures Apply(s, a).db.At(Touched(s, a)).stream.HasTask(Apply(s, a).holders[h].id)
    ensures Apply(s, a).holders[h].id in Apply(s, a).db.At(Touched(s, a)).stream.pel
    ensures Apply(s, a).holders[h].queue == Touched(s, a)
  {
    hide Keys.Enqueue, Keys.Redrive, Queue.Fail, Queue.Ack, PassGate;
  }

  /** Only its own holder takes a message away. */
  lemma StillHeld(s: Sys, a: Action, h: nat)
    requires Owned(s) && OwnedEnabled(s, a) && h in s.holders && h in Apply(s, a).holders
    ensures s.holders[h].queue != Touched(s, a) || MoveOf(s, a).gone != Some(InStream(s.holders[h].id))
  {
    hide PlacesOk, AllIdsOk, HoldersOk, QueuesOwned, CopiesKnown, SingleCopy, SuccessesOk, Apply, Task.Failed,
      Task.WithState;
    assert Holds(s, h, s.holders[h].queue, s.holders[h].id);
    if a.HandlerFail? || a.AckDone? {
      LetsGo(s, a);
      HeldMessage(s, a.h);
    }
  }

  lemma LetsGo(s: Sys, a: Action)
    requires Enabled(s, a) && (a.HandlerFail? || a.AckDone?)
    ensures a.h !in Apply(s, a).holders
  {
  }

  lemma HeldMessage(s: Sys, h: nat)
    requires HoldersOk(s) && h in s.holders
    ensures Holds(s, h, s.holders[h].task.Queue(), s.holders[h].id)
            && s.holders[h].task.Meta().streamMsgID == Some(s.holders[h].id)
  {
    HolderFits(s, h);
  }

  lemma OwnedStep(s: Sys, a: Action)
    requires Owned(s) && OwnedEnabled(s, a)
    ensures Owned(Apply(s, a))
  {
    BaseStep(s, a);
    SuccessesStep(s, a);
    KnownStep(s, a);
    SingleStep(s, a);
    HoldersOwnStep(s, a);
    hide Apply;
    forall q ensures QueueOwned(Apply(s, a).db.At(q)) { QueueOwnedStep(s, a, q); }
  }

  lemma OwnedRunCons(s: Sys, a: Action, rest: seq<Action>)
    requires OwnedEnabled(s, a) && IsOwnedRun(Apply(s, a), rest) && IsRun(Apply(s, a), rest)
    ensures IsOwnedRun(s, [a] + rest) && IsRun(s, [a] + rest) && After(s, [a] + rest) == After(Apply(s, a), rest)
  {
    hide Apply, Enabled;
    assert ([a] + rest)[1..] == rest;
  }

  lemma InitOwned()
    ensures Owned(INIT)
  {
  }

  /** The theorem on ownership: it holds in every state that a run under these rules can reach. */
  lemma {:induction false} OwnedAlways(s: Sys, actions: seq<Action>)
    requires Owned(s) && IsOwnedRun(s, actions)
    ensures IsRun(s, actions) && Owned(After(s, actions))
    decreases |actions|
  {
    hide Owned, Apply;
    if actions != [] {
      OwnedStep(s, actions[0]);
      OwnedAlways(Apply(s, actions[0]), actions[1..]);
    }
  }
}
