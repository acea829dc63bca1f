/** The numbers of GetQueueInfo add up: every accepted task is counted exactly once, in whatever state it is. */
module Conservation {
  import opened Wrappers
  import opened Tasks
  import opened Streams
  import opened Keys
  import opened Lifecycle
  import opened Places
  import opened Affinity
  import opened NoLoss
  import opened Ownership
  import opened Sets

  function Total(k: Queue): nat
  {
    |k.stream.entries| + |k.scheduled| + |k.retry| + |k.dlq.entries| + k.stats.completed
  }

  function AcceptedIn(accepted: map<string, Task>, q: string): set<string>
  {
    set t | t in accepted && accepted[t].Queue() == q
  }

  function Junk(k: Queue): set<nat>
  {
    set id | id in k.stream.entries && !k.stream.entries[id].Data?
  }

  lemma RemoveSize<X, Y>(m: map<X, Y>, x: X)
    requires x in m
    ensures |m - {x}| == |m| - 1
  {
    assert (m - {x}).Keys == m.Keys - {x};
    assert |m.Keys| == |m| && |(m - {x}).Keys| == |m - {x}|;
  }

  lemma PromoteTotal(k: Queue, member: Task)
    requires IdsOk(k)
    ensures member in k.scheduled ==> Total(k.PromoteScheduled(member)) == Total(k)
    ensures member in k.retry ==> Total(k.PromoteRetry(member)) == Total(k)
  {
    if member in k.scheduled { RemoveSize(k.scheduled, member); }
    if member in k.retry { RemoveSize(k.retry, member); }
  }

  lemma AckTotal(k: Queue, id: nat)
    requires id in k.stream.entries
    ensures Total(k.Ack(id)) == Total(k)
  {
    RemoveSize(k.stream.entries, id);
  }

  /** The theorem on redrives: one of them conserves the tasks exactly when its message is still there. */
  lemma RedriveConservesIff(k: Queue, id: nat, task: Task)
    requires IdsOk(k)
    ensures Total(k.Redrive(id, task)) == Total(k) <==> id in k.dlq.entries
    ensures id !in k.dlq.entries ==> Total(k.Redrive(id, task)) == Total(k) + 1
  {
    if id in k.dlq.entries {
      RemoveSize(k.dlq.entries, id);
    } else {
      assert k.dlq.entries - {id} == k.dlq.entries;
    }
  }

  lemma EnqueueTotal(db: Db, task: Task, now: int)
    requires IdsOk(db.At(task.Queue())) && task.WithState(Scheduled) !in db.At(task.Queue()).scheduled
    ensures var added := if EnqueueMove(db, task, now).come.Some? then 1 else 0;
            Total(EnqueueAfter(db, task, now)) == Total(db.At(task.Queue())) + added
  {
  }

  lemma BuryTotal(k: Queue, task: Task)
    requires IdsOk(k) && task.Meta().streamMsgID.Some? && task.Meta().streamMsgID.value in k.stream.entries
    ensures Total(k.MoveToDLQ(task)) == Total(k)
  {
    hide Task.Meta, Task.WithState;
    RemoveSize(k.stream.entries, task.Meta().streamMsgID.value);
  }

  lemma RetryTotal(k: Queue, task: Task, score: int)
    requires task.Meta().streamMsgID.Some? && task.Meta().streamMsgID.value in k.stream.entries
    requires task.WithState(TaskState.Retry) !in k.retry
    ensures Total(k.Retry(task, score)) == Total(k)
  {
    hide Task.Meta, Task.WithState;
    RemoveSize(k.stream.entries, task.Meta().streamMsgID.value);
  }

  /** A failed attempt neither overwrites a member of the retry set nor loses its message twice. */
  lemma FailTotal(k: Queue, task: Task, err: string, score: int)
    requires IdsOk(k) && QueueOwned(k)
    requires task.Meta().streamMsgID.Some? && task.Meta().streamMsgID.value in k.stream.entries
    ensures Total(k.Fail(task, err, score)) == Total(k)
  {
    var failed := task.Failed(err);
    FailedKeepsID(task, err);
    assert failed.WithState(TaskState.Retry).Meta().streamMsgID == task.Meta().streamMsgID;
    hide Task.Failed, Task.Meta, Task.RetryCount, Task.RetryLimit, Task.WithState, Total, Queue.Retry, Queue.MoveToDLQ;
    BuryTotal(k, failed);
    RetryTotal(k, failed, score);
  }

  lemma RetryIsNew(s: Sys, h: nat, err: string)
    requires Owned(s) && InPhase(s, h, {Running})
    ensures var task := s.holders[h].task; task.Failed(err).WithState(TaskState.Retry) !in s.db.At(task.Queue()).retry
  {
    hide PlacesOk, AllIdsOk, HoldersOk, QueuesOwned, CopiesKnown, SingleCopy, SuccessesOk, Task.Failed, Task.Queue;
    HolderFits(s, h);
    assert Holds(s, h, s.holders[h].queue, s.holders[h].id);
    QueueIsOwned(s, s.holders[h].queue);
    FailedKeepsID(s.holders[h].task, err);
  }

  /** The theorem on the retry set: a failed attempt adds a member to it, and never overwrites one. */
  lemma RetryIsNewMember(actions: seq<Action>, h: nat, err: string)
    requires IsOwnedRun(INIT, actions)
    ensures IsRun(INIT, actions)
    ensures var s := After(INIT, actions);
            InPhase(s, h, {Running}) ==>
              var task := s.holders[h].task;
              task.Failed(err).WithState(TaskState.Retry) !in s.db.At(task.Queue()).retry
  {
    hide After, IsRun, IsOwnedRun, Owned;
    InitOwned();
    OwnedAlways(INIT, actions);
    var s := After(INIT, actions);
    if InPhase(s, h, {Running}) { RetryIsNew(s, h, err); }
  }

  lemma TotalAfter(s: Sys, a: Action)
    requires Enabled(s, a) && IdsOk(s.db.At(Touched(s, a))) && QueueOwned(s.db.At(Touched(s, a)))
    requires a.Redrive? ==> a.id in s.db.At(a.queue).dlq.entries
    requires a.Enqueue? ==> a.task.WithState(Scheduled) !in s.db.At(Touched(s, a)).scheduled
    requires a.HandlerFail? || a.AckDone? ==>
               s.holders[a.h].task.Meta().streamMsgID == Some(s.holders[a.h].id)
                   && s.holders[a.h].id in s.db.At(Touched(s, a)).stream.entries
    ensures var added := if a.PublishJunk? || Accepts(s, a) then 1 else 0;
            Total(QueueAfter(s, a)) == Total(s.db.At(Touched(s, a))) + added
  {
    var k := s.db.At(Touched(s, a));
    hide Queue.Fail, Queue.PromoteScheduled, Queue.PromoteRetry, Queue.Redrive, Queue.Ack, EnqueueAfter, EnqueueMove,
      FailMove, QueueOwned;
    match a
    case Enqueue(task, now) => EnqueueTotal(s.db, task, now);
    case PromoteScheduled(_, member) => PromoteTotal(k, member);
    case PromoteRetry(_, member) => PromoteTotal(k, member);
    case HandlerFail(h, err, score) => FailTotal(k, s.holders[h].task, err, score);
    case AckDone(h) => AckTotal(k, s.holders[h].id);
    case Redrive(_, _, id, task) => RedriveConservesIff(k, id, task);
    case _ =>
  }

  lemma TotalStep(s: Sys, a: Action)
    requires Owned(s) && OwnedEnabled(s, a)
    ensures var added := if a.PublishJunk? || Accepts(s, a) then 1 else 0;
            Total(QueueAfter(s, a)) == Total(s.db.At(Touched(s, a))) + added
  {
    var k := s.db.At(Touched(s, a));
    hide Apply, QueueAfter, MoveOf, Total, PlacesOk, QueuesOwned, CopiesKnown, SingleCopy;
    if a.Enqueue? && Has(k, InScheduled(a.task.WithState(Scheduled))) {
      CopyKnown(s, Touched(s, a), InScheduled(a.task.WithState(Scheduled)));
    }
    assert a.HandlerFail? || a.AckDone? ==> HolderOk(s.db, s.holders[a.h]);
    QueueIsOwned(s, Touched(s, a));
    TotalAfter(s, a);
  }

  lemma QueueIsOwned(s: Sys, q: string)
    requires Owned(s)
    ensures IdsOk(s.db.At(q)) && QueueOwned(s.db.At(q))
  {
  }

  lemma SameJunk(k: Queue, after: Queue)
    requires after.stream.entries == k.stream.entries
    ensures Junk(after) == Junk(k)
  {
  }

  lemma JunkAdded(k: Queue, after: Queue, body: Body)
    requires IdsOk(k) && after.stream.entries == k.stream.entries[k.stream.next := body]
    ensures |Junk(after)| == |Junk(k)| + if body.Data? then 0 else 1
  {
    assert Junk(after) == Junk(k) + if body.Data? then {} else {k.stream.next};
  }

  lemma JunkRemoved(k: Queue, after: Queue, id: nat)
    requires k.stream.HasTask(id) && after.stream.entries == k.stream.entries - {id}
    ensures Junk(after) == Junk(k)
  {
  }

  lemma FailedKeepsID(task: Task, err: string)
    ensures task.Failed(err).Meta().streamMsgID == task.Meta().streamMsgID
  {
  }

  lemma JunkAfter(s: Sys, a: Action)
    requires Enabled(s, a) && IdsOk(s.db.At(Touched(s, a)))
    requires a.HandlerFail? || a.AckDone? ==>
               s.holders[a.h].task.Meta().streamMsgID == Some(s.holders[a.h].id)
                   && s.db.At(Touched(s, a)).stream.HasTask(s.holders[a.h].id)
    ensures |Junk(QueueAfter(s, a))| == |Junk(s.db.At(Touched(s, a)))| + if a.PublishJunk? then 1 else 0
  {
    var (k, after) := (s.db.At(Touched(s, a)), QueueAfter(s, a));
    hide Junk, Task.Meta, Task.WithState, Task.RetryCount, Task.RetryLimit, Task.Redriven;
    match a
    case Enqueue(task, now) =>
      if after.stream != k.stream {
        JunkAdded(k, after, Data(EnqueueMove(s.db, task, now).come.value.1));
      } else {
        SameJunk(k, after);
      }
    case PublishJunk(_, body) => JunkAdded(k, after, body);
    case PromoteScheduled(_, member) => JunkAdded(k, after, Data(member.WithState(Pending)));
    case PromoteRetry(_, member) => JunkAdded(k, after, Data(member.WithState(Pending)));
    case HandlerFail(h, err, score) =>
      assert s.holders[h].task.Failed(err).Meta().streamMsgID == s.holders[h].task.Meta().streamMsgID by {
        FailedKeepsID(s.holders[h].task, err);
      }
      JunkRemoved(k, after, s.holders[h].id);
    case AckDone(h) => JunkRemoved(k, after, s.holders[h].id);
    case Redrive(_, _, _, task) => JunkAdded(k, after, Data(task.Redriven()));
    case _ => SameJunk(k, after);
  }

  /** Messages that carry no task are never removed from a stream, so GetQueueInfo counts them too. */
  ghost predicate Conserved(s: Sys, q: string)
  {
    Total(s.db.At(q)) == |AcceptedIn(s.accepted, q)| + |Junk(s.db.At(q))|
  }

  lemma TouchedStep(s: Sys, a: Action)
    requires Owned(s) && OwnedEnabled(s, a)
    ensures Total(QueueAfter(s, a)) - |Junk(QueueAfter(s, a))|
            == Total(s.db.At(Touched(s, a))) - |Junk(s.db.At(Touched(s, a)))| + if Accepts(s, a) then 1 else 0
  {
    hide Total, Junk, QueueAfter, EnqueueMove, Apply, PlacesOk, QueuesOwned, CopiesKnown, SingleCopy, QueueOwned;
    TotalStep(s, a);
    QueueIsOwned(s, Touched(s, a));
    assert a.HandlerFail? || a.AckDone? ==> HolderOk(s.db, s.holders[a.h]);
    JunkAfter(s, a);
  }

  lemma AcceptOne(accepted: map<string, Task>, task: Task, q: string)
    requires task.id !in accepted
    ensures |AcceptedIn(accepted[task.id := task], q)| == |AcceptedIn(accepted, q)| + if task.Queue() == q then 1 else 0
  {
    hide Task.Queue;
    assert AcceptedIn(accepted[task.id := task], q)
        == AcceptedIn(accepted, q) + if task.Queue() == q then {task.id} else {};
  }

  lemma AcceptedInStep(s: Sys, a: Action, q: string)
    requires OwnedEnabled(s, a)
    ensures |AcceptedIn(Apply(s, a).accepted, q)|
            == |AcceptedIn(s.accepted, q)| + if Accepts(s, a) && q == Touched(s, a) then 1 else 0
  {
    hide OwnedEnabled, Enabled, Apply, Touched, AcceptedIn, NewTask, Accepts;
    AcceptedStep(s, a);
    if Accepts(s, a) { AcceptOne(s.accepted, NewTask(s, a), q); }
  }

  lemma ConservedStep(s: Sys, a: Action, q: string)
    requires Owned(s) && OwnedEnabled(s, a) && Conserved(s, q)
    ensures Conserved(Apply(s, a), q)
  {
    hide Apply, QueueAfter, Touched, Total, Owned, Accepts, AcceptedIn, Junk;
    StepQueue(s, a, q);
    AcceptedInStep(s, a, q);
    if q == Touched(s, a) { TouchedStep(s, a); }
  }

  lemma AllConserved(s: Sys, actions: seq<Action>, q: string)
    requires Owned(s) && Conserved(s, q) && IsOwnedRun(s, actions)
    ensures IsRun(s, actions) && Owned(After(s, actions)) && Conserved(After(s, actions), q)
    decreases |actions|
  {
    if actions != [] {
      OwnedStep(s, actions[0]);
      ConservedStep(s, actions[0], q);
      AllConserved(Apply(s, actions[0]), actions[1..], q);
    }
  }

  lemma InitConserved(q: string)
    ensures Owned(INIT) && Conserved(INIT, q)
  {
    InitOwned();
    assert AcceptedIn(INIT.accepted, q) == {} && Junk(INIT.db.At(q)) == {};
  }

  lemma ConservedMeans(s: Sys, q: string)
    requires Conserved(s, q)
    ensures Total(s.db.At(q)) == |AcceptedIn(s.accepted, q)| + |Junk(s.db.At(q))|
  {
  }

  /** The theorem: GetQueueInfo accounts for every accepted task of a queue, and its clamp at zero has no effect. */
  lemma QueueInfoAddsUp(actions: seq<Action>, q: string)
    requires IsOwnedRun(INIT, actions)
    ensures IsRun(INIT, actions)
    ensures var s := After(INIT, actions);
            var info := s.db.At(q).Info();
            && info.pending + info.active + info.scheduled + info.retry + info.dead + info.completed
               == |AcceptedIn(s.accepted, q)| + |Junk(s.db.At(q))|
            && info.pending == |s.db.At(q).stream.entries| - info.active
  {
    hide After, IsRun, IsOwnedRun, Owned, Conserved;
    InitConserved(q);
    AllConserved(INIT, actions, q);
    ConservedMeans(After(INIT, actions), q);
    var k := After(INIT, actions).db.At(q);
    QueueIsOwned(After(INIT, actions), q);
    SubsetSize(k.stream.pel.Keys, k.stream.entries.Keys);
  }
}
