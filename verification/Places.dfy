/** Where the copies of a task can be, and how one step moves them. */
module Places {
  import opened Wrappers
  import opened Tasks
  import opened Streams
  import opened Keys
  import opened Lifecycle

  /** A place within one queue that can hold a task. */
  datatype Place = InStream(id: nat) | InDlq(id: nat) | InScheduled(member: Task) | InRetry(member: Task)

  predicate Has(k: Queue, p: Place)
  {
    match p
    case InStream(id) => k.stream.HasTask(id)
    case InDlq(id) => k.dlq.HasTask(id)
    case InScheduled(member) => member in k.scheduled
    case InRetry(member) => member in k.retry
  }

  function TaskAt(k: Queue, p: Place): Task
    requires Has(k, p)
  {
    match p
    case InStream(id) => k.stream.entries[id].task
    case InDlq(id) => k.dlq.entries[id].task
    case InScheduled(member) => member
    case InRetry(member) => member
  }

  /** A step takes at most one task out of its place and puts at most one task into a place. */
  datatype Move = Move(gone: Option<Place>, come: Option<(Place, Task)>)

  const NO_MOVE := Move(None, None)

  /** `p` after the move `m` of one queue from `k` to `k'`. */
  predicate MovesAt(k: Queue, k': Queue, m: Move, p: Place)
  {
    if m.come.Some? && m.come.value.0 == p then Has(k', p) && TaskAt(k', p) == m.come.value.1
    else if m.gone == Some(p) then !Has(k', p)
    else (Has(k', p) <==> Has(k, p)) && (Has(k, p) ==> TaskAt(k', p) == TaskAt(k, p))
  }

  /** IDs and the read position only go up, and an old ID never names a new message. */
  ghost predicate Later(st: Stream, st': Stream)
  {
    && st.next <= st'.next && st.cursor <= st'.cursor
    && (forall id :: id in st'.entries && id < st.next ==> id in st.entries && st'.entries[id] == st.entries[id])
  }

  ghost predicate IdsOk(k: Queue)
  {
    k.stream.WellFormed() && k.dlq.WellFormed()
  }

  /** A task comes as a new message, or as a member of a sorted set, where it is its own key. */
  predicate Arrives(k: Queue, p: Place, task: Task)
  {
    match p
    case InStream(id) => id == k.stream.next
    case InDlq(id) => id == k.dlq.next
    case InScheduled(member) => member == task
    case InRetry(member) => member == task
  }

  /** What one step does to the queue that it touches. */
  ghost predicate Moves(k: Queue, k': Queue, m: Move)
  {
    && (forall p: Place :: MovesAt(k, k', m, p))
    && (m.come.Some? ==> Arrives(k, m.come.value.0, m.come.value.1))
    && IdsOk(k') && Later(k.stream, k'.stream) && Later(k.dlq, k'.dlq)
  }

  function FailMove(k: Queue, task: Task, err: string): Move
  {
    var failed := task.Failed(err);
    Move(if task.Meta().streamMsgID.Some? then Some(InStream(task.Meta().streamMsgID.value)) else None,
         if failed.RetryCount() >= failed.RetryLimit() then Some((InDlq(k.dlq.next), failed.WithState(Dead)))
         else Some((InRetry(failed.WithState(TaskState.Retry)), failed.WithState(TaskState.Retry))))
  }

  lemma FailMoves(k: Queue, task: Task, err: string, score: int)
    requires IdsOk(k)
    ensures Moves(k, k.Fail(task, err, score), FailMove(k, task, err))
  {
  }

  lemma PromoteScheduledMoves(k: Queue, member: Task)
    requires IdsOk(k)
    ensures Moves(k, k.PromoteScheduled(member),
                  Move(Some(InScheduled(member)), Some((InStream(k.stream.next), member.WithState(Pending)))))
  {
  }

  lemma PromoteRetryMoves(k: Queue, member: Task)
    requires IdsOk(k)
    ensures Moves(k, k.PromoteRetry(member),
                  Move(Some(InRetry(member)), Some((InStream(k.stream.next), member.WithState(Pending)))))
  {
  }

  lemma EnqueuedMoves(k: Queue, task: Task)
    requires IdsOk(k)
    ensures Moves(k, k.Enqueued(Data(task)), Move(None, Some((InStream(k.stream.next), task))))
  {
  }

  lemma ScheduleMoves(k: Queue, task: Task, score: int)
    requires IdsOk(k)
    ensures Moves(k, k.Schedule(task, score), Move(None, Some((InScheduled(task), task))))
  {
  }

  lemma AckMoves(k: Queue, id: nat)
    requires IdsOk(k)
    ensures Moves(k, k.Ack(id), Move(Some(InStream(id)), None))
  {
  }

  lemma RedriveMoves(k: Queue, id: nat, task: Task)
    requires IdsOk(k)
    ensures Moves(k, k.Redrive(id, task),
                  Move(Some(InDlq(id)), Some((InStream(k.stream.next), task.Redriven()))))
  {
  }

  lemma StreamMoves(k: Queue, k': Queue)
    requires IdsOk(k) && k' == k.(stream := k'.stream) && k'.stream.WellFormed() && Later(k.stream, k'.stream)
    requires forall id: nat :: if k.stream.HasTask(id)
             then k'.stream.HasTask(id) && k'.stream.entries[id] == k.stream.entries[id]
                               else !k'.stream.HasTask(id)
    ensures Moves(k, k', NO_MOVE)
  {
  }

  /** The queue whose keys a step may change. */
  function Touched(s: Sys, a: Action): string
  {
    match a
    case Enqueue(task, _) => task.Queue()
    case PublishJunk(q, _) => q
    case PromoteScheduled(q, _) => q
    case PromoteRetry(q, _) => q
    case Deliver(q, _, _, _) => q
    case Redeliver(q, _, _, _) => q
    case AckJunk(q, _) => q
    case HandlerFail(h, _, _) => if h in s.holders then s.holders[h].task.Queue() else ""
    case AckDone(h) => if h in s.holders then s.holders[h].queue else ""
    case Redrive(_, q, _, _) => q
    case _ => ""
  }

  /** The keys of that queue after the step. */
  ghost function QueueAfter(s: Sys, a: Action): Queue
    requires Enabled(s, a)
  {
    var k := s.db.At(Touched(s, a));
    match a
    case Enqueue(task, now) => EnqueueAfter(s.db, task, now)
    case PublishJunk(_, body) => k.(stream := k.stream.Add(body))
    case PromoteScheduled(_, member) => k.PromoteScheduled(member)
    case PromoteRetry(_, member) => k.PromoteRetry(member)
    case Deliver(_, id, consumer, _) => k.(stream := k.stream.ReadNew(id, consumer))
    case Redeliver(_, id, consumer, _) => k.(stream := k.stream.Reassign(id, consumer))
    case AckJunk(_, id) => k.(stream := k.stream.Ack(id))
    case HandlerFail(h, err, score) => k.Fail(s.holders[h].task, err, score)
    case AckDone(h) => k.Ack(s.holders[h].id)
    case Redrive(_, _, id, task) => k.Redrive(id, task)
    case _ => k
  }

  function EnqueueAfter(db: Db, task: Task, now: int): Queue
  {
    var k := db.At(task.Queue());
    match Keys.Enqueue(db, task, now).1
    case Duplicate => k
    case Accepted(t) =>
      if IsScheduled(task, now) then k.Schedule(t, Unix(task.options.value.processAt.value)) else k.Enqueued(Data(t))
  }

  /** The task that a step moves. */
  ghost function MoveOf(s: Sys, a: Action): Move
    requires Enabled(s, a)
  {
    var k := s.db.At(Touched(s, a));
    match a
    case Enqueue(task, now) => EnqueueMove(s.db, task, now)
    case PromoteScheduled(_, member) =>
      Move(Some(InScheduled(member)), Some((InStream(k.stream.next), member.WithState(Pending))))
    case PromoteRetry(_, member) =>
      Move(Some(InRetry(member)), Some((InStream(k.stream.next), member.WithState(Pending))))
    case HandlerFail(h, err, _) => FailMove(k, s.holders[h].task, err)
    case AckDone(h) => Move(Some(InStream(s.holders[h].id)), None)
    case Redrive(_, _, id, task) => Move(Some(InDlq(id)), Some((InStream(k.stream.next), task.Redriven())))
    case _ => NO_MOVE
  }

  function EnqueueMove(db: Db, task: Task, now: int): Move
  {
    match Keys.Enqueue(db, task, now).1
    case Duplicate => NO_MOVE
    case Accepted(t) =>
      var place := if IsScheduled(task, now) then InScheduled(t) else InStream(db.At(task.Queue()).stream.next);
      Move(None, Some((place, t)))
  }

  lemma EnqueueQueue(db: Db, task: Task, now: int, q: string)
    ensures var db' := Keys.Enqueue(db, task, now).0;
            && db'.At(q) == (if q == task.Queue() then EnqueueAfter(db, task, now) else db.At(q))
            && db.known <= db'.known
            && (EnqueueMove(db, task, now).come.Some? ==> task.Queue() in db'.known)
  {
    hide Queue.Enqueued, Queue.Schedule;
    assert task.WithState(Scheduled).Queue() == task.WithState(Pending).Queue() == task.Queue();
    hide Task.Queue, Task.WithState;
  }

  lemma RedriveQueue(db: Db, q: string, id: nat, task: Task, other: string)
    ensures var db' := Keys.Redrive(db, q, id, task);
            db'.At(other) == (if other == q then db.At(q).Redrive(id, task) else db.At(other)) && db'.known == db.known
  {
  }

  /** A step changes the keys of one queue at most. */
  lemma StepQueue(s: Sys, a: Action, q: string)
    requires Enabled(s, a)
    ensures Apply(s, a).db.At(q) == if q == Touched(s, a) then QueueAfter(s, a) else s.db.At(q)
    ensures s.db.known <= Apply(s, a).db.known
    ensures a.Enqueue? && MoveOf(s, a).come.Some? ==> Touched(s, a) in Apply(s, a).db.known
  {
    hide FailMove, Hold, PassGate, Queue.Fail, Queue.Enqueued, Queue.Schedule, Queue.Redrive, Queue.PromoteScheduled,
      Queue.PromoteRetry, Queue.Ack, Stream.Add, Stream.ReadNew, Stream.Reassign, Stream.Ack, Keys.Enqueue,
      Keys.Redrive, EnqueueAfter, EnqueueMove, Task.Queue, Task.WithState;
    match a
    case Enqueue(task, now) => EnqueueQueue(s.db, task, now, q);
    case Redrive(_, other, id, task) => RedriveQueue(s.db, other, id, task, q);
    case _ =>
  }

  ghost predicate AllIdsOk(db: Db)
  {
    forall q :: IdsOk(db.At(q))
  }

  /** `db'` differs from `db` in the keys of one queue, in which the move `m` has happened. */
  ghost predicate MovesIn(db: Db, db': Db, q: string, m: Move)
  {
    && Moves(db.At(q), db'.At(q), m)
    && (forall other :: other != q ==> db'.At(other) == db.At(other))
    && db.known <= db'.known
  }

  lemma EnqueueMoves(db: Db, task: Task, now: int)
    requires IdsOk(db.At(task.Queue()))
    ensures Moves(db.At(task.Queue()), EnqueueAfter(db, task, now), EnqueueMove(db, task, now))
  {
    var k := db.At(task.Queue());
    hide Moves, Queue.Schedule, Queue.Enqueued;
    match Keys.Enqueue(db, task, now).1
    case Duplicate => StreamMoves(k, k);
    case Accepted(t) =>
      if IsScheduled(task, now) {
        ScheduleMoves(k, t, Unix(task.options.value.processAt.value));
      } else {
        EnqueuedMoves(k, t);
      }
  }

  /** Reads and messages without a task move nothing. */
  lemma ReadMoves(s: Sys, a: Action)
    requires Enabled(s, a) && IdsOk(s.db.At(Touched(s, a)))
    requires a.PublishJunk? || a.Deliver? || a.Redeliver? || a.AckJunk?
    ensures Moves(s.db.At(Touched(s, a)), QueueAfter(s, a), NO_MOVE)
  {
    hide Moves;
    StreamMoves(s.db.At(Touched(s, a)), QueueAfter(s, a));
  }

  lemma QueueMoves(s: Sys, a: Action)
    requires Enabled(s, a) && IdsOk(s.db.At(Touched(s, a)))
    ensures Moves(s.db.At(Touched(s, a)), QueueAfter(s, a), MoveOf(s, a))
  {
    var k := s.db.At(Touched(s, a));
    hide Moves, EnqueueMove, EnqueueAfter, FailMove, Queue.Fail, Queue.PromoteScheduled, Queue.PromoteRetry,
      Queue.Redrive, Queue.Ack;
    match a
    case Enqueue(task, now) => EnqueueMoves(s.db, task, now);
    case PromoteScheduled(_, member) => PromoteScheduledMoves(k, member);
    case PromoteRetry(_, member) => PromoteRetryMoves(k, member);
    case HandlerFail(h, err, score) => FailMoves(k, s.holders[h].task, err, score);
    case AckDone(h) => AckMoves(k, s.holders[h].id);
    case Redrive(_, _, id, task) => RedriveMoves(k, id, task);
    case PublishJunk(_, _) => ReadMoves(s, a);
    case Deliver(_, _, _, _) => ReadMoves(s, a);
    case Redeliver(_, _, _, _) => ReadMoves(s, a);
    case AckJunk(_, _) => ReadMoves(s, a);
    case _ => StreamMoves(k, k);
  }

  /** The central fact about one step: which task moves, and from where to where. */
  lemma StepMoves(s: Sys, a: Action)
    requires Enabled(s, a) && AllIdsOk(s.db)
    ensures MovesIn(s.db, Apply(s, a).db, Touched(s, a), MoveOf(s, a))
    ensures a.Enqueue? && MoveOf(s, a).come.Some? ==> Touched(s, a) in Apply(s, a).db.known
  {
    hide Apply, QueueAfter, MoveOf, Touched, Moves;
    assert IdsOk(s.db.At(Touched(s, a)));
    QueueMoves(s, a);
    forall q ensures Apply(s, a).db.At(q) == if q == Touched(s, a) then QueueAfter(s, a) else s.db.At(q) {
      StepQueue(s, a, q);
    }
    StepQueue(s, a, "");
  }

  /** A task stays where it is, unless it is the one that the step takes away. */
  lemma Stays(db: Db, db': Db, q: string, m: Move, other: string, p: Place)
    requires AllIdsOk(db) && MovesIn(db, db', q, m) && Has(db.At(other), p)
    requires other != q || m.gone != Some(p)
    ensures Has(db'.At(other), p) && TaskAt(db'.At(other), p) == TaskAt(db.At(other), p)
  {
    assert IdsOk(db.At(other));
    if other == q { assert MovesAt(db.At(q), db'.At(q), m, p); }
  }

  lemma Comes(db: Db, db': Db, q: string, m: Move)
    requires MovesIn(db, db', q, m) && m.come.Some?
    ensures Has(db'.At(q), m.come.value.0) && TaskAt(db'.At(q), m.come.value.0) == m.come.value.1
  {
    assert MovesAt(db.At(q), db'.At(q), m, m.come.value.0);
  }

  lemma StreamLater(db: Db, db': Db, q: string, m: Move, other: string)
    requires MovesIn(db, db', q, m) && AllIdsOk(db)
    ensures Later(db.At(other).stream, db'.At(other).stream) && Later(db.At(other).dlq, db'.At(other).dlq)
    ensures IdsOk(db'.At(other))
  {
    assert IdsOk(db.At(other));
  }
}
