/**
 What every interleaving keeps, whoever claims whose messages: each task stays on its own queue, that
 queue is known to the scheduler, and the failure count of each copy is within the bounds of its place.
 */
module Affinity {
  import opened Wrappers
  import opened Tasks
  import opened Streams
  import opened Keys
  import opened Lifecycle
  import opened Places

  /** The failure counts that a place admits for a task with retry limit `limit`. */
  predicate Budget(p: Place, count: int, limit: int)
  {
    match p
    case InStream(_) => 0 <= count < limit
    case InDlq(_) => count == limit
    case InScheduled(_) => 0 <= count < limit
    case InRetry(_) => 1 <= count < limit
  }

  predicate TaskOk(db: Db, q: string, p: Place, task: Task)
  {
    task.Queue() == q && q in db.known && task.metadata.Some? && Budget(p, task.RetryCount(), task.RetryLimit())
  }

  predicate PlaceOk(db: Db, q: string, p: Place)
  {
    Has(db.At(q), p) ==> TaskOk(db, q, p, TaskAt(db.At(q), p))
  }

  /** Nothing but state, timestamps and message ID may differ. */
  predicate SameAttempt(a: Task, b: Task)
  {
    a.SameWork(b) && a.RetryCount() == b.RetryCount()
  }

  predicate HolderOk(db: Db, holder: Holder)
  {
    var stream := db.At(holder.queue).stream;
    && holder.task.Queue() == holder.queue
    && holder.queue in db.known
    && holder.task.Meta().streamMsgID == Some(holder.id)
    && 0 <= holder.task.RetryCount() < holder.task.RetryLimit()
    && holder.id < stream.cursor
    && (holder.id in stream.entries ==>
          stream.entries[holder.id].Data? && SameAttempt(stream.entries[holder.id].task, holder.task))
    && (holder.phase == Skipping ==> holder.task.RetryCount() == 0)
  }

  ghost predicate PlacesOk(db: Db)
  {
    forall q, p :: PlaceOk(db, q, p)
  }

  ghost predicate HoldersOk(s: Sys)
  {
    forall h :: h in s.holders ==> HolderOk(s.db, s.holders[h])
  }

  /** A redrive under way has found a task of its queue, and what is still there under this ID is that task. */
  predicate FoundOk(db: Db, f: Found)
  {
    var dlq := db.At(f.queue).dlq;
    && f.task.Queue() == f.queue && f.queue in db.known && f.task.metadata.Some?
    && f.id < dlq.next && (f.id in dlq.entries ==> dlq.entries[f.id] == Data(f.task))
  }

  ghost predicate LookupsOk(s: Sys)
  {
    forall r :: r in s.lookups ==> FoundOk(s.db, s.lookups[r])
  }

  ghost predicate Base(s: Sys)
  {
    AllIdsOk(s.db) && PlacesOk(s.db) && HoldersOk(s) && LookupsOk(s)
  }

  lemma LookupFits(s: Sys, r: nat)
    requires LookupsOk(s) && r in s.lookups
    ensures FoundOk(s.db, s.lookups[r])
  {
  }

  /** If the message of a redrive is still there, it carries the task that the lookup found. */
  lemma RedriveFinds(s: Sys, a: Action)
    requires LookupsOk(s) && Enabled(s, a) && a.Redrive?
    ensures a.task.Queue() == a.queue && a.queue in s.db.known && a.task.metadata.Some?
    ensures a.id in s.db.At(a.queue).dlq.entries ==> s.db.At(a.queue).dlq.entries[a.id] == Data(a.task)
  {
    LookupFits(s, a.r);
  }

  lemma RedrivenOk(db: Db, q: string, id: nat, task: Task)
    requires task.Queue() == q && q in db.known && task.metadata.Some?
    ensures TaskOk(db, q, InStream(id), task.Redriven())
  {
  }

  lemma PlaceFits(db: Db, q: string, p: Place)
    requires PlacesOk(db) && Has(db.At(q), p)
    ensures TaskOk(db, q, p, TaskAt(db.At(q), p))
  {
    assert PlaceOk(db, q, p);
  }

  lemma HolderFits(s: Sys, h: nat)
    requires HoldersOk(s) && h in s.holders
    ensures HolderOk(s.db, s.holders[h])
  {
  }

  /** A task that fails once more fits into the place that handleFailure chooses. */
  lemma FailureOk(db: Db, db': Db, holder: Holder, err: string)
    requires HolderOk(db, holder) && db.known <= db'.known
    ensures var m := FailMove(db.At(holder.queue), holder.task, err);
            TaskOk(db', holder.queue, m.come.value.0, m.come.value.1)
  {
  }

  ghost predicate ArrivalOk(db': Db, q: string, m: Move)
  {
    m.come.Some? ==> TaskOk(db', q, m.come.value.0, m.come.value.1)
  }

  /** A task that a step puts into a place fits there. */
  lemma StepArrival(s: Sys, a: Action)
    requires Enabled(s, a) && Base(s)
    ensures ArrivalOk(Apply(s, a).db, Touched(s, a), MoveOf(s, a))
  {
    hide Apply, FailMove, Moves, PlacesOk, HoldersOk, AllIdsOk;
    StepMoves(s, a);
    match a
    case PromoteScheduled(q, member) => PlaceFits(s.db, q, InScheduled(member));
    case PromoteRetry(q, member) => PlaceFits(s.db, q, InRetry(member));
    case HandlerFail(h, err, _) =>
      HolderFits(s, h);
      FailureOk(s.db, Apply(s, a).db, s.holders[h], err);
    case Redrive(_, q, id, task) =>
      RedriveFinds(s, a);
      RedrivenOk(Apply(s, a).db, q, s.db.At(q).stream.next, task);
    case _ =>
  }

  lemma PlacesStep(s: Sys, a: Action)
    requires Base(s) && Enabled(s, a)
    ensures PlacesOk(Apply(s, a).db)
  {
    StepMoves(s, a);
    StepArrival(s, a);
    hide Apply, MoveOf;
    var (db', touched) := (Apply(s, a).db, Touched(s, a));
    forall q, p ensures PlaceOk(db', q, p) {
      assert PlaceOk(s.db, q, p);
      if q == touched { assert MovesAt(s.db.At(q), db'.At(q), MoveOf(s, a), p); }
    }
  }

  /** The same delivery, perhaps further on. */
  predicate Continues(before: Holder, after: Holder)
  {
    && after.queue == before.queue && after.id == before.id && after.first == before.first
    && SameAttempt(after.task, before.task)
    && after.task.Meta().streamMsgID == before.task.Meta().streamMsgID
  }

  predicate Starts(db: Db, holder: Holder)
  {
    && db.At(holder.queue).stream.HasTask(holder.id)
    && holder.task == db.At(holder.queue).stream.entries[holder.id].task.Received(holder.id)
    && holder.phase == Received
  }

  /** Where the deliveries after a step come from. */
  lemma StepHolders(s: Sys, a: Action, h: nat)
    requires Enabled(s, a) && AllIdsOk(s.db) && h in Apply(s, a).holders
    ensures var after := Apply(s, a).holders[h];
            if h in s.holders then
              Continues(s.holders[h], after) && (after.phase == Skipping && s.holders[h].phase != Skipping
                  ==> a.Gate? && after.task.RetryCount() == 0)
            else Starts(s.db, after) && after.id < Apply(s, a).db.At(after.queue).stream.cursor
  {
    hide Keys.Enqueue, Keys.Redrive, Queue.Fail;
    assert IdsOk(s.db.At(Touched(s, a)));
  }

  /** The delivery that a step advances or ends. */
  function Actor(a: Action): Option<nat>
  {
    match a
    case Gate(h, _, _, _) => Some(h)
    case HandlerOk(h) => Some(h)
    case HandlerFail(h, _, _) => Some(h)
    case AckDone(h) => Some(h)
    case Crash(h) => Some(h)
    case _ => None
  }

  lemma OthersStay(s: Sys, a: Action, h: nat)
    requires Enabled(s, a) && h in s.holders && Actor(a) != Some(h)
    ensures h in Apply(s, a).holders && Apply(s, a).holders[h] == s.holders[h]
  {
    hide Keys.Enqueue, Keys.Redrive, Queue.Fail;
  }

  lemma HolderStays(db: Db, db': Db, before: Holder, after: Holder)
    requires HolderOk(db, before) && Continues(before, after)
    requires IdsOk(db.At(before.queue)) && Later(db.At(before.queue).stream, db'.At(before.queue).stream)
    requires db.known <= db'.known
    requires after.phase == Skipping ==> after.task.RetryCount() == 0
    ensures HolderOk(db', after)
  {
  }

  lemma HolderStarts(db: Db, db': Db, holder: Holder)
    requires Starts(db, holder) && PlaceOk(db, holder.queue, InStream(holder.id))
    requires IdsOk(db.At(holder.queue)) && Later(db.At(holder.queue).stream, db'.At(holder.queue).stream)
    requires db.known <= db'.known && holder.id < db'.At(holder.queue).stream.cursor
    ensures HolderOk(db', holder)
  {
  }

  lemma HoldersStep(s: Sys, a: Action)
    requires Base(s) && Enabled(s, a)
    ensures HoldersOk(Apply(s, a))
  {
    var s' := Apply(s, a);
    StepMoves(s, a);
    hide Apply, MoveOf, Touched, HolderOk, PlaceOk, Starts, Later;
    forall h | h in s'.holders ensures HolderOk(s'.db, s'.holders[h]) {
      StepHolders(s, a, h);
      var holder := s'.holders[h];
      assert IdsOk(s.db.At(holder.queue)) && PlaceOk(s.db, holder.queue, InStream(holder.id));
      StreamLater(s.db, s'.db, Touched(s, a), MoveOf(s, a), holder.queue);
      if h in s.holders {
        assert HolderOk(s.db, s.holders[h]);
        SkippingIsFirst(s.db, s.holders[h]);
        HolderStays(s.db, s'.db, s.holders[h], holder);
      } else { HolderStarts(s.db, s'.db, holder); }
    }
  }

  lemma SkippingIsFirst(db: Db, holder: Holder)
    requires HolderOk(db, holder)
    ensures holder.phase == Skipping ==> holder.task.RetryCount() == 0
  {}

  lemma LookupStep(s: Sys, a: Action)
    requires Enabled(s, a)
    ensures forall r :: r in Apply(s, a).lookups && r !in s.lookups ==>
              a.Lookup? && a.r == r
              && Apply(s, a).lookups[r] == Found(a.queue, a.id, s.db.At(a.queue).dlq.entries[a.id].task)
    ensures forall r :: r in Apply(s, a).lookups && r in s.lookups ==> Apply(s, a).lookups[r] == s.lookups[r]
  {
    hide Keys.Enqueue, Keys.Redrive, Queue.Fail, Queue.Ack, Hold, PassGate;
  }

  lemma LookupsStep(s: Sys, a: Action)
    requires Base(s) && Enabled(s, a)
    ensures LookupsOk(Apply(s, a))
  {
    var s' := Apply(s, a);
    StepMoves(s, a);
    LookupStep(s, a);
    hide Apply, MoveOf, Touched, Later, PlacesOk, HoldersOk, AllIdsOk;
    forall r | r in s'.lookups
      ensures FoundOk(s'.db, s'.lookups[r])
    {
      var f := s'.lookups[r];
      FoundStays(s, s'.db, Touched(s, a), MoveOf(s, a), f, r);
    }
  }

  lemma FoundStays(s: Sys, db': Db, q: string, m: Move, f: Found, r: nat)
    requires Base(s) && MovesIn(s.db, db', q, m)
    requires (r in s.lookups && f == s.lookups[r]) || (Has(s.db.At(f.queue), InDlq(f.id))
             && f.task == TaskAt(s.db.At(f.queue), InDlq(f.id)))
    ensures FoundOk(db', f)
  {
    StreamLater(s.db, db', q, m, f.queue);
    assert IdsOk(s.db.At(f.queue));
    if r in s.lookups && f == s.lookups[r] {
      LookupFits(s, r);
    } else {
      PlaceFits(s.db, f.queue, InDlq(f.id));
    }
  }

  lemma BaseStep(s: Sys, a: Action)
    requires Base(s) && Enabled(s, a)
    ensures Base(Apply(s, a))
  {
    StepMoves(s, a);
    forall q ensures IdsOk(Apply(s, a).db.At(q)) {
      StreamLater(s.db, Apply(s, a).db, Touched(s, a), MoveOf(s, a), q);
    }
    PlacesStep(s, a);
    HoldersStep(s, a);
    LookupsStep(s, a);
  }
}
