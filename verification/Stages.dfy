/**
 The distributed system, seen one task at a time. Under the rules of `Ownership` every step moves one task
 through a small automaton and leaves every other task alone.
 */
module Stages {
  import opened Wrappers
  import opened Tasks
  import opened Streams
  import opened Keys
  import opened Lifecycle
  import opened Places
  import opened Affinity
  import opened NoLoss
  import opened Ownership
  import opened Idempotency

  /**
   `InSet`: scheduled, or waiting for a retry. `Orphaned`: delivered to a worker that is gone. `Waiting`,
   `Handling`, `Handled`: in the hands of a worker before, during and after the handler's run. `TurnedAway`:
   found to be processed already. `Buried`: in the dead letter queue. `Done`: acknowledged. `count` is the
   number of failures so far.
   */
  datatype Stage =
    | Absent
    | InSet(count: int)
    | Queued(count: int)
    | Orphaned(count: int)
    | Waiting(count: int)
    | TurnedAway
    | Handling(count: int)
    | Handled(count: int)
    | Buried
    | Done

  function HolderStage(holder: Holder): Stage
  {
    match holder.phase
    case Received => Waiting(holder.task.RetryCount())
    case Skipping => TurnedAway
    case Running => Handling(holder.task.RetryCount())
    case Succeeded => Handled(holder.task.RetryCount())
  }

  ghost function StageAt(s: Sys, q: string, p: Place): Stage
    requires Has(s.db.At(q), p)
  {
    var count := TaskAt(s.db.At(q), p).RetryCount();
    match p
    case InScheduled(_) => InSet(count)
    case InRetry(_) => InSet(count)
    case InDlq(_) => Buried
    case InStream(id) =>
      if s.db.At(q).stream.cursor <= id then Queued(count)
      else if exists h :: Holds(s, h, q, id) then var h :| Holds(s, h, q, id); HolderStage(s.holders[h])
      else Orphaned(count)
  }

  ghost function StageOf(s: Sys, t: string): Stage
  {
    if t !in s.accepted then Absent
    else if exists q, p :: Copy(s.db, t, q, p) then var q, p :| Copy(s.db, t, q, p); StageAt(s, q, p)
    else Done
  }

  lemma StageIs(s: Sys, q: string, p: Place)
    requires Owned(s) && Has(s.db.At(q), p)
    ensures StageOf(s, TaskAt(s.db.At(q), p).id) == StageAt(s, q, p)
  {
    hide Has, TaskAt, StageAt, PlacesOk, AllIdsOk, HoldersOk, QueuesOwned, CopiesKnown, SingleCopy, SuccessesOk,
      HoldersOwn;
    var t := TaskAt(s.db.At(q), p).id;
    CopyKnown(s, q, p);
    assert Copy(s.db, t, q, p);
    forall q', p' | Copy(s.db, t, q', p') ensures q' == q && p' == p { OnePlace(s, q, p, q', p'); }
  }

  lemma HeldStageAt(s: Sys, h: nat)
    requires Owned(s) && h in s.holders
    ensures var (q, p) := (s.holders[h].queue, InStream(s.holders[h].id));
            Has(s.db.At(q), p) && StageAt(s, q, p) == HolderStage(s.holders[h])
                && TaskAt(s.db.At(q), p).id == s.holders[h].task.id
  {
    hide PlacesOk, AllIdsOk, HoldersOk, QueuesOwned, CopiesKnown, SingleCopy, SuccessesOk;
    HeldPlace(s, h);
    assert Holds(s, h, s.holders[h].queue, s.holders[h].id);
  }

  lemma HeldStage(s: Sys, h: nat)
    requires Owned(s) && h in s.holders
    ensures StageOf(s, s.holders[h].task.id) == HolderStage(s.holders[h])
  {
    hide Owned, StageAt, StageOf, Has, TaskAt;
    HeldStageAt(s, h);
    StageIs(s, s.holders[h].queue, InStream(s.holders[h].id));
  }

  /** The task that a step is about. */
  ghost function Subject(s: Sys, a: Action): Option<string>
    requires Enabled(s, a)
  {
    match a
    case Enqueue(task, _) => if Accepts(s, a) then Some(task.id) else None
    case PromoteScheduled(_, member) => Some(member.id)
    case PromoteRetry(_, member) => Some(member.id)
    case Deliver(q, id, _, _) =>
      if s.db.At(q).stream.HasTask(id) then Some(s.db.At(q).stream.entries[id].task.id) else None
    case Redeliver(q, id, _, _) =>
      if s.db.At(q).stream.HasTask(id) then Some(s.db.At(q).stream.entries[id].task.id) else None
    case Gate(h, _, _, _) => Some(s.holders[h].task.id)
    case HandlerOk(h) => Some(s.holders[h].task.id)
    case HandlerFail(h, _, _) => Some(s.holders[h].task.id)
    case AckDone(h) => Some(s.holders[h].task.id)
    case Crash(h) => Some(s.holders[h].task.id)
    case Redrive(_, _, _, task) => Some(task.id)
    case _ => None
  }

  /** The automaton of one task with retry limit `limit`. */
  predicate Evolves(a: Action, limit: int, before: Stage, after: Stage)
  {
    match a
    case Enqueue(_, _) => before.Absent? && (after.InSet? || after.Queued?) && 0 <= after.count < limit
    case PromoteScheduled(_, _) => before.InSet? && after == Queued(before.count)
    case PromoteRetry(_, _) => before.InSet? && after == Queued(before.count)
    case Deliver(_, _, _, _) => before.Queued? && after == Waiting(before.count)
    case Redeliver(_, _, _, _) => before.Orphaned? && after == Waiting(before.count)
    case Gate(_, _, _, _) =>
      before.Waiting? && (after == Handling(before.count) || (before.count == 0 && after.TurnedAway?))
    case HandlerOk(_) => before.Handling? && after == Handled(before.count)
    case HandlerFail(_, _, _) =>
      before.Handling? && after == if before.count + 1 < limit then InSet(before.count + 1) else Buried
    case AckDone(_) => (before.Handled? || before.TurnedAway?) && after.Done?
    case Crash(_) =>
      if before.TurnedAway? then after == Orphaned(0)
      else (before.Waiting? || before.Handling? || before.Handled?) && after == Orphaned(before.count)
    case Redrive(_, _, _, _) => before.Buried? && after == Queued(0)
    case _ => false
  }

  lemma ActorIsSubject(s: Sys, a: Action, h: nat)
    requires Enabled(s, a) && Actor(a) == Some(h)
    ensures h in s.holders && Subject(s, a) == Some(s.holders[h].task.id)
  {
  }

  /** Nobody else takes over a message that the step is not about. */
  lemma HoldersStay(s: Sys, a: Action, q: string, id: nat)
    requires Owned(s) && OwnedEnabled(s, a) && Has(s.db.At(q), InStream(id)) && id < s.db.At(q).stream.cursor
    requires Has(Apply(s, a).db.At(q), InStream(id)) && Apply(s, a).db.At(q).stream.cursor > id
    requires TaskAt(Apply(s, a).db.At(q), InStream(id)) == TaskAt(s.db.At(q), InStream(id))
    requires Subject(s, a) != Some(TaskAt(s.db.At(q), InStream(id)).id)
    ensures StageAt(Apply(s, a), q, InStream(id)) == StageAt(s, q, InStream(id))
  {
    hide Apply, Subject, Actor, Enabled, HolderStage, PlacesOk, AllIdsOk, HoldersOk, QueuesOwned, CopiesKnown,
      SingleCopy, SuccessesOk, HoldersOwn;
    OwnedStep(s, a);
    var s' := Apply(s, a);
    if h: nat :| Holds(s, h, q, id) {
      HeldStageAt(s, h);
      if Actor(a) == Some(h) { ActorIsSubject(s, a, h); }
      OthersStay(s, a, h);
      HeldStageAt(s', h);
    } else {
      forall h ensures !Holds(s', h, q, id) {
        assert !Holds(s, h, q, id);
        if Holds(s', h, q, id) {
          StepHolders(s, a, h);
          HeldStageAt(s', h);
          if h !in s.holders { NewHolderIsSubject(s, a, h); }
        }
      }
    }
  }

  /** A copy that the step is not about stays in its place and in its stage. */
  lemma StageStays(s: Sys, a: Action, q: string, p: Place)
    requires Owned(s) && OwnedEnabled(s, a) && Has(s.db.At(q), p)
    requires Subject(s, a) != Some(TaskAt(s.db.At(q), p).id)
    ensures Has(Apply(s, a).db.At(q), p) && TaskAt(Apply(s, a).db.At(q), p) == TaskAt(s.db.At(q), p)
    ensures StageAt(Apply(s, a), q, p) == StageAt(s, q, p)
  {
    hide Apply, Subject, MoveOf, PlacesOk, AllIdsOk, HoldersOk, QueuesOwned, CopiesKnown, SingleCopy, SuccessesOk,
      HoldersOwn;
    StepMoves(s, a);
    if MoveOf(s, a).gone.Some? { GoneIsSubject(s, a); }
    Stays(s.db, Apply(s, a).db, Touched(s, a), MoveOf(s, a), q, p);
    if p.InStream? {
      CursorPasses(s, a, q, p.id);
      if p.id < s.db.At(q).stream.cursor { HoldersStay(s, a, q, p.id); }
    }
  }

  lemma GoneIsSubject(s: Sys, a: Action)
    requires Owned(s) && OwnedEnabled(s, a) && MoveOf(s, a).gone.Some?
    ensures Has(s.db.At(Touched(s, a)), MoveOf(s, a).gone.value)
    ensures Subject(s, a) == Some(TaskAt(s.db.At(Touched(s, a)), MoveOf(s, a).gone.value).id)
  {
    hide Apply, PlacesOk, AllIdsOk, HoldersOk, QueuesOwned, CopiesKnown, SingleCopy, SuccessesOk, HoldersOwn;
    MovedTask(s, a);
    if a.HandlerFail? || a.AckDone? { HeldPlace(s, a.h); HolderFits(s, a.h); }
  }

  lemma NewHolderIsSubject(s: Sys, a: Action, h: nat)
    requires Enabled(s, a) && h in Apply(s, a).holders && h !in s.holders
    ensures Subject(s, a) == Some(Apply(s, a).holders[h].task.id)
  {
    hide Keys.Enqueue, Keys.Redrive, Queue.Fail, Queue.Ack, PassGate;
  }

  lemma CursorPasses(s: Sys, a: Action, q: string, id: nat)
    requires Enabled(s, a) && s.db.At(q).stream.HasTask(id)
             && Subject(s, a) != Some(s.db.At(q).stream.entries[id].task.id)
    ensures s.db.At(q).stream.cursor <= id <==> Apply(s, a).db.At(q).stream.cursor <= id
  {
    StepQueue(s, a, q);
    hide Apply, MoveOf;
  }

  lemma CopyStage(s: Sys, t: string, q: string, p: Place)
    requires Owned(s) && Copy(s.db, t, q, p)
    ensures StageOf(s, t) == StageAt(s, q, p)
  {
    StageIs(s, q, p);
  }

  /** An arriving task is the one that the step is about. */
  lemma ComeIsSubject(s: Sys, a: Action)
    requires Owned(s) && OwnedEnabled(s, a) && MoveOf(s, a).come.Some?
    ensures Subject(s, a) == Some(MoveOf(s, a).come.value.1.id)
  {
    hide Apply, Has, TaskAt, PlacesOk, AllIdsOk, HoldersOk, QueuesOwned, CopiesKnown, SingleCopy, SuccessesOk,
      HoldersOwn, Owned;
  }

  /** A step changes the stage of its subject only. */
  lemma OthersUnchanged(s: Sys, a: Action, t: string)
    requires Owned(s) && OwnedEnabled(s, a) && Subject(s, a) != Some(t)
    ensures StageOf(Apply(s, a), t) == StageOf(s, t)
  {
    hide Apply, Subject, MoveOf, Touched, StageAt, Has, TaskAt, Accepts, NewTask, PlacesOk, AllIdsOk, HoldersOk,
      QueuesOwned, CopiesKnown, SingleCopy,
         SuccessesOk, HoldersOwn;
    var s' := Apply(s, a);
    OwnedStep(s, a);
    AcceptedStep(s, a);
    if Accepts(s, a) { AcceptedIsSubject(s, a); }
    if q, p :| Copy(s.db, t, q, p) {
      StageStays(s, a, q, p);
      CopyStage(s, t, q, p);
      CopyStage(s', t, q, p);
    } else {
      forall q, p ensures !Copy(s'.db, t, q, p) {
        if Copy(s'.db, t, q, p) { CopyBefore(s, a, t, q, p); }
      }
    }
  }

  lemma AcceptedIsSubject(s: Sys, a: Action)
    requires OwnedEnabled(s, a) && Accepts(s, a)
    ensures Subject(s, a) == Some(NewTask(s, a).id)
  {
  }

  lemma CopyBefore(s: Sys, a: Action, t: string, q: string, p: Place)
    requires Owned(s) && OwnedEnabled(s, a) && Subject(s, a) != Some(t) && Copy(Apply(s, a).db, t, q, p)
    ensures Copy(s.db, t, q, p)
  {
    hide Apply, Subject, MoveOf, Touched, Has, TaskAt, PlacesOk, AllIdsOk, HoldersOk, QueuesOwned, CopiesKnown,
      SingleCopy, SuccessesOk, HoldersOwn;
    StepMoves(s, a);
    var (touched, m) := (Touched(s, a), MoveOf(s, a));
    if q == touched {
      assert MovesAt(s.db.At(q), Apply(s, a).db.At(q), m, p);
      if m.come.Some? { ComeIsSubject(s, a); }
    }
  }

  function LimitOf(s: Sys, t: string): int
  {
    if t in s.accepted then s.accepted[t].RetryLimit() else 0
  }

  /** The new stage of a task that arrives at a place. */
  lemma ArrivalStage(s: Sys, a: Action)
    requires Owned(s) && OwnedEnabled(s, a) && MoveOf(s, a).come.Some?
    ensures var (p, task) := MoveOf(s, a).come.value;
            StageOf(Apply(s, a), task.id) ==
            (match p
             case InDlq(_) => Buried
             case InStream(_) => Queued(task.RetryCount())
             case InScheduled(_) => InSet(task.RetryCount())
             case InRetry(_) => InSet(task.RetryCount()))
  {
    hide Apply, Subject, MoveOf, Touched, PlacesOk, AllIdsOk, HoldersOk, QueuesOwned, CopiesKnown, SingleCopy,
      SuccessesOk, HoldersOwn;
    OwnedStep(s, a);
    StepMoves(s, a);
    Comes(s.db, Apply(s, a).db, Touched(s, a), MoveOf(s, a));
    StageIs(Apply(s, a), Touched(s, a), MoveOf(s, a).come.value.0);
    if MoveOf(s, a).come.value.0.InStream? { ArrivesAhead(s, a); }
  }

  /** A task arrives in a stream ahead of the read position. */
  lemma ArrivesAhead(s: Sys, a: Action)
    requires Enabled(s, a) && AllIdsOk(s.db) && MoveOf(s, a).come.Some? && MoveOf(s, a).come.value.0.InStream?
    ensures Apply(s, a).db.At(Touched(s, a)).stream.cursor <= MoveOf(s, a).come.value.0.id
  {
    assert IdsOk(s.db.At(Touched(s, a)));
    StepQueue(s, a, Touched(s, a));
    hide Apply;
  }

  lemma EnqueueEvolves(s: Sys, a: Action)
    requires Owned(s) && OwnedEnabled(s, a) && Accepts(s, a)
    ensures Evolves(a, LimitOf(Apply(s, a), a.task.id), StageOf(s, a.task.id), StageOf(Apply(s, a), a.task.id))
  {
    hide Apply, PlacesOk, AllIdsOk, HoldersOk, QueuesOwned, CopiesKnown, SingleCopy, SuccessesOk, HoldersOwn;
    AcceptedStep(s, a);
    ArrivalStage(s, a);
  }

  lemma MoveEvolves(s: Sys, a: Action, t: string)
    requires Owned(s) && OwnedEnabled(s, a) && Subject(s, a) == Some(t)
    requires a.PromoteScheduled? || a.PromoteRetry? || a.Redrive?
    ensures Evolves(a, LimitOf(s, t), StageOf(s, t), StageOf(Apply(s, a), t))
  {
    hide Apply, PlacesOk, AllIdsOk, HoldersOk, QueuesOwned, CopiesKnown, SingleCopy, SuccessesOk, HoldersOwn;
    ArrivalStage(s, a);
    GoneIsSubject(s, a);
    StageIs(s, Touched(s, a), MoveOf(s, a).gone.value);
  }

  lemma FailEvolves(s: Sys, a: Action)
    requires Owned(s) && OwnedEnabled(s, a) && a.HandlerFail?
    ensures var t := s.holders[a.h].task.id; Evolves(a, LimitOf(s, t), StageOf(s, t), StageOf(Apply(s, a), t))
  {
    hide Apply, PlacesOk, AllIdsOk, HoldersOk, QueuesOwned, CopiesKnown, SingleCopy, SuccessesOk, HoldersOwn;
    ArrivalStage(s, a);
    HeldStage(s, a.h);
    HeldPlace(s, a.h);
    HolderFits(s, a.h);
    CopyKnown(s, s.holders[a.h].queue, InStream(s.holders[a.h].id));
  }

  lemma AckEvolves(s: Sys, a: Action)
    requires Owned(s) && OwnedEnabled(s, a) && a.AckDone?
    ensures var t := s.holders[a.h].task.id; Evolves(a, LimitOf(s, t), StageOf(s, t), StageOf(Apply(s, a), t))
  {
    hide Apply, Has, TaskAt, PlacesOk, AllIdsOk, HoldersOk, QueuesOwned, CopiesKnown, SingleCopy, SuccessesOk,
      HoldersOwn;
    var (s', t, q, p) := (Apply(s, a), s.holders[a.h].task.id, s.holders[a.h].queue, InStream(s.holders[a.h].id));
    HeldStage(s, a.h);
    HeldPlace(s, a.h);
    AcceptedStep(s, a);
    StepMoves(s, a);
    forall q', p' ensures !Copy(s'.db, t, q', p') {
      assert q' == q ==> MovesAt(s.db.At(q), s'.db.At(q), MoveOf(s, a), p');
      if Copy(s'.db, t, q', p') { OnePlace(s, q, p, q', p'); }
    }
  }

  lemma HoldEvolves(s: Sys, a: Action, t: string)
    requires Owned(s) && OwnedEnabled(s, a) && (a.Deliver? || a.Redeliver?) && Subject(s, a) == Some(t)
    ensures Evolves(a, LimitOf(s, t), StageOf(s, t), StageOf(Apply(s, a), t))
  {
    hide Apply, StageOf, PlacesOk, AllIdsOk, HoldersOk, QueuesOwned, CopiesKnown, SingleCopy, SuccessesOk, HoldersOwn;
    OwnedStep(s, a);
    TakenUp(s, a);
    StageIs(s, a.queue, InStream(a.id));
    HeldStage(Apply(s, a), a.h);
    if a.Redeliver? { PendingIsDelivered(s, a.queue, a.id); }
  }

  lemma PendingIsDelivered(s: Sys, q: string, id: nat)
    requires AllIdsOk(s.db) && id in s.db.At(q).stream.pel
    ensures id < s.db.At(q).stream.cursor
  {
    assert IdsOk(s.db.At(q));
  }

  lemma TakenUp(s: Sys, a: Action)
    requires Enabled(s, a) && (a.Deliver? || a.Redeliver?) && Subject(s, a).Some?
    ensures a.h in Apply(s, a).holders
    ensures var task := s.db.At(a.queue).stream.entries[a.id].task; Apply(s, a).holders[a.h].task == task.Received(a.id)
    ensures Apply(s, a).holders[a.h].phase == Received
  {
  }

  /** What the gate and a successful handler make of a holder. */
  lemma HolderMovesOn(s: Sys, a: Action)
    requires Enabled(s, a) && (a.Gate? || a.HandlerOk?)
    ensures a.h in s.holders && a.h in Apply(s, a).holders
    ensures var (before, after) := (s.holders[a.h], Apply(s, a).holders[a.h]);
            && after.task.id == before.task.id && after.task.RetryCount() == before.task.RetryCount()
            && (a.HandlerOk? ==> before.phase == Running && after.phase == Succeeded)
            && (a.Gate? ==> before.phase == Received)
            && (a.Gate? ==> after.phase == Running || (after.phase == Skipping && before.task.RetryCount() == 0))
  {
  }

  lemma HolderEvolves(s: Sys, a: Action)
    requires Owned(s) && OwnedEnabled(s, a) && (a.Gate? || a.HandlerOk?)
    ensures var t := s.holders[a.h].task.id; Evolves(a, LimitOf(s, t), StageOf(s, t), StageOf(Apply(s, a), t))
  {
    hide Owned, Apply, StageOf;
    OwnedStep(s, a);
    HolderMovesOn(s, a);
    HeldStage(s, a.h);
    HeldStage(Apply(s, a), a.h);
  }

  lemma CrashLeaves(s: Sys, a: Action)
    requires Enabled(s, a) && a.Crash?
    ensures Apply(s, a).db == s.db && Apply(s, a).holders == s.holders - {a.h}
  {
  }

  lemma CrashEvolves(s: Sys, a: Action)
    requires Owned(s) && OwnedEnabled(s, a) && a.Crash?
    ensures var t := s.holders[a.h].task.id; Evolves(a, LimitOf(s, t), StageOf(s, t), StageOf(Apply(s, a), t))
  {
    hide PlacesOk, AllIdsOk, HoldersOk, QueuesOwned, CopiesKnown, SingleCopy, SuccessesOk, HoldersOwn, StageOf,
      TaskOk, Apply;
    OwnedStep(s, a);
    HeldStage(s, a.h);
    HeldPlace(s, a.h);
    HolderFits(s, a.h);
    CrashLeaves(s, a);
    var (s', q, id) := (Apply(s, a), s.holders[a.h].queue, s.holders[a.h].id);
    StageIs(s', q, InStream(id));
    forall h
      ensures !Holds(s', h, q, id)
    {
      if Holds(s', h, q, id) { SameMessage(s, a.h, h); }
    }
  }

  lemma SameMessage(s: Sys, h: nat, h': nat)
    requires HoldersOwn(s) && h in s.holders && h' in s.holders
    requires s.holders[h].queue == s.holders[h'].queue && s.holders[h].id == s.holders[h'].id
    ensures h == h'
  {
    assert Holds(s, h, s.holders[h].queue, s.holders[h].id) && Holds(s, h', s.holders[h].queue, s.holders[h].id);
  }

  /** The theorem: each step is a step of the automaton of its subject, and no step at all for any other task. */
  lemma StepEvolves(s: Sys, a: Action, t: string)
    requires Owned(s) && OwnedEnabled(s, a)
    ensures if Subject(s, a) == Some(t) then Evolves(a, LimitOf(Apply(s, a), t), StageOf(s, t), StageOf(Apply(s, a), t))
            else StageOf(Apply(s, a), t) == StageOf(s, t)
  {
    hide Apply, Owned, StageOf, Evolves, NewTask, EnqueueMove;
    AcceptedStep(s, a);
    if Subject(s, a) != Some(t) {
      OthersUnchanged(s, a, t);
    } else {
      match a
      case Enqueue(_, _) => EnqueueEvolves(s, a);
      case HandlerFail(_, _, _) => FailEvolves(s, a);
      case AckDone(_) => AckEvolves(s, a);
      case Gate(_, _, _, _) => HolderEvolves(s, a);
      case HandlerOk(_) => HolderEvolves(s, a);
      case Crash(_) => CrashEvolves(s, a);
      case Deliver(_, _, _, _) => HoldEvolves(s, a, t);
      case Redeliver(_, _, _, _) => HoldEvolves(s, a, t);
      case _ => MoveEvolves(s, a, t);
    }
  }
}
