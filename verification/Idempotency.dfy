/**
 What the processed keys mean. Under the rules of `Ownership` the gate never stops a task on its first
 delivery, not even after a redrive: it only stops a redelivery, after a crash past the gate.
 */
module Idempotency {
  import opened Wrappers
  import opened Tasks
  import opened Streams
  import opened Keys
  import opened Lifecycle
  import opened Places
  import opened Affinity
  import opened NoLoss
  import opened Ownership

  /** A place where a task can be although its processed key is set. */
  predicate MayBeProcessed(k: Queue, p: Place)
    requires Has(k, p)
  {
    !p.InScheduled? && (p.InStream? && TaskAt(k, p).RetryCount() == 0 ==> p.id < k.stream.cursor)
  }

  ghost predicate KeysOk(s: Sys)
  {
    forall q, p :: Has(s.db.At(q), p) && TaskAt(s.db.At(q), p).id in s.db.processed ==> MayBeProcessed(s.db.At(q), p)
  }

  /** Worker `h` has passed the gate with message `id` of queue `q`. */
  predicate PastGate(s: Sys, h: nat, q: string, id: nat)
  {
    Holds(s, h, q, id) && s.holders[h].phase in {Running, Succeeded}
  }

  /** Why the processed key of an attempt-0 message is set. */
  ghost predicate Explained(s: Sys, q: string, id: nat, t: string)
  {
    (exists h :: PastGate(s, h, q, id)) || t in s.crashed || t in s.succeeded
  }

  ghost predicate KeysExplained(s: Sys)
  {
    forall q, id: nat :: s.db.At(q).stream.HasTask(id) && s.db.At(q).stream.entries[id].task.RetryCount() == 0
      && s.db.At(q).stream.entries[id].task.id in s.db.processed
      ==> Explained(s, q, id, s.db.At(q).stream.entries[id].task.id)
  }

  predicate HolderKeysOk(s: Sys, holder: Holder)
  {
    && (holder.phase == Received && holder.first && holder.task.RetryCount() == 0 ==> holder.task.id !in s.db.processed)
    && (holder.phase == Skipping ==> !holder.first && (holder.task.id in s.crashed || holder.task.id in s.succeeded))
  }

  ghost predicate HoldersKeysOk(s: Sys)
  {
    forall h :: h in s.holders ==> HolderKeysOk(s, s.holders[h])
  }

  ghost predicate ProcessedKnown(s: Sys)
  {
    forall t :: t in s.db.processed ==> t in s.accepted
  }

  ghost predicate Idempotent(s: Sys)
  {
    Owned(s) && KeysOk(s) && KeysExplained(s) && HoldersKeysOk(s) && ProcessedKnown(s)
  }

  /** The message that a worker holds is the only place of its task. */
  lemma HeldPlace(s: Sys, h: nat)
    requires Owned(s) && h in s.holders
    ensures var (q, p) := (s.holders[h].queue, InStream(s.holders[h].id));
            Has(s.db.At(q), p) && SameAttempt(TaskAt(s.db.At(q), p), s.holders[h].task)
                && p.id < s.db.At(q).stream.cursor
            && s.holders[h].task.id in s.accepted
  {
    HolderFits(s, h);
    CopyKnown(s, s.holders[h].queue, InStream(s.holders[h].id));
  }

  lemma ProcessedGrows(s: Sys, a: Action)
    requires Enabled(s, a)
    ensures forall t :: t in Apply(s, a).db.processed && t !in s.db.processed ==>
              a.Gate? && s.holders[a.h].task.id == t && s.holders[a.h].task.RetryCount() == 0
              && a.h in Apply(s, a).holders && Apply(s, a).holders[a.h].phase == Running
    ensures a.Redrive? ==> a.task.id !in Apply(s, a).db.processed
  {
    hide Queue.Fail, Queue.Ack, Hold;
  }

  lemma ProcessedKnownStep(s: Sys, a: Action)
    requires Idempotent(s) && OwnedEnabled(s, a)
    ensures ProcessedKnown(Apply(s, a))
  {
    hide Apply, PlacesOk, AllIdsOk, HoldersOk, QueuesOwned, CopiesKnown, SingleCopy, SuccessesOk, HoldersOwn, KeysOk,
      KeysExplained, HoldersKeysOk, Accepts, NewTask;
    ProcessedGrows(s, a);
    AcceptedStep(s, a);
    if a.Gate? { HeldPlace(s, a.h); }
  }

  lemma KeysStep(s: Sys, a: Action)
    requires Idempotent(s) && OwnedEnabled(s, a)
    ensures KeysOk(Apply(s, a))
  {
    hide Apply, PlacesOk, AllIdsOk, HoldersOk, QueuesOwned, CopiesKnown, SingleCopy, SuccessesOk, HoldersOwn,
      KeysExplained, HoldersKeysOk, Accepts, NewTask,
         Has, TaskAt, MoveOf, Touched;
    var s' := Apply(s, a);
    StepMoves(s, a);
    MovedTask(s, a);
    AcceptedStep(s, a);
    ProcessedGrows(s, a);
    var (touched, m) := (Touched(s, a), MoveOf(s, a));
    forall q, p | Has(s'.db.At(q), p) && TaskAt(s'.db.At(q), p).id in s'.db.processed
      ensures MayBeProcessed(s'.db.At(q), p)
    {
      if q == touched && m.come.Some? && m.come.value.0 == p {
        ArrivalKeys(s, a);
      } else {
        if q == touched { assert MovesAt(s.db.At(q), s'.db.At(q), m, p); }
        assert Has(s.db.At(q), p) && TaskAt(s'.db.At(q), p) == TaskAt(s.db.At(q), p);
        StreamLater(s.db, s'.db, touched, m, q);
        if TaskAt(s.db.At(q), p).id !in s.db.processed {
          HeldPlace(s, a.h);
          OnePlace(s, q, p, s.holders[a.h].queue, InStream(s.holders[a.h].id));
        }
      }
    }
  }

  lemma ArrivalKeys(s: Sys, a: Action)
    requires Idempotent(s) && OwnedEnabled(s, a) && MoveOf(s, a).come.Some?
    ensures var (s', p) := (Apply(s, a), MoveOf(s, a).come.value.0);
            Has(s'.db.At(Touched(s, a)), p)
            && (TaskAt(s'.db.At(Touched(s, a)), p).id in s'.db.processed ==>
                  !p.InScheduled? && (p.InStream? ==> TaskAt(s'.db.At(Touched(s, a)), p).RetryCount() != 0))
  {
    hide Apply, Moves, PlacesOk, AllIdsOk, HoldersOk, QueuesOwned, CopiesKnown, SingleCopy, SuccessesOk, HoldersOwn,
      KeysExplained, HoldersKeysOk;
    var (q, m) := (Touched(s, a), MoveOf(s, a));
    StepMoves(s, a);
    Comes(s.db, Apply(s, a).db, q, m);
    ProcessedGrows(s, a);
    if Accepts(s, a) { AcceptedStep(s, a); }
    match a
    case PromoteScheduled(_, member) => assert Has(s.db.At(q), InScheduled(member));
    case PromoteRetry(_, member) => PlaceFits(s.db, q, InRetry(member));
    case _ =>
  }

  /** The same message is in the stream after the step, and it has just arrived or it was there before. */
  lemma MessageBefore(s: Sys, a: Action, q: string, id: nat)
    requires Idempotent(s) && OwnedEnabled(s, a) && Has(Apply(s, a).db.At(q), InStream(id))
    requires TaskAt(Apply(s, a).db.At(q), InStream(id)).RetryCount() == 0
    requires TaskAt(Apply(s, a).db.At(q), InStream(id)).id in Apply(s, a).db.processed
    ensures Has(s.db.At(q), InStream(id))
            && TaskAt(s.db.At(q), InStream(id)) == TaskAt(Apply(s, a).db.At(q), InStream(id))
    ensures q != Touched(s, a) || MoveOf(s, a).gone != Some(InStream(id))
  {
    hide Apply, Has, TaskAt, MoveOf, Touched, PlacesOk, AllIdsOk, HoldersOk, QueuesOwned, CopiesKnown, SingleCopy,
      SuccessesOk, HoldersOwn,
         KeysOk, KeysExplained, HoldersKeysOk, ProcessedKnown;
    StepMoves(s, a);
    var (touched, m) := (Touched(s, a), MoveOf(s, a));
    if q == touched {
      assert MovesAt(s.db.At(q), Apply(s, a).db.At(q), m, InStream(id));
      if m.come.Some? && m.come.value.0 == InStream(id) { ArrivalKeys(s, a); }
    }
  }

  /** A worker past the gate stays there, leaves a record, or takes its message away. */
  lemma PastGateStep(s: Sys, a: Action, h: nat, q: string, id: nat)
    requires Owned(s) && OwnedEnabled(s, a) && PastGate(s, h, q, id) && s.holders[h].task.RetryCount() == 0
    requires q != Touched(s, a) || MoveOf(s, a).gone != Some(InStream(id))
    ensures Explained(Apply(s, a), q, id, s.holders[h].task.id)
  {
    hide PlacesOk, AllIdsOk, HoldersOk, QueuesOwned, CopiesKnown, SingleCopy, SuccessesOk, HoldersOwn;
    HolderFits(s, h);
    if Actor(a) != Some(h) {
      OthersStay(s, a, h);
      hide Apply;
      assert PastGate(Apply(s, a), h, q, id);
    } else {
      if s.holders[h].phase == Succeeded { SuccessRecorded(s, h); }
      assert a.HandlerOk? ==> PastGate(Apply(s, a), h, q, id);
    }
  }

  lemma OneGate(s: Sys, h: nat, q: string, p: Place)
    requires Owned(s) && h in s.holders && Has(s.db.At(q), p) && TaskAt(s.db.At(q), p).id == s.holders[h].task.id
    ensures p == InStream(s.holders[h].id) && q == s.holders[h].queue
  {
    HeldPlace(s, h);
    OnePlace(s, q, p, s.holders[h].queue, InStream(s.holders[h].id));
  }

  lemma ExplainedStep(s: Sys, a: Action, q: string, id: nat)
    requires Idempotent(s) && OwnedEnabled(s, a) && Apply(s, a).db.At(q).stream.HasTask(id)
    requires var task := Apply(s, a).db.At(q).stream.entries[id].task;
             task.RetryCount() == 0 && task.id in Apply(s, a).db.processed
    ensures Explained(Apply(s, a), q, id, Apply(s, a).db.At(q).stream.entries[id].task.id)
  {
    hide Apply, PlacesOk, AllIdsOk, HoldersOk, QueuesOwned, CopiesKnown, SingleCopy, SuccessesOk, KeysOk,
      HoldersKeysOk, ProcessedKnown, MoveOf, Touched;
    MessageBefore(s, a, q, id);
    ProcessedGrows(s, a);
    RecordsGrow(s, a);
    var t := s.db.At(q).stream.entries[id].task.id;
    if t in s.db.processed {
      assert Explained(s, q, id, t);
      if h :| PastGate(s, h, q, id) {
        HolderFits(s, h);
        PastGateStep(s, a, h, q, id);
      }
    } else {
      OneGate(s, a.h, q, InStream(id));
      StepHolders(s, a, a.h);
      assert PastGate(Apply(s, a), a.h, q, id);
    }
  }

  lemma HolderKeysStep(s: Sys, a: Action, h: nat)
    requires Idempotent(s) && OwnedEnabled(s, a) && h in Apply(s, a).holders
    ensures HolderKeysOk(Apply(s, a), Apply(s, a).holders[h])
  {
    hide PlacesOk, AllIdsOk, HoldersOk, QueuesOwned, CopiesKnown, SingleCopy, SuccessesOk, HoldersOwn, KeysOk,
      KeysExplained, HoldersKeysOk, ProcessedKnown;
    RecordsGrow(s, a);
    ProcessedGrows(s, a);
    if h !in s.holders {
      NewHolderKeys(s, a, h);
    } else {
      HolderKeysFit(s, h);
      if Actor(a) != Some(h) {
        OthersStay(s, a, h);
        if a.Gate? && s.holders[a.h].task.id == s.holders[h].task.id { SameTaskSameHolder(s, h, a.h); }
      } else if a.Gate? {
        GateKeys(s, a);
      }
    }
  }

  lemma HolderKeysFit(s: Sys, h: nat)
    requires HoldersKeysOk(s) && h in s.holders
    ensures HolderKeysOk(s, s.holders[h])
  {
  }

  lemma SameTaskSameHolder(s: Sys, h: nat, h': nat)
    requires Owned(s) && h in s.holders && h' in s.holders && s.holders[h].task.id == s.holders[h'].task.id
    ensures h == h'
  {
    hide PlacesOk, AllIdsOk, HoldersOk, QueuesOwned, CopiesKnown, SingleCopy, SuccessesOk;
    HeldPlace(s, h);
    OneGate(s, h', s.holders[h].queue, InStream(s.holders[h].id));
    assert Holds(s, h, s.holders[h].queue, s.holders[h].id) && Holds(s, h', s.holders[h].queue, s.holders[h].id);
  }

  lemma NewHolderKeys(s: Sys, a: Action, h: nat)
    requires Idempotent(s) && OwnedEnabled(s, a) && h in Apply(s, a).holders && h !in s.holders
    ensures HolderKeysOk(Apply(s, a), Apply(s, a).holders[h])
  {
    hide PlacesOk, AllIdsOk, HoldersOk, QueuesOwned, CopiesKnown, SingleCopy, SuccessesOk, HoldersOwn, KeysExplained,
      HoldersKeysOk, ProcessedKnown,
         Keys.Enqueue, Keys.Redrive, Queue.Fail, Queue.Ack;
    if a.Deliver? && s.db.At(a.queue).stream.HasTask(a.id) {
      assert Has(s.db.At(a.queue), InStream(a.id));
    }
  }

  lemma GateKeys(s: Sys, a: Action)
    requires Idempotent(s) && OwnedEnabled(s, a) && a.Gate?
    ensures HolderKeysOk(Apply(s, a), Apply(s, a).holders[a.h])
  {
    hide PlacesOk, AllIdsOk, HoldersOk, QueuesOwned, CopiesKnown, SingleCopy, SuccessesOk, KeysOk, HoldersKeysOk,
      ProcessedKnown;
    HolderKeysFit(s, a.h);
    HeldPlace(s, a.h);
    var holder := s.holders[a.h];
    if holder.task.RetryCount() == 0 && holder.task.id in s.db.processed {
      assert Explained(s, holder.queue, holder.id, holder.task.id);
      forall h ensures !PastGate(s, h, holder.queue, holder.id) {
        if PastGate(s, h, holder.queue, holder.id) { HolderFits(s, h); SameTaskSameHolder(s, h, a.h); }
      }
    }
  }

  lemma IdempotentStep(s: Sys, a: Action)
    requires Idempotent(s) && OwnedEnabled(s, a)
    ensures Idempotent(Apply(s, a))
  {
    OwnedStep(s, a);
    KeysStep(s, a);
    ProcessedKnownStep(s, a);
    hide Apply, Owned, KeysOk, ProcessedKnown;
    var s' := Apply(s, a);
    forall h | h in s'.holders ensures HolderKeysOk(s', s'.holders[h]) { HolderKeysStep(s, a, h); }
    forall q, id: nat | s'.db.At(q).stream.HasTask(id) && s'.db.At(q).stream.entries[id].task.RetryCount() == 0
      && s'.db.At(q).stream.entries[id].task.id in s'.db.processed
      ensures Explained(s', q, id, s'.db.At(q).stream.entries[id].task.id)
    {
      ExplainedStep(s, a, q, id);
    }
  }

  lemma IdempotentAlways(s: Sys, actions: seq<Action>)
    requires Idempotent(s) && IsOwnedRun(s, actions)
    ensures IsRun(s, actions) && Idempotent(After(s, actions))
    decreases |actions|
  {
    if actions != [] {
      IdempotentStep(s, actions[0]);
      IdempotentAlways(Apply(s, actions[0]), actions[1..]);
    }
  }

  /**
   A message that nobody has received yet, and that has not failed since it was published or redriven, passes the
   gate.
   */
  lemma UndeliveredIsUnprocessed(actions: seq<Action>, q: string, id: nat)
    requires IsOwnedRun(INIT, actions)
    ensures IsRun(INIT, actions)
    ensures var s := After(INIT, actions); var stream := s.db.At(q).stream;
            stream.HasTask(id) && stream.cursor <= id && stream.entries[id].task.RetryCount() == 0
            ==> stream.entries[id].task.id !in s.db.processed
  {
    IdempotentAlways(INIT, actions);
    hide After, IsRun, IsOwnedRun;
    assert After(INIT, actions).db.At(q).stream.HasTask(id) ==> Has(After(INIT, actions).db.At(q), InStream(id));
  }

  /** The gate turns away redeliveries only, and only after a success or a crash of the same task. */
  lemma SkipsFollowACrash(actions: seq<Action>, h: nat)
    requires IsOwnedRun(INIT, actions)
    ensures IsRun(INIT, actions)
    ensures var s := After(INIT, actions);
            InPhase(s, h, {Skipping}) ==>
              !s.holders[h].first && (s.holders[h].task.id in s.crashed || s.holders[h].task.id in s.succeeded)
  {
    IdempotentAlways(INIT, actions);
    hide After, IsRun, IsOwnedRun, Owned;
  }
}
