/**
 No task that Enqueue accepted is ever lost, with any number of workers, crashes, expiring keys, duplicate
 publishes and claims that take messages from live owners. The one exception is recorded in `crashed`:
 a worker died while it ran attempt 0, after it had set the processed key.
 */
module NoLoss {
  import opened Wrappers
  import opened Tasks
  import opened Streams
  import opened Keys
  import opened Lifecycle
  import opened Places
  import opened Affinity

  predicate Copy(db: Db, t: string, q: string, p: Place)
  {
    Has(db.At(q), p) && TaskAt(db.At(q), p).id == t
  }

  /** A copy that has failed before. The idempotency check does not apply to it. */
  predicate FailedCopy(db: Db, t: string, q: string, p: Place)
  {
    Copy(db, t, q, p) && (p.InDlq? || p.InRetry? || (p.InStream? && TaskAt(db.At(q), p).RetryCount() != 0))
  }

  /** Some worker is about to acknowledge the message without a run. */
  ghost predicate Skipped(s: Sys, q: string, p: Place)
  {
    p.InStream? && exists h :: InPhase(s, h, {Skipping}) && s.holders[h].queue == q && s.holders[h].id == p.id
  }

  ghost predicate FreeCopy(s: Sys, t: string, q: string, p: Place)
  {
    Copy(s.db, t, q, p) && !Skipped(s, q, p)
  }

  /** Worker `h` runs attempt 0 of `t`. */
  predicate FirstRun(s: Sys, t: string, h: nat)
  {
    InPhase(s, h, {Running}) && s.holders[h].task.id == t && s.holders[h].task.RetryCount() == 0
  }

  /** Attempt 0 of `t` has begun, and its outcome is not lost. */
  ghost predicate Begun(s: Sys, t: string)
  {
    || t in s.succeeded
    || t in s.crashed
    || (exists h :: FirstRun(s, t, h))
    || (exists q, p :: FailedCopy(s.db, t, q, p))
  }

  ghost predicate Live(s: Sys, t: string)
  {
    Begun(s, t) || exists q, p :: FreeCopy(s, t, q, p)
  }

  ghost predicate SuccessesOk(s: Sys)
  {
    forall h :: InPhase(s, h, {Succeeded}) ==> s.holders[h].task.id in s.succeeded
  }

  ghost predicate Safe(s: Sys)
  {
    && Base(s) && SuccessesOk(s)
    && (forall t :: t in s.db.processed ==> Begun(s, t))
    && (forall t :: t in s.accepted ==> Live(s, t))
  }

  /** handleFailure leaves a failed copy behind. */
  lemma FailureIsFailedCopy(s: Sys, h: nat, err: string, score: int)
    requires Base(s) && InPhase(s, h, {Running})
    ensures exists q, p :: FailedCopy(Apply(s, HandlerFail(h, err, score)).db, s.holders[h].task.id, q, p)
  {
    var a := HandlerFail(h, err, score);
    StepMoves(s, a);
    Comes(s.db, Apply(s, a).db, Touched(s, a), MoveOf(s, a));
    hide Apply;
    var (p, task) := MoveOf(s, a).come.value;
    assert task.id == s.holders[h].task.id;
    assert FailedCopy(Apply(s, a).db, task.id, Touched(s, a), p);
  }

  lemma SuccessRecorded(s: Sys, h: nat)
    requires SuccessesOk(s) && h in s.holders && s.holders[h].phase == Succeeded
    ensures s.holders[h].task.id in s.succeeded
  {
    assert InPhase(s, h, {Succeeded});
  }

  /** A failed copy is replaced by another one, or its task has succeeded, or it is redriven. */
  lemma FailedCopyStep(s: Sys, a: Action, t: string, q: string, p: Place)
    requires Base(s) && SuccessesOk(s) && Enabled(s, a) && FailedCopy(s.db, t, q, p)
    requires !(a.Redrive? && a.queue == q && p == InDlq(a.id))
    ensures Begun(Apply(s, a), t)
  {
    hide Apply, Moves, FailMove, PlacesOk, HoldersOk, AllIdsOk, SuccessesOk;
    var s' := Apply(s, a);
    StepMoves(s, a);
    RecordsGrow(s, a);
    if q != Touched(s, a) || MoveOf(s, a).gone != Some(p) {
      hide MoveOf, Touched;
      Stays(s.db, s'.db, Touched(s, a), MoveOf(s, a), q, p);
      assert FailedCopy(s'.db, t, q, p);
    } else {
      PlaceFits(s.db, q, p);
      match a
      case PromoteRetry(_, member) =>
        Comes(s.db, s'.db, q, MoveOf(s, a));
        assert FailedCopy(s'.db, t, q, MoveOf(s, a).come.value.0);
      case HandlerFail(h, err, score) =>
        HolderFits(s, h);
        FailGone(s, h, err, score);
        FailureIsFailedCopy(s, h, err, score);
      case AckDone(h) =>
        HolderFits(s, h);
        assert s.holders[h].phase == Succeeded;
        SuccessRecorded(s, h);
    }
  }

  /** handleFailure takes the message away that the worker received, which carries the same task. */
  lemma FailGone(s: Sys, h: nat, err: string, score: int)
    requires Base(s) && InPhase(s, h, {Running})
    ensures var m := MoveOf(s, HandlerFail(h, err, score));
            m.gone == Some(InStream(s.holders[h].id))
            && (Has(s.db.At(s.holders[h].queue), m.gone.value) ==>
                  TaskAt(s.db.At(s.holders[h].queue), m.gone.value).id == s.holders[h].task.id)
  {
    assert HolderOk(s.db, s.holders[h]);
  }

  lemma RecordsGrow(s: Sys, a: Action)
    requires Enabled(s, a)
    ensures s.succeeded <= Apply(s, a).succeeded && s.crashed <= Apply(s, a).crashed
    ensures s.accepted.Keys <= Apply(s, a).accepted.Keys
  {
    hide Keys.Enqueue, Keys.Redrive, Queue.Fail, Queue.Ack, Hold;
  }

  /** A first attempt goes on, succeeds, fails into a failed copy, or crashes on the record. */
  lemma FirstRunStep(s: Sys, a: Action, t: string, h: nat)
    requires Base(s) && Enabled(s, a) && FirstRun(s, t, h)
    ensures Begun(Apply(s, a), t)
  {
    if Actor(a) == Some(h) {
      match a
      case HandlerFail(_, err, score) => FailureIsFailedCopy(s, h, err, score);
      case _ =>
    } else {
      OthersStay(s, a, h);
      hide Apply;
      assert FirstRun(Apply(s, a), t, h);
    }
  }

  /** The message of a redriven task is new, so nobody is skipping it. */
  lemma NewMessageIsFree(s: Sys, a: Action)
    requires Base(s) && Enabled(s, a) && MoveOf(s, a).come.Some?
    ensures var (p, task) := MoveOf(s, a).come.value; FreeCopy(Apply(s, a), task.id, Touched(s, a), p)
  {
    var s' := Apply(s, a);
    StepMoves(s, a);
    Comes(s.db, s'.db, Touched(s, a), MoveOf(s, a));
    var q, p := Touched(s, a), MoveOf(s, a).come.value.0;
    hide Apply, MoveOf, Touched;
    forall h | h in s'.holders && s'.holders[h].queue == q
      ensures s'.holders[h].id < s.db.At(q).stream.next
    {
      StepHolders(s, a, h);
      assert IdsOk(s.db.At(q));
      if h in s.holders { assert HolderOk(s.db, s.holders[h]); }
    }
  }

  /** A redrive that takes the copy of a task away deletes its processed key and brings a message of the same task. */
  lemma RedriveReopens(s: Sys, a: Action, t: string)
    requires Base(s) && Enabled(s, a) && a.Redrive? && Copy(s.db, t, a.queue, InDlq(a.id))
    ensures t !in Apply(s, a).db.processed
    ensures Touched(s, a) == a.queue && MoveOf(s, a).come.Some? && MoveOf(s, a).come.value.1.id == t
  {
    RedriveFinds(s, a);
  }

  /** Once begun, a task stays begun, or else it is back on its queue as an untouched message. */
  lemma BegunStep(s: Sys, a: Action, t: string)
    requires Base(s) && SuccessesOk(s) && Enabled(s, a) && Begun(s, t)
    ensures Begun(Apply(s, a), t) || (t !in Apply(s, a).db.processed && Live(Apply(s, a), t))
  {
    RecordsGrow(s, a);
    hide Apply, Base, SuccessesOk, Moves, Copy;
    if t in s.succeeded || t in s.crashed {
    } else if h :| FirstRun(s, t, h) {
      FirstRunStep(s, a, t, h);
    } else {
      var q, p :| FailedCopy(s.db, t, q, p);
      if a.Redrive? && a.queue == q && p == InDlq(a.id) {
        RedriveReopens(s, a, t);
        NewMessageIsFree(s, a);
      } else {
        FailedCopyStep(s, a, t, q, p);
      }
    }
  }

  lemma ProcessedStep(s: Sys, a: Action, t: string)
    requires Safe(s) && Enabled(s, a) && t in Apply(s, a).db.processed
    ensures Begun(Apply(s, a), t)
  {
    if t in s.db.processed {
      BegunStep(s, a, t);
    } else {
      assert a.Gate? && FirstRun(Apply(s, a), t, a.h);
    }
  }

  /** A message gets skipped only because its processed key is set. */
  lemma GateSkips(s: Sys, a: Action, t: string, q: string, p: Place)
    requires Base(s) && Enabled(s, a) && FreeCopy(s, t, q, p) && Skipped(Apply(s, a), q, p)
    ensures a.Gate? && t in s.db.processed && t in Apply(s, a).db.processed
  {
    hide PlacesOk, HoldersOk, AllIdsOk, SuccessesOk, Keys.Enqueue, Keys.Redrive, Queue.Fail, Queue.Ack;
    var s' := Apply(s, a);
    var h :| InPhase(s', h, {Skipping}) && s'.holders[h].queue == q && s'.holders[h].id == p.id;
    StepHolders(s, a, h);
    HolderFits(s, h);
    assert !InPhase(s, h, {Skipping});
    if Actor(a) != Some(h) {
      OthersStay(s, a, h);
    }
  }

  /** An untouched copy stays, or its task begins, or it is promoted to another untouched copy. */
  lemma FreeCopyStep(s: Sys, a: Action, t: string, q: string, p: Place)
    requires Safe(s) && Enabled(s, a) && FreeCopy(s, t, q, p)
    ensures Live(Apply(s, a), t)
  {
    hide Apply, Moves, FailMove, PlacesOk, HoldersOk, AllIdsOk, SuccessesOk;
    var s' := Apply(s, a);
    StepMoves(s, a);
    RecordsGrow(s, a);
    if FailedCopy(s.db, t, q, p) {
      BegunStep(s, a, t);
    } else if q != Touched(s, a) || MoveOf(s, a).gone != Some(p) {
      hide MoveOf, Touched;
      Stays(s.db, s'.db, Touched(s, a), MoveOf(s, a), q, p);
      if Skipped(s', q, p) {
        GateSkips(s, a, t, q, p);
        BegunStep(s, a, t);
      } else {
        assert FreeCopy(s', t, q, p);
      }
    } else {
      match a
      case PromoteScheduled(_, _) => NewMessageIsFree(s, a);
      case HandlerFail(h, err, score) =>
        HolderFits(s, h);
        FailGone(s, h, err, score);
        FailureIsFailedCopy(s, h, err, score);
      case AckDone(h) =>
        HolderFits(s, h);
        assert s.holders[h].phase == Succeeded;
        SuccessRecorded(s, h);
    }
  }

  /** Every task that Enqueue newly accepts is put into a place. */
  lemma AcceptedComes(s: Sys, a: Action, t: string)
    requires Enabled(s, a) && t in Apply(s, a).accepted && t !in s.accepted
    ensures a.Enqueue? && MoveOf(s, a).come.Some? && MoveOf(s, a).come.value.1.id == t
  {
    hide Keys.Redrive, Queue.Fail, Queue.Ack, Hold, PassGate;
  }

  lemma SuccessesStep(s: Sys, a: Action)
    requires Base(s) && SuccessesOk(s) && Enabled(s, a)
    ensures SuccessesOk(Apply(s, a))
  {
    RecordsGrow(s, a);
    forall h | InPhase(Apply(s, a), h, {Succeeded}) ensures Apply(s, a).holders[h].task.id in Apply(s, a).succeeded {
      StepHolders(s, a, h);
      if Actor(a) != Some(h) && h in s.holders {
        OthersStay(s, a, h);
        assert InPhase(s, h, {Succeeded});
      }
    }
  }

  lemma SafeStep(s: Sys, a: Action)
    requires Safe(s) && Enabled(s, a)
    ensures Safe(Apply(s, a))
  {
    var s' := Apply(s, a);
    BaseStep(s, a);
    SuccessesStep(s, a);
    hide Apply, MoveOf, Touched, Base;
    forall t | t in s'.db.processed ensures Begun(s', t) { ProcessedStep(s, a, t); }
    forall t | t in s'.accepted ensures Live(s', t) {
      if t !in s.accepted {
        AcceptedComes(s, a, t);
        NewMessageIsFree(s, a);
      } else if Begun(s, t) {
        BegunStep(s, a, t);
      } else {
        var q, p :| FreeCopy(s, t, q, p);
        FreeCopyStep(s, a, t, q, p);
      }
    }
  }

  lemma SafeAlways(s: Sys, actions: seq<Action>)
    requires Safe(s) && IsRun(s, actions)
    ensures Safe(After(s, actions))
    decreases |actions|
  {
    if actions != [] {
      SafeStep(s, actions[0]);
      SafeAlways(Apply(s, actions[0]), actions[1..]);
    }
  }

  /** The theorem on queue affinity and the retry budget: it holds of every copy of a task in every reachable state. */
  lemma EveryPlaceFits(actions: seq<Action>, q: string, p: Place)
    requires IsRun(INIT, actions) && Has(After(INIT, actions).db.At(q), p)
    ensures var s := After(INIT, actions);
            var task := TaskAt(s.db.At(q), p);
            task.Queue() == q && q in s.db.known && Budget(p, task.RetryCount(), task.RetryLimit())
  {
    SafeAlways(INIT, actions);
    hide After, IsRun;
    PlaceFits(After(INIT, actions).db, q, p);
  }

  /** The theorem, without the bookkeeping of the proof. */
  lemma {:induction false} NothingIsLost(actions: seq<Action>, t: string)
    requires IsRun(INIT, actions) && t in After(INIT, actions).accepted
    ensures var s := After(INIT, actions);
            || (exists q, p :: Copy(s.db, t, q, p))
            || (exists h :: FirstRun(s, t, h))
            || t in s.succeeded
            || t in s.crashed
  {
    SafeAlways(INIT, actions);
    assert Live(After(INIT, actions), t);
  }
}
