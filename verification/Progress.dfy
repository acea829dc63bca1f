/**
 Every task comes to an end: the work that is left strictly decreases, the system is never stuck while a
 task is unfinished, and the number of handler runs is bounded by the retry limit.
 */
module Progress {
  import opened Wrappers
  import opened Tasks
  import opened Streams
  import opened Keys
  import opened Lifecycle
  import opened Places
  import opened Affinity
  import opened NoLoss
  import opened Ownership
  import opened Idempotency
  import opened Stages
  import opened Sets

  /** Four units for every attempt that is left, and the steps to the end of this one. */
  function Weight(limit: int, stage: Stage): int
  {
    match stage
    case InSet(count) => 4 * (limit - count) + 5
    case Queued(count) => 4 * (limit - count) + 4
    case Orphaned(count) => 4 * (limit - count) + 4
    case Waiting(count) => 4 * (limit - count) + 3
    case Handling(count) => 4 * (limit - count) + 2
    case Handled(_) => 1
    case TurnedAway => 1
    case _ => 0
  }

  predicate Counts(stage: Stage)
  {
    stage.InSet? || stage.Queued? || stage.Orphaned? || stage.Waiting? || stage.Handling? || stage.Handled?
  }

  predicate IsOver(stage: Stage)
  {
    stage.Absent? || stage.Buried? || stage.Done?
  }

  ghost function WeightOf(s: Sys, t: string): int
  {
    Weight(LimitOf(s, t), StageOf(s, t))
  }

  lemma StageAtBounded(s: Sys, q: string, p: Place)
    requires Owned(s) && Has(s.db.At(q), p)
    ensures Counts(StageAt(s, q, p)) ==> 0 <= StageAt(s, q, p).count < TaskAt(s.db.At(q), p).RetryLimit()
    ensures !StageAt(s, q, p).Absent?
  {
    hide PlacesOk, AllIdsOk, HoldersOk, QueuesOwned, CopiesKnown, SingleCopy, SuccessesOk;
    PlaceFits(s.db, q, p);
    if p.InStream? && p.id < s.db.At(q).stream.cursor {
      if h: nat :| Holds(s, h, q, p.id) {
        HeldPlace(s, h);
        HeldStageAt(s, h);
      }
    }
  }

  /** The failure count of an unfinished task is below its limit. */
  lemma StageBounded(s: Sys, t: string)
    requires Owned(s)
    ensures Counts(StageOf(s, t)) ==> 0 <= StageOf(s, t).count < LimitOf(s, t)
    ensures WeightOf(s, t) >= 0
    ensures !IsOver(StageOf(s, t)) ==> WeightOf(s, t) > 0
  {
    hide StageAt, Has, TaskAt, PlacesOk, AllIdsOk, HoldersOk, QueuesOwned, CopiesKnown, SingleCopy, SuccessesOk,
      HoldersOwn;
    if t in s.accepted {
      if q, p :| Copy(s.db, t, q, p) {
        CopyStage(s, t, q, p);
        CopyKnown(s, q, p);
        StageAtBounded(s, q, p);
      }
    }
  }

  ghost function Sum(s: Sys, ids: set<string>): int
  {
    if ids == {} then 0 else var t :| t in ids; WeightOf(s, t) + Sum(s, ids - {t})
  }

  /** The work that is left in the whole system. */
  ghost function Work(s: Sys): int
  {
    Sum(s, s.accepted.Keys)
  }

  lemma {:induction false} SumSplit(s: Sys, ids: set<string>, t: string)
    requires t in ids
    ensures Sum(s, ids) == WeightOf(s, t) + Sum(s, ids - {t})
  {
    hide WeightOf;
    var first :| first in ids && Sum(s, ids) == WeightOf(s, first) + Sum(s, ids - {first});
    if first != t {
      SumSplit(s, ids - {first}, t);
      SumSplit(s, ids - {t}, first);
      assert ids - {first} - {t} == ids - {t} - {first};
    }
  }

  lemma {:induction false} SumSame(s: Sys, s': Sys, ids: set<string>)
    requires forall t :: t in ids ==> WeightOf(s', t) == WeightOf(s, t)
    ensures Sum(s', ids) == Sum(s, ids)
  {
    hide WeightOf;
    if ids != {} {
      var t :| t in ids;
      SumSplit(s, ids, t);
      SumSplit(s', ids, t);
      SumSame(s, s', ids - {t});
    }
  }

  lemma {:induction false} SumNonNegative(s: Sys, ids: set<string>)
    requires Owned(s)
    ensures Sum(s, ids) >= 0
  {
    if ids != {} {
      hide Owned, WeightOf;
      var t :| t in ids && Sum(s, ids) == WeightOf(s, t) + Sum(s, ids - {t});
      StageBounded(s, t);
      SumNonNegative(s, ids - {t});
    }
  }

  /** The step carries a task on: promotion, delivery, the gate, the handler's outcome, the acknowledgement. */
  ghost predicate Advances(s: Sys, a: Action)
  {
    Enabled(s, a) && Subject(s, a).Some? && !a.Enqueue? && !a.Crash? && !a.Redrive?
  }

  /** The step neither brings a task in nor sets one back. */
  ghost predicate Undisturbed(s: Sys, a: Action)
  {
    Enabled(s, a) && !Accepts(s, a) && !a.Crash? && !a.Redrive?
  }

  lemma WorkStep(s: Sys, a: Action)
    requires Owned(s) && OwnedEnabled(s, a) && Undisturbed(s, a)
    ensures if Advances(s, a) then Work(Apply(s, a)) < Work(s) else Work(Apply(s, a)) == Work(s)
  {
    hide Owned, Apply, Accepts, NewTask, StageOf, Subject;
    var s' := Apply(s, a);
    AcceptedStep(s, a);
    var ids := s.accepted.Keys;
    forall t | Subject(s, a) != Some(t) ensures WeightOf(s', t) == WeightOf(s, t) { StepEvolves(s, a, t); }
    if Advances(s, a) {
      var t := Subject(s, a).value;
      StepEvolves(s, a, t);
      StageBounded(s, t);
      AcceptedWhenStaged(s, t);
      SumSplit(s, ids, t);
      SumSplit(s', ids, t);
      SumSame(s, s', ids - {t});
    } else {
      NoSubject(s, a);
      SumSame(s, s', ids);
    }
  }

  lemma AcceptedWhenStaged(s: Sys, t: string)
    ensures !StageOf(s, t).Absent? ==> t in s.accepted
  {
    hide StageAt;
  }

  lemma NoSubject(s: Sys, a: Action)
    requires Undisturbed(s, a) && !Advances(s, a)
    ensures Subject(s, a).None?
  {
  }

  ghost predicate IsUndisturbedRun(s: Sys, actions: seq<Action>)
    decreases |actions|
  {
    actions == [] ||
    (OwnedEnabled(s, actions[0]) && Undisturbed(s, actions[0]) && IsUndisturbedRun(Apply(s, actions[0]), actions[1..]))
  }

  ghost function Advancing(s: Sys, actions: seq<Action>): nat
    requires IsUndisturbedRun(s, actions)
    decreases |actions|
  {
    if actions == [] then 0
    else (if Advances(s, actions[0]) then 1 else 0) + Advancing(Apply(s, actions[0]), actions[1..])
  }

  /**
   The theorem on termination: a run without new tasks, crashes and redrives has at most `Work(s)` steps that carry a
   task on.
   */
  lemma {:induction false} RunsEnd(s: Sys, actions: seq<Action>)
    requires Owned(s) && IsUndisturbedRun(s, actions)
    ensures Advancing(s, actions) <= Work(s)
    decreases |actions|
  {
    hide Owned, Apply, Undisturbed, Advances, Work;
    if actions != [] {
      OwnedStep(s, actions[0]);
      WorkStep(s, actions[0]);
      RunsEnd(Apply(s, actions[0]), actions[1..]);
    } else {
      WorkNonNegative(s);
    }
  }

  lemma WorkNonNegative(s: Sys)
    requires Owned(s)
    ensures Work(s) >= 0
  {
    SumNonNegative(s, s.accepted.Keys);
  }

  /** The step hands out a message that carries no task. */
  ghost predicate SkipsJunk(s: Sys, a: Action)
  {
    a.Deliver? && s.db.At(a.queue).stream.IsNext(a.id) && !s.db.At(a.queue).stream.HasTask(a.id)
  }

  ghost predicate CarriesOn(s: Sys, a: Action)
  {
    OwnedEnabled(s, a) && (Advances(s, a) || SkipsJunk(s, a))
  }

  lemma {:induction false} SomeUndelivered(stream: Stream, id: nat)
    requires id in stream.entries && stream.cursor <= id
    ensures exists first: nat :: stream.IsNext(first)
    decreases id
  {
    if other: nat :| other in stream.entries && stream.cursor <= other && other < id {
      SomeUndelivered(stream, other);
    } else {
      assert stream.IsNext(id);
    }
  }

  lemma {:induction false} UnusedAbove(keys: set<nat>) returns (bound: nat)
    ensures forall k :: k in keys ==> k < bound
  {
    if keys == {} {
      bound := 0;
    } else {
      var k :| k in keys;
      var rest := UnusedAbove(keys - {k});
      bound := if k < rest then rest else k + 1;
      forall k' | k' in keys ensures k' < bound { assert k' == k || k' in keys - {k}; }
    }
  }

  /** A task in a sorted set can be promoted, an undelivered one delivered, and so on. */
  lemma CanAdvanceAt(s: Sys, q: string, p: Place)
    requires Owned(s) && Has(s.db.At(q), p) && !p.InDlq?
    ensures exists a :: CarriesOn(s, a)
  {
    hide AllIdsOk, PlacesOk, HoldersOk, CopiesKnown, SingleCopy, SuccessesOk, HoldersOwn, Queue.Fail, Keys.Enqueue;
    PlaceFits(s.db, q, p);
    assert QueueOwned(s.db.At(q));
    var h := UnusedAbove(s.holders.Keys);
    match p
    case InScheduled(member) => assert CarriesOn(s, PromoteScheduled(q, member));
    case InRetry(member) => assert CarriesOn(s, PromoteRetry(q, member));
    case InStream(id) =>
      var stream := s.db.At(q).stream;
      if stream.cursor <= id {
        SomeUndelivered(stream, id);
        var first: nat :| stream.IsNext(first);
        assert CarriesOn(s, Deliver(q, first, "", h));
      } else if holder: nat :| Holds(s, holder, q, id) {
        HolderCanAdvance(s, holder);
      } else {
        assert CarriesOn(s, Redeliver(q, id, "", h));
      }
  }

  lemma HolderCanAdvance(s: Sys, h: nat)
    requires h in s.holders
    ensures exists a :: CarriesOn(s, a)
  {
    match s.holders[h].phase
    case Received => assert CarriesOn(s, Gate(h, Replied, 0, ""));
    case Running => assert CarriesOn(s, HandlerOk(h));
    case _ => assert CarriesOn(s, AckDone(h));
  }

  /**
   The theorem on deadlock: as long as some task is neither done nor dead, some task can be carried on, or a
   message without a task can be got out of its way.
   */
  lemma NeverStuck(s: Sys, t: string)
    requires Owned(s) && !IsOver(StageOf(s, t))
    ensures exists a :: CarriesOn(s, a)
  {
    hide Owned, StageAt, OwnedEnabled, Advances;
    var q, p :| Copy(s.db, t, q, p);
    CopyStage(s, t, q, p);
    if p.InDlq? { DeadIsSettled(s, q, p); }
    CanAdvanceAt(s, q, p);
  }

  lemma DeadIsSettled(s: Sys, q: string, p: Place)
    requires Has(s.db.At(q), p) && p.InDlq?
    ensures StageAt(s, q, p) == Buried
  {
  }

  /** The messages without a task that are still to be handed out. */
  ghost function Junks(db: Db): set<(string, nat)>
  {
    set q, id | q in db.queues && id in db.queues[q].stream.entries && IsJunk(db, q, id) :: (q, id)
  }

  predicate IsJunk(db: Db, q: string, id: nat)
  {
    var stream := db.At(q).stream;
    id in stream.entries && !stream.entries[id].Data? && stream.cursor <= id
  }

  lemma JunksAre(db: Db, q: string, id: nat)
    ensures (q, id) in Junks(db) <==> IsJunk(db, q, id)
  {
  }

  /** The only step that brings in messages without a task is a publish of somebody else. */
  lemma JunkStep(s: Sys, a: Action, q: string, id: nat)
    requires Enabled(s, a) && !a.PublishJunk? && IdsOk(s.db.At(q)) && IsJunk(Apply(s, a).db, q, id)
    ensures IsJunk(s.db, q, id) && !(a.Deliver? && a.queue == q && a.id == id)
  {
    StepQueue(s, a, q);
    hide Apply;
    if q == Touched(s, a) { JunkAtTouched(s, a, id); }
  }

  lemma JunkAtTouched(s: Sys, a: Action, id: nat)
    requires Enabled(s, a) && !a.PublishJunk? && IdsOk(s.db.At(Touched(s, a)))
    requires var stream := QueueAfter(s, a).stream;
             id in stream.entries && !stream.entries[id].Data? && stream.cursor <= id
    ensures IsJunk(s.db, Touched(s, a), id) && !(a.Deliver? && a.id == id)
  {
    hide Task.Meta, Task.WithState, Task.RetryCount, Task.RetryLimit, Task.Redriven, Task.Failed, Task.Queue;
  }

  lemma JunksShrink(db: Db, db': Db)
    requires forall q, id :: IsJunk(db', q, id) ==> IsJunk(db, q, id)
    ensures Junks(db') <= Junks(db)
  {
  }

  lemma JunksStep(s: Sys, a: Action)
    requires Owned(s) && OwnedEnabled(s, a) && !a.PublishJunk?
    ensures Junks(Apply(s, a).db) <= Junks(s.db)
    ensures SkipsJunk(s, a) ==> Junks(Apply(s, a).db) < Junks(s.db)
  {
    hide Apply, Junks, Enabled, IsJunk;
    forall q, id | IsJunk(Apply(s, a).db, q, id)
      ensures IsJunk(s.db, q, id) && !(a.Deliver? && a.queue == q && a.id == id)
    {
      QueueIsOk(s, q);
      JunkStep(s, a, q, id);
    }
    JunksShrink(s.db, Apply(s, a).db);
    if SkipsJunk(s, a) {
      SkippedIsJunk(s, a);
      JunksAre(s.db, a.queue, a.id);
      JunksAre(Apply(s, a).db, a.queue, a.id);
    }
  }

  lemma SkippedIsJunk(s: Sys, a: Action)
    requires SkipsJunk(s, a)
    ensures IsJunk(s.db, a.queue, a.id)
  {
  }

  lemma QueueIsOk(s: Sys, q: string)
    requires Owned(s)
    ensures IdsOk(s.db.At(q))
  {
  }

  /** What is left to do: the work on the tasks, and the messages that are in its way. */
  ghost function Left(s: Sys): int
  {
    Work(s) + |Junks(s.db)|
  }

  /** Nobody enqueues, publishes, crashes or redrives. */
  ghost predicate Calm(s: Sys, a: Action)
  {
    OwnedEnabled(s, a) && Undisturbed(s, a) && !a.PublishJunk?
  }

  lemma CalmIsEnabled(s: Sys, a: Action)
    requires Calm(s, a)
    ensures OwnedEnabled(s, a) && Enabled(s, a)
  {
  }

  lemma LeftStep(s: Sys, a: Action)
    requires Owned(s) && Calm(s, a)
    ensures if CarriesOn(s, a) then Left(Apply(s, a)) < Left(s) else Left(Apply(s, a)) <= Left(s)
  {
    hide Owned, Apply, Undisturbed, Advances, SkipsJunk, Work, Junks, Enabled;
    WorkStep(s, a);
    JunksStep(s, a);
    SubsetSize(Junks(Apply(s, a).db), Junks(s.db));
  }

  ghost predicate IsCalmRun(s: Sys, actions: seq<Action>)
    decreases |actions|
  {
    actions == [] || (Calm(s, actions[0]) && IsCalmRun(Apply(s, actions[0]), actions[1..]))
  }

  ghost function StepsOn(s: Sys, actions: seq<Action>): nat
    requires IsCalmRun(s, actions)
    decreases |actions|
  {
    if actions == [] then 0
    else (if CarriesOn(s, actions[0]) then 1 else 0) + StepsOn(Apply(s, actions[0]), actions[1..])
  }

  /** The theorem on termination: once it is calm, only so many steps carry on with anything. */
  lemma {:induction false} CalmRunsEnd(s: Sys, actions: seq<Action>)
    requires Owned(s) && IsCalmRun(s, actions)
    ensures StepsOn(s, actions) <= Left(s)
    decreases |actions|
  {
    hide Owned, Apply, Calm, CarriesOn, Work;
    if actions != [] {
      CalmIsEnabled(s, actions[0]);
      OwnedStep(s, actions[0]);
      LeftStep(s, actions[0]);
      CalmRunsEnd(Apply(s, actions[0]), actions[1..]);
    } else {
      WorkNonNegative(s);
    }
  }

  /** The theorem on the end: when no step carries on with anything, every accepted task is done or dead. */
  lemma AtRestAllIsOver(s: Sys, t: string)
    requires Owned(s) && t in s.accepted && forall a :: !CarriesOn(s, a)
    ensures StageOf(s, t).Done? || StageOf(s, t).Buried?
  {
    hide Owned, CarriesOn, StageOf;
    if !IsOver(StageOf(s, t)) { NeverStuck(s, t); }
    AcceptedIsStaged(s, t);
  }

  lemma AcceptedIsStaged(s: Sys, t: string)
    requires Owned(s) && t in s.accepted
    ensures !StageOf(s, t).Absent?
  {
    hide Owned, StageAt, Has, TaskAt;
    if q, p :| Copy(s.db, t, q, p) {
      CopyStage(s, t, q, p);
      StageAtBounded(s, q, p);
    }
  }

  lemma CarryingOnIsCalm(s: Sys, a: Action)
    requires CarriesOn(s, a)
    ensures Calm(s, a)
  {
  }

  /** The theorem on completion: from every state that owned runs reach, a calm run leads to the end of every task. */
  lemma {:induction false} CanComplete(s: Sys) returns (actions: seq<Action>)
    requires Owned(s)
    ensures IsCalmRun(s, actions) && IsRun(s, actions) && |actions| <= Left(s)
    ensures forall t :: t in After(s, actions).accepted ==>
              StageOf(After(s, actions), t).Done? || StageOf(After(s, actions), t).Buried?
    decreases Left(s)
  {
    hide Owned, Apply, Calm, CarriesOn, StageOf, Work, Enabled;
    WorkNonNegative(s);
    if a :| CarriesOn(s, a) {
      CarryingOnIsCalm(s, a);
      CalmIsEnabled(s, a);
      OwnedStep(s, a);
      LeftStep(s, a);
      var rest := CanComplete(Apply(s, a));
      actions := [a] + rest;
      assert actions[1..] == rest;
    } else {
      actions := [];
      forall t | t in s.accepted
        ensures StageOf(s, t).Done? || StageOf(s, t).Buried?
      {
        AtRestAllIsOver(s, t);
      }
    }
  }

  /** The step starts the handler on task `t`. */
  ghost predicate StartsHandler(s: Sys, a: Action, t: string)
    requires Enabled(s, a)
  {
    a.Gate? && s.holders[a.h].task.id == t && Apply(s, a).holders[a.h].phase == Running
  }

  /** The handler runs that a task in this stage still has before it, if nothing crashes and nobody redrives it. */
  function RunsLeft(limit: int, stage: Stage): int
  {
    match stage
    case Absent => limit
    case InSet(count) => limit - count
    case Queued(count) => limit - count
    case Orphaned(count) => limit - count
    case Waiting(count) => limit - count
    case Handling(count) => limit - count - 1
    case Handled(count) => limit - count - 1
    case TurnedAway => limit
    case _ => 0
  }

  ghost function HandlerRuns(s: Sys, actions: seq<Action>, t: string): nat
    requires IsRun(s, actions)
    decreases |actions|
  {
    if actions == [] then 0
    else (if StartsHandler(s, actions[0], t) then 1 else 0) + HandlerRuns(Apply(s, actions[0]), actions[1..], t)
  }

  /** How often a worker crashes while it holds `t`, and how often `t` is redriven. */
  ghost function Setbacks(s: Sys, actions: seq<Action>, t: string, crashes: bool): nat
    requires IsRun(s, actions)
    decreases |actions|
  {
    if actions == [] then 0
    else
      var here := Subject(s, actions[0]) == Some(t) && if crashes then actions[0].Crash? else actions[0].Redrive?;
      (if here then 1 else 0) + Setbacks(Apply(s, actions[0]), actions[1..], t, crashes)
  }

  lemma OwnedRunIsRun(s: Sys, actions: seq<Action>)
    requires IsOwnedRun(s, actions)
    ensures IsRun(s, actions)
    decreases |actions|
  {
    if actions != [] { OwnedRunIsRun(Apply(s, actions[0]), actions[1..]); }
  }

  lemma RunsLeftStep(s: Sys, a: Action, t: string, limit: int)
    requires Owned(s) && OwnedEnabled(s, a) && 0 <= limit
    requires t in Apply(s, a).accepted ==> limit == LimitOf(Apply(s, a), t)
    ensures RunsLeft(limit, StageOf(Apply(s, a), t)) + (if StartsHandler(s, a, t) then 1 else 0)
            <= RunsLeft(limit, StageOf(s, t)) + (if Subject(s, a) == Some(t) && a.Crash? then 1 else 0)
               + (if Subject(s, a) == Some(t) && a.Redrive? then limit else 0)
  {
    hide Owned, Apply, StageOf, LimitOf, WeightOf;
    StepEvolves(s, a, t);
    AcceptedWhenStaged(Apply(s, a), t);
    AcceptedWhenStaged(s, t);
    LimitStays(s, a, t);
    StageBounded(s, t);
    if Subject(s, a) == Some(t) && a.Gate? { GateStage(s, a); }
  }

  lemma GateStage(s: Sys, a: Action)
    requires Owned(s) && OwnedEnabled(s, a) && a.Gate?
    ensures StageOf(Apply(s, a), s.holders[a.h].task.id) == HolderStage(Apply(s, a).holders[a.h])
  {
    hide Owned, StageOf;
    OwnedStep(s, a);
    HeldStage(Apply(s, a), a.h);
  }

  lemma LimitStays(s: Sys, a: Action, t: string)
    requires OwnedEnabled(s, a)
    ensures t in s.accepted ==> LimitOf(Apply(s, a), t) == LimitOf(s, t)
    ensures t !in Apply(s, a).accepted ==> LimitOf(Apply(s, a), t) == 0
  {
    AcceptedStep(s, a);
  }

  lemma {:induction false} LimitAlways(s: Sys, actions: seq<Action>, t: string)
    requires IsOwnedRun(s, actions) && IsRun(s, actions) && t in s.accepted
    ensures LimitOf(After(s, actions), t) == LimitOf(s, t)
    decreases |actions|
  {
    hide Apply, LimitOf;
    if actions != [] {
      AcceptedStep(s, actions[0]);
      LimitStays(s, actions[0], t);
      LimitAlways(Apply(s, actions[0]), actions[1..], t);
    }
  }

  lemma Distribute(limit: int, n: nat, k: nat)
    ensures limit * (n + k) == limit * n + limit * k
  {
  }

  lemma {:induction false} RunsBounded(s: Sys, actions: seq<Action>, t: string, limit: int)
    requires Owned(s) && IsOwnedRun(s, actions) && IsRun(s, actions)
    requires t in After(s, actions).accepted ==> limit == LimitOf(After(s, actions), t)
    requires 0 <= limit
    ensures HandlerRuns(s, actions, t)
            <= RunsLeft(limit, StageOf(s, t)) + Setbacks(s, actions, t, true) + limit * Setbacks(s, actions, t, false)
    decreases |actions|
  {
    hide Owned, Apply, LimitOf, StageOf, StartsHandler, Subject;
    if actions == [] {
      LeftBounded(s, t, limit);
    } else {
      var (a, rest) := (actions[0], actions[1..]);
      var s' := Apply(s, a);
      OwnedStep(s, a);
      if t in s'.accepted { LimitAlways(s', rest, t); AcceptedAlways(s', rest, t); }
      RunsLeftStep(s, a, t, limit);
      RunsBounded(s', rest, t, limit);
      Distribute(limit, if Subject(s, a) == Some(t) && a.Redrive? then 1 else 0, Setbacks(s', rest, t, false));
    }
  }

  lemma {:induction false} AcceptedAlways(s: Sys, actions: seq<Action>, t: string)
    requires IsOwnedRun(s, actions) && IsRun(s, actions) && t in s.accepted
    ensures t in After(s, actions).accepted
    decreases |actions|
  {
    hide Apply;
    if actions != [] {
      AcceptedStep(s, actions[0]);
      AcceptedAlways(Apply(s, actions[0]), actions[1..], t);
    }
  }

  lemma LeftBounded(s: Sys, t: string, limit: int)
    requires Owned(s) && 0 <= limit && (t in s.accepted ==> limit == LimitOf(s, t))
    ensures RunsLeft(limit, StageOf(s, t)) >= 0
  {
    hide Owned, StageOf, LimitOf;
    StageBounded(s, t);
    AcceptedWhenStaged(s, t);
  }

  /**
   The theorem on handler runs: a task with retry limit M is run at most M times, plus once for every crash
   of a worker that holds it, plus M times for every redrive from the dead letter queue.
   */
  lemma HandlerRunsBounded(actions: seq<Action>, t: string)
    requires IsOwnedRun(INIT, actions)
    ensures IsRun(INIT, actions)
    ensures var limit := LimitOf(After(INIT, actions), t);
            HandlerRuns(INIT, actions, t)
            <= limit + Setbacks(INIT, actions, t, true) + limit * Setbacks(INIT, actions, t, false)
  {
    OwnedRunIsRun(INIT, actions);
    RunsBounded(INIT, actions, t, LimitOf(After(INIT, actions), t));
  }
}
