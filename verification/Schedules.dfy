/**
 When scheduled tasks enter their streams: runs of the lifecycle in which promotions come from script runs only, each
 with a time, an order of the queues and a limit of its own.
 */
module Schedules {
  import opened Wrappers
  import opened Tasks
  import opened Streams
  import opened Keys
  import opened Lifecycle
  import opened Places
  import opened Affinity
  import opened NoLoss
  import opened Promotion
  import opened ScriptRuns

  datatype Timed =
    | Step(a: Action)
    | Script(src: Source, order: seq<string>, t: int, limit: int)

  ghost predicate TimedEnabled(s: Sys, e: Timed)
  {
    match e
    case Step(a) => Enabled(s, a) && !a.PromoteScheduled? && !a.PromoteRetry?
    case Script(_, order, _, _) => forall q :: q in order ==> q in s.db.known
  }

  /** The steps of the lifecycle that it stands for. */
  ghost function StepsOf(s: Sys, e: Timed, less: (Task, Task) -> bool): seq<Action>
    requires IsOrder(less)
  {
    match e
    case Step(a) => [a]
    case Script(src, order, t, limit) => ScriptTurns(s.db, src, less, order, Unix(t), limit)
  }

  ghost function TimedApply(s: Sys, e: Timed, less: (Task, Task) -> bool): Sys
    requires IsOrder(less) && TimedEnabled(s, e)
  {
    match e
    case Step(a) => Apply(s, a)
    case Script(src, order, t, limit) => s.(db := Promotion.Script(s.db, src, less, order, Unix(t), limit).0)
  }

  ghost predicate IsTimedRun(s: Sys, run: seq<Timed>, less: (Task, Task) -> bool)
    requires IsOrder(less)
    decreases |run|
  {
    run == [] || (TimedEnabled(s, run[0]) && IsTimedRun(TimedApply(s, run[0], less), run[1..], less))
  }

  ghost function TimedAfter(s: Sys, run: seq<Timed>, less: (Task, Task) -> bool): Sys
    requires IsOrder(less) && IsTimedRun(s, run, less)
    decreases |run|
  {
    if run == [] then s else TimedAfter(TimedApply(s, run[0], less), run[1..], less)
  }

  lemma TimedIsRun(s: Sys, e: Timed, less: (Task, Task) -> bool)
    requires IsOrder(less) && TimedEnabled(s, e)
    ensures IsRun(s, StepsOf(s, e, less)) && After(s, StepsOf(s, e, less)) == TimedApply(s, e, less)
  {
    hide Apply, Enabled;
    match e
    case Step(a) =>
      assert [a][1..] == [];
      assert IsRun(Apply(s, a), []);
    case Script(src, order, t, limit) => ScriptIsRun(s, src, less, order, Unix(t), limit);
  }

  /** Every member of a scheduled set waits for the time that its task asks for, in whole seconds. */
  predicate ScoreFits(k: Queue, m: Task)
  {
    m in k.scheduled ==>
      m.options.Some? && m.options.value.processAt.Some?
      && k.scheduled[m] == m.options.value.processAt.value / 1_000_000_000
  }

  ghost predicate ScoresFit(db: Db)
  {
    forall q, m :: ScoreFits(db.At(q), m)
  }

  lemma ScoreAfter(s: Sys, a: Action, m: Task)
    requires Enabled(s, a) && ScoreFits(s.db.At(Touched(s, a)), m)
    ensures ScoreFits(QueueAfter(s, a), m)
  {
    hide Task.Queue, Task.RetryCount, Task.RetryLimit, Task.Failed, Task.Redriven;
  }

  lemma ScoresStep(s: Sys, a: Action)
    requires Enabled(s, a) && ScoresFit(s.db)
    ensures ScoresFit(Apply(s, a).db)
  {
    hide Apply, Enabled, Touched, QueueAfter, ScoreFits;
    forall q, m
      ensures ScoreFits(Apply(s, a).db.At(q), m)
    {
      StepQueue(s, a, q);
      assert ScoreFits(s.db.At(q), m);
      if q == Touched(s, a) { ScoreAfter(s, a, m); }
    }
  }

  /** Task `x` has no copy but the one at `spot`, if any, and it is in nobody's hands. */
  ghost predicate Nowhere(s: Sys, x: string, spot: Option<(string, Place)>)
  {
    && (forall q, p :: Copy(s.db, x, q, p) ==> spot == Some((q, p)))
    && (forall h :: h in s.holders ==> s.holders[h].task.id != x)
    && (forall r :: r in s.lookups ==> s.lookups[r].task.id != x)
  }

  /** The step neither enqueues task `x` nor takes its only copy away. */
  predicate Spares(a: Action, x: string, spot: Option<(string, Place)>)
  {
    && !(a.Enqueue? && a.task.id == x)
    && (spot.Some? ==> spot.value.1.InScheduled? && a != PromoteScheduled(spot.value.0, spot.value.1.member))
  }

  lemma NothingArrives(s: Sys, a: Action, x: string, spot: Option<(string, Place)>)
    requires Enabled(s, a) && Nowhere(s, x, spot) && Spares(a, x, spot)
    ensures MoveOf(s, a).come.Some? ==> MoveOf(s, a).come.value.1.id != x
    ensures spot.Some? && Touched(s, a) == spot.value.0 ==> MoveOf(s, a).gone != Some(spot.value.1)
  {
    hide Task.Queue, Task.RetryCount, Task.RetryLimit;
    match a
    case PromoteScheduled(q, member) => assert Copy(s.db, member.id, q, InScheduled(member));
    case PromoteRetry(q, member) => assert Copy(s.db, member.id, q, InRetry(member));
    case _ =>
  }

  lemma NobodyTakes(s: Sys, a: Action, x: string, spot: Option<(string, Place)>)
    requires Enabled(s, a) && AllIdsOk(s.db) && Nowhere(s, x, spot) && (spot.Some? ==> spot.value.1.InScheduled?)
    ensures forall h :: h in Apply(s, a).holders ==> Apply(s, a).holders[h].task.id != x
    ensures forall r :: r in Apply(s, a).lookups ==> Apply(s, a).lookups[r].task.id != x
  {
    hide Apply, AllIdsOk;
    forall h | h in Apply(s, a).holders
      ensures Apply(s, a).holders[h].task.id != x
    {
      StepHolders(s, a, h);
      var holder := Apply(s, a).holders[h];
      assert h !in s.holders ==> !Copy(s.db, x, holder.queue, InStream(holder.id));
    }
    LookupStep(s, a);
    if a.Lookup? { assert !Copy(s.db, x, a.queue, InDlq(a.id)); }
  }

  lemma NowhereStep(s: Sys, a: Action, x: string, spot: Option<(string, Place)>)
    requires Enabled(s, a) && AllIdsOk(s.db) && Nowhere(s, x, spot) && Spares(a, x, spot)
    ensures Nowhere(Apply(s, a), x, spot)
    ensures spot.Some? && Copy(s.db, x, spot.value.0, spot.value.1) ==>
              Copy(Apply(s, a).db, x, spot.value.0, spot.value.1)
  {
    hide Apply, Enabled, MoveOf, Touched, Has, TaskAt;
    var s' := Apply(s, a);
    StepMoves(s, a);
    NothingArrives(s, a, x, spot);
    NobodyTakes(s, a, x, spot);
    forall q, p | Copy(s'.db, x, q, p)
      ensures spot == Some((q, p))
    {
      if q == Touched(s, a) { assert MovesAt(s.db.At(q), s'.db.At(q), MoveOf(s, a), p); }
      assert Copy(s.db, x, q, p);
    }
    if spot.Some? && Copy(s.db, x, spot.value.0, spot.value.1) {
      Stays(s.db, s'.db, Touched(s, a), MoveOf(s, a), spot.value.0, spot.value.1);
    }
  }

  /** What every run keeps: besides the invariants of `NoLoss`, only accepted tasks are anywhere. */
  ghost predicate Orderly(s: Sys)
  {
    Safe(s) && ScoresFit(s.db) && forall x :: x !in s.accepted ==> Nowhere(s, x, None)
  }

  lemma OrderlyMeans(s: Sys)
    requires Orderly(s)
    ensures Safe(s) && AllIdsOk(s.db) && ScoresFit(s.db)
  {
  }

  lemma AcceptedGrows(s: Sys, a: Action)
    requires Enabled(s, a)
    ensures s.accepted.Keys <= Apply(s, a).accepted.Keys
    ensures a.Enqueue? && a.task.id !in Apply(s, a).accepted ==> Apply(s, a).holders == s.holders
    ensures a.Enqueue? && a.task.id !in Apply(s, a).accepted ==> MoveOf(s, a).come.None?
  {
    hide Keys.Redrive, Queue.Fail, Queue.Ack, Hold, PassGate;
  }

  lemma {:induction false} OrderlyStep(s: Sys, a: Action)
    requires Orderly(s) && Enabled(s, a)
    ensures Orderly(Apply(s, a))
  {
    hide Apply, Safe, ScoresFit, AllIdsOk, Nowhere;
    OrderlyMeans(s);
    SafeStep(s, a);
    ScoresStep(s, a);
    AcceptedGrows(s, a);
    forall x | x !in Apply(s, a).accepted
      ensures Nowhere(Apply(s, a), x, None)
    {
      assert Nowhere(s, x, None);
      if a.Enqueue? && a.task.id == x { RefusedLeaves(s, a, x); } else { NowhereStep(s, a, x, None); }
    }
  }

  lemma RefusedLeaves(s: Sys, a: Action, x: string)
    requires Enabled(s, a) && a.Enqueue? && a.task.id == x && x !in Apply(s, a).accepted && Nowhere(s, x, None)
    ensures Nowhere(Apply(s, a), x, None)
  {
    assert Apply(s, a) == s;
  }

  lemma {:induction false} OrderlyRun(s: Sys, actions: seq<Action>)
    requires Orderly(s) && IsRun(s, actions)
    ensures Orderly(After(s, actions))
    decreases |actions|
  {
    hide Orderly, Apply, Enabled;
    if actions != [] {
      OrderlyStep(s, actions[0]);
      OrderlyRun(Apply(s, actions[0]), actions[1..]);
    }
  }

  lemma {:induction false} OrderlyAlways(s: Sys, run: seq<Timed>, less: (Task, Task) -> bool)
    requires Orderly(s) && IsOrder(less) && IsTimedRun(s, run, less)
    ensures Orderly(TimedAfter(s, run, less))
    decreases |run|
  {
    hide Orderly, TimedApply, TimedEnabled, IsOrder, IsRun, After, StepsOf;
    if run != [] {
      TimedIsRun(s, run[0], less);
      OrderlyRun(s, StepsOf(s, run[0], less));
      OrderlyAlways(TimedApply(s, run[0], less), run[1..], less);
    }
  }

  lemma InitOrderly()
    ensures Orderly(INIT)
  {
  }

  /** The task waits in the scheduled set of its queue, and there is no other copy of it. */
  ghost predicate Waits(s: Sys, q: string, m: Task)
  {
    Orderly(s) && m in s.db.At(q).scheduled && Nowhere(s, m.id, Some((q, InScheduled(m))))
  }

  lemma {:induction false} WaitsRun(s: Sys, actions: seq<Action>, q: string, m: Task)
    requires Waits(s, q, m) && IsRun(s, actions)
    requires forall a :: a in actions ==> Spares(a, m.id, Some((q, InScheduled(m))))
    ensures Waits(After(s, actions), q, m)
    decreases |actions|
  {
    hide Waits, Apply, Enabled, Spares;
    if actions != [] {
      assert actions[0] in actions && forall a :: a in actions[1..] ==> a in actions;
      WaitsStep(s, actions[0], q, m);
      WaitsRun(Apply(s, actions[0]), actions[1..], q, m);
    }
  }

  lemma WaitsStep(s: Sys, a: Action, q: string, m: Task)
    requires Waits(s, q, m) && Enabled(s, a) && Spares(a, m.id, Some((q, InScheduled(m))))
    ensures Waits(Apply(s, a), q, m)
  {
    hide Apply, Enabled, Orderly, Nowhere, Spares;
    OrderlyMeans(s);
    OrderlyStep(s, a);
    assert Copy(s.db, m.id, q, InScheduled(m));
    NowhereStep(s, a, m.id, Some((q, InScheduled(m))));
  }

  /** A script run promotes only members that are due at its time. */
  lemma {:induction false} TurnIsDue(db: Db, src: Source, less: (Task, Task) -> bool, order: seq<string>, cutoff: int,
      limit: int, a: Action)
    requires IsOrder(less) && a in ScriptTurns(db, src, less, order, cutoff, limit)
    ensures a.PromoteScheduled? || a.PromoteRetry?
    ensures a.PromoteScheduled? ==>
              src.FromScheduled?
              && a.member in db.At(a.queue).scheduled && db.At(a.queue).scheduled[a.member] <= cutoff
    decreases |order|
  {
    hide IsOrder, PromoteList, Batch;
    if order != [] {
      var q := order[0];
      var members := Batch(db.At(q), src, less, cutoff, limit);
      var db' := PromoteIn(db, q, src, members);
      BatchMembers(db.At(q), src, less, cutoff, limit);
      PromoteListPromotes(db.At(q), src, members);
      if a in Turns(src, q, members) {
        TurnIsMember(src, q, members, a);
      } else {
        TurnIsDue(db', src, less, order[1..], cutoff, limit, a);
      }
    }
  }

  lemma {:induction false} TurnIsMember(src: Source, q: string, members: seq<Task>, a: Action)
    requires a in Turns(src, q, members)
    ensures exists m :: m in members && a == Turn(src, q, m)
    decreases |members|
  {
    if a == Turn(src, q, members[0]) {
      assert members[0] in members;
    } else {
      TurnIsMember(src, q, members[1..], a);
    }
  }

  /** The event neither enqueues a task with ID `x` nor promotes scheduled tasks at or after `from`. */
  predicate Early(e: Timed, x: string, from: int)
  {
    match e
    case Step(a) => !(a.Enqueue? && a.task.id == x)
    case Script(src, _, t, _) => src.FromScheduled? ==> t < from
  }

  lemma EarlySpares(s: Sys, e: Timed, less: (Task, Task) -> bool, q: string, m: Task, p: int, a: Action)
    requires IsOrder(less) && TimedEnabled(s, e) && ScoreFits(s.db.At(q), m) && a in StepsOf(s, e, less)
    requires m.options.Some? && m.options.value.processAt == Some(p) && Early(e, m.id, p - SECOND + 1)
    ensures Spares(a, m.id, Some((q, InScheduled(m))))
  {
    hide IsOrder, Enabled, ScriptTurns;
    if e.Script? { TurnIsDue(s.db, e.src, less, e.order, Unix(e.t), e.limit, a); }
  }

  lemma {:induction false} WaitsAlways(s: Sys, run: seq<Timed>, less: (Task, Task) -> bool, q: string, m: Task, p: int)
    requires Waits(s, q, m) && IsOrder(less) && IsTimedRun(s, run, less)
    requires m.options.Some? && m.options.value.processAt == Some(p)
    requires forall e :: e in run ==> Early(e, m.id, p - SECOND + 1)
    ensures Waits(TimedAfter(s, run, less), q, m)
    decreases |run|
  {
    hide Waits, TimedApply, TimedEnabled, IsOrder, IsRun, After, StepsOf, Early, Spares, ScoreFits;
    if run != [] {
      assert run[0] in run && forall e :: e in run[1..] ==> e in run;
      WaitingScore(s, q, m);
      forall a | a in StepsOf(s, run[0], less)
        ensures Spares(a, m.id, Some((q, InScheduled(m))))
      {
        EarlySpares(s, run[0], less, q, m, p, a);
      }
      TimedIsRun(s, run[0], less);
      WaitsRun(s, StepsOf(s, run[0], less), q, m);
      WaitsAlways(TimedApply(s, run[0], less), run[1..], less, q, m, p);
    }
  }

  lemma WaitingScore(s: Sys, q: string, m: Task)
    requires Waits(s, q, m)
    ensures ScoreFits(s.db.At(q), m)
  {
  }

  /** A task that is enqueued for later goes to the scheduled set of its queue, and nowhere else. */
  lemma EnqueuedWaits(s: Sys, task: Task, now: int, p: int)
    requires Orderly(s) && Enabled(s, Enqueue(task, now)) && task.id !in s.accepted
    requires task.options.Some? && task.options.value.processAt == Some(p) && p > now
    requires task.id in Apply(s, Enqueue(task, now)).accepted
    ensures var m := task.(metadata := Some(task.metadata.value.(state := Scheduled)));
            Waits(Apply(s, Enqueue(task, now)), task.Queue(), m)
  {
    var (a, s') := (Enqueue(task, now), Apply(s, Enqueue(task, now)));
    var m := task.(metadata := Some(task.metadata.value.(state := Scheduled)));
    OrderlyMeans(s);
    OrderlyStep(s, a);
    StepMoves(s, a);
    assert MoveOf(s, a) == Move(None, Some((InScheduled(m), m))) && Touched(s, a) == task.Queue();
    assert s'.holders == s.holders && s'.lookups == s.lookups;
    assert Nowhere(s, task.id, None);
    hide Apply, Orderly, Task.Queue, MoveOf, Touched, Moves, Enabled, Safe;
    Comes(s.db, s'.db, Touched(s, a), MoveOf(s, a));
    forall q, p | Copy(s'.db, m.id, q, p)
      ensures q == task.Queue() && p == InScheduled(m)
    {
      CopyComes(s, s', task.Queue(), m, q, p);
    }
  }

  lemma CopyComes(s: Sys, s': Sys, touched: string, m: Task, q: string, p: Place)
    requires MovesIn(s.db, s'.db, touched, Move(None, Some((InScheduled(m), m))))
    requires Nowhere(s, m.id, None) && Copy(s'.db, m.id, q, p)
    ensures q == touched && p == InScheduled(m)
  {
    hide Has, TaskAt;
    assert !Copy(s.db, m.id, q, p);
    if q == touched {
      assert MovesAt(s.db.At(q), s'.db.At(q), Move(None, Some((InScheduled(m), m))), p);
    }
  }

  /**
   The theorem on scheduling, over all runs of clients, workers, redrives, crashes and script runs: a task that was
   accepted with a time in the future is in no stream and in nobody's hands, unless a script run for scheduled tasks
   came later than a second before that time; and until then every script run from that time on finds it ready.
   */
  lemma EntersOnlyWhenDue(before: seq<Timed>, task: Task, now: int, p: int, after: seq<Timed>,
      less: (Task, Task) -> bool)
    requires IsOrder(less) && IsTimedRun(INIT, before, less)
    requires var s := TimedAfter(INIT, before, less);
             && Enabled(s, Enqueue(task, now)) && task.id !in s.accepted
             && task.id in Apply(s, Enqueue(task, now)).accepted
             && IsTimedRun(Apply(s, Enqueue(task, now)), after, less)
    requires task.options.Some? && task.options.value.processAt == Some(p) && p > now
    requires forall e :: e in after ==> !(e.Step? && e.a.Enqueue? && e.a.task.id == task.id)
    requires forall e :: e in after && e.Script? && e.src.FromScheduled? ==> e.t <= p - 1_000_000_000
    ensures var s := TimedAfter(Apply(TimedAfter(INIT, before, less), Enqueue(task, now)), after, less);
            var m := task.(metadata := Some(task.metadata.value.(state := Scheduled)));
            var waiting := s.db.At(task.Queue()).scheduled;
            && m in waiting && waiting[m] == p / 1_000_000_000
            && (forall q, id :: s.db.At(q).stream.HasTask(id) ==> s.db.At(q).stream.entries[id].task.id != task.id)
            && (forall h :: h in s.holders ==> s.holders[h].task.id != task.id)
            && (forall t :: t >= p ==> m in Ready(waiting, less, Unix(t)))
  {
    hide Orderly, Waits, TimedAfter, IsTimedRun, Apply, IsOrder, Task.Queue;
    var s := TimedAfter(INIT, before, less);
    var m := task.(metadata := Some(task.metadata.value.(state := Scheduled)));
    InitOrderly();
    OrderlyAlways(INIT, before, less);
    EnqueuedWaits(s, task, now, p);
    WaitsAlways(Apply(s, Enqueue(task, now)), after, less, task.Queue(), m, p);
    var s' := TimedAfter(Apply(s, Enqueue(task, now)), after, less);
    WaitsMeans(s', task.Queue(), m, p, less);
  }

  lemma WaitsMeans(s: Sys, q: string, m: Task, p: int, less: (Task, Task) -> bool)
    requires Waits(s, q, m) && IsOrder(less) && m.options.Some? && m.options.value.processAt == Some(p)
    ensures m in s.db.At(q).scheduled && s.db.At(q).scheduled[m] == p / 1_000_000_000
    ensures forall q', id :: s.db.At(q').stream.HasTask(id) ==> s.db.At(q').stream.entries[id].task.id != m.id
    ensures forall h :: h in s.holders ==> s.holders[h].task.id != m.id
    ensures forall t :: t >= p ==> m in Ready(s.db.At(q).scheduled, less, Unix(t))
  {
    hide IsOrder, Safe;
    assert ScoreFits(s.db.At(q), m);
    forall q', id | s.db.At(q').stream.HasTask(id)
      ensures s.db.At(q').stream.entries[id].task.id != m.id
    {
      assert s.db.At(q').stream.entries[id].task.id == m.id ==> Copy(s.db, m.id, q', InStream(id));
    }
    forall t | t >= p
      ensures m in Ready(s.db.At(q).scheduled, less, Unix(t))
    {
      PromotionTiming(s.db.At(q), FromScheduled, less, m, p, t, -1);
    }
  }
}
