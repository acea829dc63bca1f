/** The state that each copy of a task records, and what a move changes besides it, whatever the interleaving. */
module States {
  import opened Wrappers
  import opened Tasks
  import opened Streams
  import opened Keys
  import opened Lifecycle
  import opened Places
  import opened Affinity
  import opened NoLoss

  predicate StateFits(p: Place, task: Task)
  {
    task.metadata.Some? &&
    match p
    case InStream(_) => task.metadata.value.state.Pending?
    case InDlq(_) => task.metadata.value.state.Dead?
    case InScheduled(_) => task.metadata.value.state.Scheduled?
    case InRetry(_) => task.metadata.value.state.Retry?
  }

  ghost predicate StatesFit(db: Db)
  {
    forall q, p :: Has(db.At(q), p) ==> StateFits(p, TaskAt(db.At(q), p))
  }

  lemma ArrivalState(s: Sys, a: Action)
    requires Enabled(s, a) && MoveOf(s, a).come.Some?
    ensures StateFits(MoveOf(s, a).come.value.0, MoveOf(s, a).come.value.1)
  {
    hide Task.Queue, Task.RetryCount, Task.RetryLimit;
  }

  lemma StateAt(db: Db, q: string, p: Place)
    requires StatesFit(db) && Has(db.At(q), p)
    ensures StateFits(p, TaskAt(db.At(q), p))
  {
  }

  lemma StatesStep(s: Sys, a: Action)
    requires Enabled(s, a) && AllIdsOk(s.db) && StatesFit(s.db)
    ensures StatesFit(Apply(s, a).db)
  {
    hide Apply, Enabled, MoveOf, Touched, StateFits, StatesFit, Has, TaskAt, AllIdsOk;
    var db' := Apply(s, a).db;
    StepMoves(s, a);
    if MoveOf(s, a).come.Some? { ArrivalState(s, a); }
    forall q, p | Has(db'.At(q), p)
      ensures StateFits(p, TaskAt(db'.At(q), p))
    {
      if q == Touched(s, a) { assert MovesAt(s.db.At(q), db'.At(q), MoveOf(s, a), p); }
      if Has(s.db.At(q), p) { StateAt(s.db, q, p); }
    }
    AllStatesFit(db');
  }

  lemma AllStatesFit(db: Db)
    requires forall q, p :: Has(db.At(q), p) ==> StateFits(p, TaskAt(db.At(q), p))
    ensures StatesFit(db)
  {
  }

  lemma {:induction false} StatesAlways(s: Sys, actions: seq<Action>)
    requires Safe(s) && StatesFit(s.db) && IsRun(s, actions)
    ensures StatesFit(After(s, actions).db)
    decreases |actions|
  {
    hide Safe, Apply, Enabled, StatesFit;
    if actions != [] {
      SafeStep(s, actions[0]);
      SafeIds(s);
      StatesStep(s, actions[0]);
      StatesAlways(Apply(s, actions[0]), actions[1..]);
    }
  }

  lemma SafeIds(s: Sys)
    requires Safe(s)
    ensures Base(s) && AllIdsOk(s.db)
  {
  }

  lemma InitStates()
    ensures Safe(INIT) && StatesFit(INIT.db)
  {
  }

  /** The theorem: in every reachable state each copy of a task records the state that its place stands for. */
  lemma EveryStateFits(actions: seq<Action>, q: string, p: Place)
    requires IsRun(INIT, actions) && Has(After(INIT, actions).db.At(q), p)
    ensures var task := TaskAt(After(INIT, actions).db.At(q), p);
            && task.metadata.Some?
            && (p.InStream? <==> task.metadata.value.state == TaskState.Pending)
            && (p.InScheduled? <==> task.metadata.value.state == TaskState.Scheduled)
            && (p.InRetry? <==> task.metadata.value.state == TaskState.Retry)
            && (p.InDlq? <==> task.metadata.value.state == TaskState.Dead)
  {
    InitStates();
    StatesAlways(INIT, actions);
    hide After, IsRun;
    StateAt(After(INIT, actions).db, q, p);
  }

  /** `after` is `before` but for its metadata, which are `meta`. */
  predicate OnlyMeta(before: Task, after: Task, meta: TaskMetadata)
  {
    after.id == before.id && after.kind == before.kind && after.payload == before.payload
    && after.options == before.options && after.metadata == Some(meta)
  }

  /** The task that arrives, compared with the one in the hands of whoever moves it. */
  lemma MoverArrives(s: Sys, a: Action)
    requires Base(s) && Enabled(s, a) && MoveOf(s, a).come.Some?
    ensures var (p, task) := MoveOf(s, a).come.value;
            match a
            case Enqueue(given, now) =>
              given.metadata.Some? &&
              OnlyMeta(given, task,
                       given.metadata.value.(state := if p.InScheduled? then TaskState.Scheduled else Pending))
            case PromoteScheduled(q, member) => Has(s.db.At(q), InScheduled(member)) && member.metadata.Some?
                                                && OnlyMeta(member, task, member.metadata.value.(state := Pending))
            case PromoteRetry(q, member) => Has(s.db.At(q), InRetry(member)) && member.metadata.Some?
                                            && OnlyMeta(member, task, member.metadata.value.(state := Pending))
            case HandlerFail(h, err, _) =>
              var held := s.holders[h].task;
              && held.metadata.Some?
              && OnlyMeta(held, task,
                          held.metadata.value.(
                            state := if p.InDlq? then Dead else TaskState.Retry,
                            retryCount := held.metadata.value.retryCount + 1, lastError := err))
            case Redrive(r, _, _, found) =>
              && found.metadata.Some?
              && OnlyMeta(found, task, found.metadata.value.(state := Pending, retryCount := 0, lastError := ""))
            case _ => false
  {
    hide PlacesOk, HoldersOk, LookupsOk, AllIdsOk, Task.Queue, Task.RetryLimit;
    match a
    case PromoteScheduled(q, member) => PlaceFits(s.db, q, InScheduled(member));
    case PromoteRetry(q, member) => PlaceFits(s.db, q, InRetry(member));
    case HandlerFail(h, _, _) =>
      HolderFits(s, h);
      HasMeta(s.holders[h]);
    case Redrive(_, _, _, _) => RedriveFinds(s, a);
    case _ =>
  }

  lemma HasMeta(holder: Holder)
    requires holder.task.Meta().streamMsgID == Some(holder.id)
    requires 0 <= holder.task.RetryCount() < holder.task.RetryLimit()
    ensures holder.task.metadata.Some?
    ensures ToInt32(holder.task.RetryCount() + 1) == holder.task.metadata.value.retryCount + 1
  {
  }
}
