/**
 The first attempt of a task, under every interleaving: how often it can start, and what a crash during it costs.
 */
module FirstAttempt {
  import opened Wrappers
  import opened Tasks
  import opened Streams
  import opened Keys
  import opened Lifecycle
  import opened Places
  import opened Affinity
  import opened NoLoss
  import opened Ownership
  import opened Idempotency
  import opened Stages

  predicate Checks(s: Sys, a: Action, t: string)
  {
    a.Gate? && a.h in s.holders && s.holders[a.h].task.id == t && s.holders[a.h].task.RetryCount() == 0
  }

  /** The handler starts on attempt 0 of `t`. */
  ghost predicate StartsFirst(s: Sys, a: Action, t: string)
    requires Enabled(s, a)
  {
    Checks(s, a, t) && Apply(s, a).holders[a.h].phase == Running
  }

  /** The processed key of `t` expires or is deleted by a redrive, or setting it fails. */
  ghost predicate Reopens(s: Sys, a: Action, t: string)
    requires Enabled(s, a)
  {
    || a == ExpireProcessed(t)
    || (a.Redrive? && a.task.id == t)
    || (Checks(s, a, t) && a.reply.Error?)
  }

  ghost function FirstStarts(s: Sys, actions: seq<Action>, t: string): nat
    requires IsRun(s, actions)
    decreases |actions|
  {
    if actions == [] then 0
    else (if StartsFirst(s, actions[0], t) then 1 else 0) + FirstStarts(Apply(s, actions[0]), actions[1..], t)
  }

  ghost function Reopenings(s: Sys, actions: seq<Action>, t: string): nat
    requires IsRun(s, actions)
    decreases |actions|
  {
    if actions == [] then 0
    else (if Reopens(s, actions[0], t) then 1 else 0) + Reopenings(Apply(s, actions[0]), actions[1..], t)
  }

  function Unset(db: Db, t: string): nat
  {
    if t in db.processed then 0 else 1
  }

  lemma FirstStartStep(s: Sys, a: Action, t: string)
    requires Enabled(s, a)
    ensures (if StartsFirst(s, a, t) then 1 else 0) + Unset(Apply(s, a).db, t)
            <= Unset(s.db, t) + if Reopens(s, a, t) then 1 else 0
  {
    hide Queue.Fail, Queue.Ack, Hold;
  }

  /**
   The theorem on mutual exclusion: with any workers, claims, redeliveries and duplicate publishes, attempt 0
   of a task starts once, plus at most once for every time that its key is lost.
   */
  lemma {:induction false} FirstAttemptStartsOnce(s: Sys, actions: seq<Action>, t: string)
    requires IsRun(s, actions)
    ensures FirstStarts(s, actions, t) <= Unset(s.db, t) + Reopenings(s, actions, t)
    decreases |actions|
  {
    hide StartsFirst, Reopens, Apply, Enabled;
    if actions != [] {
      FirstStartStep(s, actions[0], t);
      FirstAttemptStartsOnce(Apply(s, actions[0]), actions[1..], t);
    }
  }

  /** What a takeover does after a crash: crash, claim, check, acknowledge. */
  function Takeover(s: Sys, h: nat, h': nat): seq<Action>
    requires h in s.holders
  {
    [Crash(h), Redeliver(s.holders[h].queue, s.holders[h].id, "", h'), Gate(h', Replied, 0, ""), AckDone(h')]
  }

  lemma CrashFrees(s: Sys, h: nat)
    requires Owned(s) && InPhase(s, h, {Running})
    ensures var (q, id) := (s.holders[h].queue, s.holders[h].id);
            var s1 := Apply(s, Crash(h));
            Owned(s1) && s1.db == s.db && s1.succeeded == s.succeeded && s1.db.At(q).stream.HasTask(id)
                && id in s1.db.At(q).stream.pel
            && SameAttempt(s1.db.At(q).stream.entries[id].task, s.holders[h].task)
            && (forall k :: !Holds(s1, k, q, id)) && OwnedEnabled(s, Crash(h)) && s1.holders == s.holders - {h}
  {
    OwnedStep(s, Crash(h));
    hide PlacesOk, AllIdsOk, HoldersOk, QueuesOwned, CopiesKnown, SingleCopy, SuccessesOk;
    HolderFits(s, h);
    forall k ensures !Holds(Apply(s, Crash(h)), k, s.holders[h].queue, s.holders[h].id) {
      if Holds(Apply(s, Crash(h)), k, s.holders[h].queue, s.holders[h].id) { SameMessage(s, h, k); }
    }
  }

  lemma ClaimSkipAck(s: Sys, q: string, id: nat, h: nat)
    requires Owned(s) && h !in s.holders && s.db.At(q).stream.HasTask(id) && id in s.db.At(q).stream.pel
    requires forall k :: !Holds(s, k, q, id)
    requires var task := s.db.At(q).stream.entries[id].task; task.RetryCount() == 0 && task.id in s.db.processed
    ensures OwnedEnabled(s, Redeliver(q, id, "", h))
    ensures var s1 := Apply(s, Redeliver(q, id, "", h));
            OwnedEnabled(s1, Gate(h, Replied, 0, ""))
    ensures var s2 := Apply(Apply(s, Redeliver(q, id, "", h)), Gate(h, Replied, 0, ""));
            OwnedEnabled(s2, AckDone(h))
    ensures var s3 := Apply(Apply(Apply(s, Redeliver(q, id, "", h)), Gate(h, Replied, 0, "")), AckDone(h));
            s3.succeeded == s.succeeded && StageOf(s3, s.db.At(q).stream.entries[id].task.id) == Done
  {
    hide PlacesOk, AllIdsOk, HoldersOk, QueuesOwned, CopiesKnown, SingleCopy, SuccessesOk, HoldersOwn, StageOf;
    var a1, a2 := Redeliver(q, id, "", h), Gate(h, Replied, 0, "");
    var s1 := Apply(s, a1);
    OwnedStep(s, a1);
    assert s1.holders[h].task == s.db.At(q).stream.entries[id].task.Received(id) && s1.db.processed == s.db.processed;
    assert OwnedEnabled(s1, a2);
    var s2 := Apply(s1, a2);
    OwnedStep(s1, a2);
    assert s2.holders[h].phase == Skipping;
    assert OwnedEnabled(s2, AckDone(h));
    AckEvolves(s2, AckDone(h));
  }

  /**
   At-least-once fails here: from every state in which a worker runs attempt 0 and the processed key is set,
   a crash and a takeover before the key expires end the task without a successful run.
   */
  lemma CrashLosesFirstAttempt(s: Sys, h: nat, h': nat)
    requires Owned(s) && InPhase(s, h, {Running}) && s.holders[h].task.RetryCount() == 0
    requires s.holders[h].task.id in s.db.processed && s.holders[h].task.id !in s.succeeded && h' !in s.holders
    ensures IsOwnedRun(s, Takeover(s, h, h')) && IsRun(s, Takeover(s, h, h'))
    ensures var s' := After(s, Takeover(s, h, h'));
            StageOf(s', s.holders[h].task.id) == Done && s.holders[h].task.id !in s'.succeeded
  {
    hide Apply, Owned, StageOf, Enabled;
    var (q, id) := (s.holders[h].queue, s.holders[h].id);
    var (a0, a1, a2, a3) := (Crash(h), Redeliver(q, id, "", h'), Gate(h', Replied, 0, ""), AckDone(h'));
    CrashFrees(s, h);
    var s1 := Apply(s, a0);
    ClaimSkipAck(s1, q, id, h');
    var s2 := Apply(s1, a1);
    var s3 := Apply(s2, a2);
    OwnedRunCons(s3, a3, []);
    OwnedRunCons(s2, a2, [a3]);
    OwnedRunCons(s1, a1, [a2, a3]);
    OwnedRunCons(s, a0, [a1, a2, a3]);
    assert [a0] + [a1, a2, a3] == Takeover(s, h, h') && [a1] + [a2, a3] == [a1, a2, a3] && [a2] + [a3] == [a2, a3];
  }

  lemma ClaimGate(s: Sys, q: string, id: nat, h: nat)
    requires Owned(s) && h !in s.holders && s.db.At(q).stream.HasTask(id) && id in s.db.At(q).stream.pel
    requires forall k :: !Holds(s, k, q, id)
    ensures OwnedEnabled(s, Redeliver(q, id, "", h))
    ensures OwnedEnabled(Apply(s, Redeliver(q, id, "", h)), Gate(h, Replied, 0, ""))
    ensures var task := s.db.At(q).stream.entries[id].task;
            var s2 := Apply(Apply(s, Redeliver(q, id, "", h)), Gate(h, Replied, 0, ""));
            && h in s2.holders && s2.holders[h].task.id == task.id
            && s2.holders[h].phase
               == if task.RetryCount() != 0 || task.id !in s.db.processed then Running else Skipping
  {
    hide Owned, Queue.Fail, Keys.Enqueue, Keys.Redrive;
    var a := Redeliver(q, id, "", h);
    assert Apply(s, a).holders[h].task == s.db.At(q).stream.entries[id].task.Received(id);
    assert Apply(s, a).db.processed == s.db.processed;
  }

  /**
   Exactly when a crash costs the attempt: the worker that takes the message over runs the handler again if and
   only if the task has failed before, or its processed key is gone.
   */
  lemma TakeoverRunsIff(s: Sys, h: nat, h': nat)
    requires Owned(s) && InPhase(s, h, {Running}) && h' !in s.holders
    ensures var takeover := Takeover(s, h, h')[..3];
            IsOwnedRun(s, takeover) && IsRun(s, takeover) && h' in After(s, takeover).holders
    ensures var (task, holder) := (s.holders[h].task, After(s, Takeover(s, h, h')[..3]).holders[h']);
            && holder.task.id == task.id
            && (holder.phase == Running <==> task.RetryCount() != 0 || task.id !in s.db.processed)
            && (holder.phase == Skipping <==> holder.phase != Running)
  {
    hide Apply, Owned, Enabled;
    var (q, id) := (s.holders[h].queue, s.holders[h].id);
    var (a0, a1, a2) := (Crash(h), Redeliver(q, id, "", h'), Gate(h', Replied, 0, ""));
    CrashFrees(s, h);
    var s1 := Apply(s, a0);
    ClaimGate(s1, q, id, h');
    OwnedRunCons(Apply(s1, a1), a2, []);
    OwnedRunCons(s1, a1, [a2]);
    OwnedRunCons(s, a0, [a1, a2]);
    assert [a0] + [a1, a2] == Takeover(s, h, h')[..3] && [a1] + [a2] == [a1, a2] && [a2] + [] == [a2];
  }

  /** A task is published, delivered, and its handler starts. */
  function Start(task: Task, now: int, consumer: string, h: nat, worker: string): seq<Action>
  {
    [Enqueue(task, now), Deliver(task.Queue(), 1, consumer, h), Gate(h, Replied, now, worker)]
  }

  lemma FirstStart(task: Task, now: int, consumer: string, h: nat, worker: string)
    requires task.metadata.Some? && task.RetryCount() == 0 && !IsScheduled(task, now)
    ensures IsOwnedRun(INIT, Start(task, now, consumer, h, worker))
            && IsRun(INIT, Start(task, now, consumer, h, worker))
    ensures var s := After(INIT, Start(task, now, consumer, h, worker));
            && InPhase(s, h, {Running}) && s.holders.Keys == {h} && s.holders[h].task.id == task.id
            && s.holders[h].queue == task.Queue() && s.holders[h].id == 1
            && s.holders[h].task.RetryCount() == 0 && task.id in s.db.processed && task.id in s.accepted
            && s.succeeded == {}
  {
    var (a0, a1, a2) := (Enqueue(task, now), Deliver(task.Queue(), 1, consumer, h), Gate(h, Replied, now, worker));
    var s1 := Apply(INIT, a0);
    assert s1.db.At(task.Queue()).stream == EMPTY_STREAM.Add(Data(task.WithState(Pending)));
    var s2 := Apply(s1, a1);
    assert s2.holders[h].task == task.WithState(Pending).Received(1);
    hide Apply, Enabled;
    OwnedRunCons(s2, a2, []);
    OwnedRunCons(s1, a1, [a2]);
    OwnedRunCons(INIT, a0, [a1, a2]);
    assert [a0] + [a1, a2] == Start(task, now, consumer, h, worker) && [a1] + [a2] == [a1, a2] && [a2] + [] == [a2];
  }

  lemma {:induction false} OwnedRunAppend(s: Sys, a: seq<Action>, b: seq<Action>)
    requires IsOwnedRun(s, a) && IsRun(s, a) && IsOwnedRun(After(s, a), b) && IsRun(After(s, a), b)
    ensures IsOwnedRun(s, a + b) && IsRun(s, a + b) && After(s, a + b) == After(After(s, a), b)
    decreases |a|
  {
    hide Enabled, Apply;
    if a == [] {
      assert a + b == b;
    } else {
      assert (a + b)[1..] == a[1..] + b;
      OwnedRunAppend(Apply(s, a[0]), a[1..], b);
    }
  }

  /** The same task is then lost with its worker: crash, claim, gate, acknowledgement. */
  function LossRun(task: Task, now: int, consumer: string, h: nat, h': nat, worker: string): seq<Action>
  {
    Start(task, now, consumer, h, worker)
    + [Crash(h), Redeliver(task.Queue(), 1, "", h'), Gate(h', Replied, 0, ""), AckDone(h')]
  }

  /**
   The loss is real: for every task that is published at once, the system has a run from its first state, with one
   crash and no expiry, at whose end the task is done and has never succeeded.
   */
  lemma LossIsReachable(task: Task, now: int, consumer: string, h: nat, h': nat, worker: string)
    requires task.metadata.Some? && task.RetryCount() == 0 && !IsScheduled(task, now) && h != h'
    ensures IsOwnedRun(INIT, LossRun(task, now, consumer, h, h', worker))
            && IsRun(INIT, LossRun(task, now, consumer, h, h', worker))
    ensures var s := After(INIT, LossRun(task, now, consumer, h, h', worker));
            StageOf(s, task.id) == Done && task.id !in s.succeeded
  {
    hide Owned, IsOwnedRun, IsRun, After, StageOf, Start;
    var start := Start(task, now, consumer, h, worker);
    FirstStart(task, now, consumer, h, worker);
    InitOwned();
    OwnedAlways(INIT, start);
    var s := After(INIT, start);
    CrashLosesFirstAttempt(s, h, h');
    OwnedRunAppend(INIT, start, Takeover(s, h, h'));
  }
}
