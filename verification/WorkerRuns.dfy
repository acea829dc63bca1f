/** What a worker does with one message, taken apart into the steps of the lifecycle. */
module WorkerRuns {
  import opened Wrappers
  import opened Tasks
  import opened Streams
  import opened Keys
  import opened Lifecycle
  import opened Ownership
  import opened Promotion
  import opened ScriptRuns
  import opened Turns

  /** What a worker does with a message of its own, up to the run of the handler and from its end on. */
  function Steps(h: nat, reply: GateReply, outcome: Outcome, worker: string): seq<Action>
  {
    [GateStep(h, reply, outcome, worker)] + LastSteps(h, outcome)
  }

  function GateStep(h: nat, reply: GateReply, outcome: Outcome, worker: string): Action
  {
    Gate(h, reply, if outcome.Broken? then outcome.now else 0, worker)
  }

  function LastSteps(h: nat, outcome: Outcome): seq<Action>
  {
    match outcome
    case Discarded => []
    case Ignored => [AckDone(h)]
    case Finished => [HandlerOk(h), AckDone(h)]
    case Broken(_, err, failedAt, delay) => [HandlerFail(h, err, Unix(failedAt + delay))]
  }

  lemma RunOf2(s: Sys, a: Action, b: Action)
    requires OwnedEnabled(s, a) && OwnedEnabled(Apply(s, a), b)
    ensures IsOwnedRun(s, [a, b]) && IsRun(s, [a, b]) && After(s, [a, b]) == Apply(Apply(s, a), b)
  {
    hide Apply, Enabled;
    OwnedRunCons(Apply(s, a), b, []);
    OwnedRunCons(s, a, [b]);
    assert [b] + [] == [b] && [a] + [b] == [a, b];
  }

  lemma RunOf1(s: Sys, a: Action)
    requires OwnedEnabled(s, a)
    ensures IsOwnedRun(s, [a]) && IsRun(s, [a]) && After(s, [a]) == Apply(s, a)
  {
    hide Apply, Enabled;
    OwnedRunCons(s, a, []);
    assert [a] + [] == [a];
  }

  /** The gate sends a message on or stops it, as it does in ProcessMessage. */
  lemma GateOpens(s: Sys, h: nat, task: Task, reply: GateReply, now: int, worker: string)
    requires InPhase(s, h, {Received}) && s.holders[h].task == task.Received(s.holders[h].id)
    ensures var a := Gate(h, reply, now, worker);
            var holder := s.holders[h];
            && OwnedEnabled(s, a)
            && Apply(s, a) == s.(
                 db := Gated(s.db, Data(task), reply),
                 holders := s.holders[h :=
                   if PassGate(s.db.processed, task, reply).0
                   then holder.(phase := Running, task := holder.task.Started(now, worker))
                   else holder.(phase := Skipping)])
  {
    assert PassGate(s.db.processed, s.holders[h].task, reply) == PassGate(s.db.processed, task, reply);
  }

  lemma Succeeds(s: Sys, h: nat)
    requires InPhase(s, h, {Running})
    ensures OwnedEnabled(s, HandlerOk(h))
    ensures Apply(s, HandlerOk(h)) == s.(
              holders := s.holders[h := s.holders[h].(phase := Succeeded)],
              succeeded := s.succeeded + {s.holders[h].task.id})
  {
  }

  /** Whatever the last step of a worker is, it drops the message. */
  lemma LastStep(s: Sys, h: nat, a: Action)
    requires h in s.holders && s.holders[h].phase != Received
    requires match a
             case AckDone(h') => h' == h && s.holders[h].phase != Running
             case HandlerFail(h', _, _) => h' == h && s.holders[h].phase == Running
             case _ => false
    ensures var (q, task) := (s.holders[h].queue, s.holders[h].task);
            && OwnedEnabled(s, a) && Apply(s, a).holders == s.holders - {h}
            && Apply(s, a).succeeded == s.succeeded && Apply(s, a).accepted == s.accepted
            && Apply(s, a).crashed == s.crashed
            && Apply(s, a).db == if a.AckDone? then s.db.Put(q, s.db.At(q).Ack(s.holders[h].id))
                                 else s.db.Put(task.Queue(), s.db.At(task.Queue()).Fail(task, a.err, a.score))
  {
  }

  /** The holder of a task between the gate and the end, for each outcome. */
  predicate IsBeyondGate(holder: Holder, task: Task, outcome: Outcome, worker: string)
  {
    match outcome
    case Discarded => false
    case Ignored => holder.phase == Skipping
    case Finished => holder.phase == Running && holder.task.id == task.id
    case Broken(now, _, _, _) => holder.phase == Running && holder.task == task.Received(holder.id).Started(now, worker)
  }

  /** The second half: whatever has happened since the gate, the keys end as `Concluded` says. */
  lemma ConcludeIsRun(s: Sys, h: nat, task: Task, outcome: Outcome, worker: string)
    requires h in s.holders && IsBeyondGate(s.holders[h], task, outcome, worker)
    ensures IsOwnedRun(s, LastSteps(h, outcome)) && IsRun(s, LastSteps(h, outcome))
    ensures var s' := After(s, LastSteps(h, outcome));
            && s'.db == Concluded(s.db, s.holders[h].queue, s.holders[h].id, Data(task), outcome, worker)
            && s'.holders == s.holders - {h} && s'.accepted == s.accepted && s'.crashed == s.crashed
            && s'.succeeded == s.succeeded + if outcome.Finished? then {task.id} else {}
  {
    hide Enabled, Apply, IsRun, IsOwnedRun, After, Queue.Fail, Queue.Ack;
    match outcome
    case Ignored =>
      LastStep(s, h, AckDone(h));
      RunOf1(s, AckDone(h));
    case Finished =>
      Succeeds(s, h);
      var s1 := Apply(s, HandlerOk(h));
      LastStep(s1, h, AckDone(h));
      RunOf2(s, HandlerOk(h), AckDone(h));
      assert s.holders[h := s1.holders[h]] - {h} == s.holders - {h};
    case Broken(_, err, failedAt, delay) =>
      var fail := HandlerFail(h, err, Unix(failedAt + delay));
      LastStep(s, h, fail);
      RunOf1(s, fail);
  }

  /** The first half. */
  lemma GateIsRun(s: Sys, h: nat, task: Task, reply: GateReply, outcome: Outcome, worker: string)
    requires InPhase(s, h, {Received}) && s.holders[h].task == task.Received(s.holders[h].id)
    requires IsOutcome(s.db, Data(task), reply, outcome)
    ensures var gate := GateStep(h, reply, outcome, worker);
            && IsOwnedRun(s, [gate]) && IsRun(s, [gate])
            && (var s' := After(s, [gate]);
                && s'.db == Gated(s.db, Data(task), reply) && h in s'.holders
                && s'.holders == s.holders[h := s'.holders[h]] && s'.accepted == s.accepted
                && s'.crashed == s.crashed && s'.succeeded == s.succeeded
                && s'.holders[h].queue == s.holders[h].queue && s'.holders[h].id == s.holders[h].id
                && IsBeyondGate(s'.holders[h], task, outcome, worker))
  {
    hide Enabled, Apply, IsRun, IsOwnedRun, After, PassGate;
    var gate := GateStep(h, reply, outcome, worker);
    GateOpens(s, h, task, reply, gate.now, worker);
    RunOf1(s, gate);
  }

  /**
   The theorem: processing a delivered message without interruption is a run of the lifecycle, also under the rules
   of `Ownership`, in which the worker drops the message at the end, and the keys are those that ProcessMessage leaves.
   */
  lemma MessageIsRun(s: Sys, h: nat, task: Task, reply: GateReply, outcome: Outcome, worker: string)
    requires InPhase(s, h, {Received}) && s.holders[h].task == task.Received(s.holders[h].id)
    requires IsOutcome(s.db, Data(task), reply, outcome)
    ensures IsOwnedRun(s, Steps(h, reply, outcome, worker)) && IsRun(s, Steps(h, reply, outcome, worker))
    ensures var s' := After(s, Steps(h, reply, outcome, worker));
            && s'.db == Settled(s.db, s.holders[h].queue, s.holders[h].id, Data(task), reply, outcome, worker)
            && s'.holders == s.holders - {h} && s'.accepted == s.accepted && s'.crashed == s.crashed
            && s'.succeeded == s.succeeded + if outcome.Finished? then {task.id} else {}
  {
    hide Enabled, Apply, IsRun, IsOwnedRun, After, IsBeyondGate, Gated, Concluded, LastSteps, IsOutcome, InPhase;
    var gate := GateStep(h, reply, outcome, worker);
    GateIsRun(s, h, task, reply, outcome, worker);
    ConcludeIsRun(After(s, [gate]), h, task, outcome, worker);
    RunAppend(s, [gate], LastSteps(h, outcome));
    OwnedAppend(s, [gate], LastSteps(h, outcome));
    assert s.holders[h := After(s, [gate]).holders[h]] - {h} == s.holders - {h};
  }

  lemma {:induction false} OwnedAppend(s: Sys, a: seq<Action>, b: seq<Action>)
    requires IsRun(s, a) && IsOwnedRun(s, a) && IsOwnedRun(After(s, a), b)
    ensures IsOwnedRun(s, a + b)
    decreases |a|
  {
    hide Enabled, Apply;
    if a == [] {
      assert a + b == b;
    } else {
      assert (a + b)[1..] == a[1..] + b;
      OwnedAppend(Apply(s, a[0]), a[1..], b);
    }
  }

  /** A message without a task is only acknowledged. */
  lemma DiscardIsRun(s: Sys, q: string, id: nat, reply: GateReply, outcome: Outcome, worker: string)
    requires var stream := s.db.At(q).stream; id in stream.pel && id in stream.entries && !stream.entries[id].Data?
    requires IsOutcome(s.db, s.db.At(q).stream.entries[id], reply, outcome)
    ensures IsOwnedRun(s, [AckJunk(q, id)]) && IsRun(s, [AckJunk(q, id)])
    ensures var s' := After(s, [AckJunk(q, id)]);
            && s'.db == Settled(s.db, q, id, s.db.At(q).stream.entries[id], reply, outcome, worker)
            && s'.holders == s.holders && s'.accepted == s.accepted && s'.crashed == s.crashed
            && s'.succeeded == s.succeeded
  {
    RunOf1(s, AckJunk(q, id));
  }

  /** A pending message whose entry is gone is dropped, as by a redelivery. */
  lemma GoneIsRun(s: Sys, q: string, id: nat, consumer: string, h: nat, reply: GateReply, worker: string)
    requires var stream := s.db.At(q).stream; id in stream.pel && id !in stream.entries
    requires h !in s.holders
    ensures IsRun(s, [Redeliver(q, id, consumer, h)])
    ensures (forall k :: !Holds(s, k, q, id)) ==> IsOwnedRun(s, [Redeliver(q, id, consumer, h)])
    ensures var s' := After(s, [Redeliver(q, id, consumer, h)]);
            s'.db == Settled(s.db, q, id, NoData, reply, Discarded, worker) && s'.holders == s.holders
  {
    var a := Redeliver(q, id, consumer, h);
    assert [a] + [] == [a];
    RunCons(s, a, []);
    if forall k :: !Holds(s, k, q, id) { OwnedRunCons(s, a, []); }
  }

  /**
   A failed attempt below the limit waits for its backoff: a script run moves the task only if it comes less than a
   second before the delay is over, and finds it ready from then on.
   */
  lemma RetryIsDue(db: Db, q: string, id: nat, task: Task, outcome: Outcome, worker: string,
      less: (Task, Task) -> bool, t: int, limit: int)
    requires IsOrder(less) && outcome.Broken?
    requires ToInt32(task.RetryCount() + 1) < task.RetryLimit()
    ensures var failed := task.Received(id).Started(outcome.now, worker).Failed(outcome.err).WithState(TaskState.Retry);
            var k := Concluded(db, q, id, Data(task), outcome, worker).At(task.Queue());
            var due := outcome.failedAt + outcome.delay;
            && failed in k.retry
            && (failed in Batch(k, FromRetry, less, Unix(t), limit) ==> t > due - SECOND)
            && (t >= due ==> failed in Ready(k.retry, less, Unix(t)))
  {
    hide Batch, Ready, IsOrder;
    var failed := task.Received(id).Started(outcome.now, worker).Failed(outcome.err).WithState(TaskState.Retry);
    var k := Concluded(db, q, id, Data(task), outcome, worker).At(task.Queue());
    PromotionTiming(k, FromRetry, less, failed, outcome.failedAt + outcome.delay, t, limit);
  }
}
