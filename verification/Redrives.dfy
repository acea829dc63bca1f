/** What two redrives of the same dead task do when both look it up before either of them has moved it. */
module Redrives {
  import opened Wrappers
  import opened Tasks
  import opened Streams
  import opened Keys
  import opened Lifecycle
  import opened Conservation

  function DeadTask(task: Task, err: string): Task
  {
    task.WithState(Pending).Received(1).Started(0, "").Failed(err).WithState(Dead)
  }

  /** A task whose first failure is its last. */
  predicate DiesAtOnce(task: Task)
  {
    task.metadata.Some? && task.RetryCount() == 0 && task.RetryLimit() == 1 && !IsScheduled(task, 0)
  }

  function Death(task: Task, err: string): seq<Action>
  {
    [Enqueue(task, 0), Deliver(task.Queue(), 1, "", 0), Gate(0, Replied, 0, ""), HandlerFail(0, err, 0)]
  }

  /** The only queue in use after the death: nothing but one dead task. */
  function Grave(task: Task, err: string): Queue
  {
    Queue(Stream(map[], 2, 2, map[]), Stream(map[1 := Data(DeadTask(task, err))], 2, 1, map[]), map[], map[],
          Stats(1, 0, 0))
  }

  ghost predicate OnlyDead(s: Sys, task: Task, err: string)
  {
    && s.db.At(task.Queue()) == Grave(task, err) && s.db.processed == {task.id}
    && s.holders == map[] && s.lookups == map[] && s.accepted.Keys == {task.id}
  }

  lemma RunCons2(s: Sys, a: Action, b: Action, rest: seq<Action>)
    requires Enabled(s, a) && Enabled(Apply(s, a), b) && IsRun(Apply(Apply(s, a), b), rest)
    ensures IsRun(s, [a, b] + rest) && After(s, [a, b] + rest) == After(Apply(Apply(s, a), b), rest)
  {
    hide Apply, Enabled;
    RunCons(Apply(s, a), b, rest);
    RunCons(s, a, [b] + rest);
    assert [a] + ([b] + rest) == [a, b] + rest;
  }

  /** The task has been delivered to worker 0. */
  ghost predicate JustDelivered(s: Sys, task: Task)
  {
    var t := task.WithState(Pending);
    && s.db.At(task.Queue()) == Queue(Stream(map[1 := Data(t)], 2, 2, map[1 := PendingEntry("", 1)]), EMPTY_STREAM,
                                      map[], map[], Stats(1, 0, 0))
    && s.db.processed == {} && s.holders == map[0 := Holder(task.Queue(), 1, t.Received(1), Received, true)]
    && s.lookups == map[] && s.accepted.Keys == {task.id}
  }

  lemma GetsDelivered(task: Task)
    requires DiesAtOnce(task)
    ensures var (a0, a1) := (Enqueue(task, 0), Deliver(task.Queue(), 1, "", 0));
            Enabled(INIT, a0) && Enabled(Apply(INIT, a0), a1) && JustDelivered(Apply(Apply(INIT, a0), a1), task)
  {
    hide Task.RetryLimit;
    var (a0, a1) := (Enqueue(task, 0), Deliver(task.Queue(), 1, "", 0));
    assert Enabled(INIT, a0) by { assert task.RetryLimit() == 1; }
    var s1 := Apply(INIT, a0);
    assert s1.db.At(task.Queue()) == EMPTY_QUEUE.Enqueued(Data(task.WithState(Pending)));
  }

  lemma Fails(s: Sys, task: Task, err: string)
    requires DiesAtOnce(task) && JustDelivered(s, task)
    ensures var (a2, a3) := (Gate(0, Replied, 0, ""), HandlerFail(0, err, 0));
            Enabled(s, a2) && Enabled(Apply(s, a2), a3) && OnlyDead(Apply(Apply(s, a2), a3), task, err)
  {
    var (a2, a3) := (Gate(0, Replied, 0, ""), HandlerFail(0, err, 0));
    var s3 := Apply(s, a2);
    var t := task.WithState(Pending).Received(1).Started(0, "");
    assert s3.holders == map[0 := Holder(task.Queue(), 1, t, Running, true)] && s3.db.processed == {task.id};
    GraveIsDug(s3.db.At(task.Queue()), task, err);
  }

  lemma GraveIsDug(k: Queue, task: Task, err: string)
    requires DiesAtOnce(task)
    requires k == Queue(Stream(map[1 := Data(task.WithState(Pending))], 2, 2, map[1 := PendingEntry("", 1)]),
                        EMPTY_STREAM, map[], map[], Stats(1, 0, 0))
    ensures k.Fail(task.WithState(Pending).Received(1).Started(0, ""), err, 0) == Grave(task, err)
  {
    var after := k.Fail(task.WithState(Pending).Received(1).Started(0, ""), err, 0);
    assert after.stream.entries == map[] && after.stream.pel == map[];
  }

  lemma Dies(task: Task, err: string)
    requires DiesAtOnce(task)
    ensures IsRun(INIT, Death(task, err)) && OnlyDead(After(INIT, Death(task, err)), task, err)
  {
    var (a0, a1) := (Enqueue(task, 0), Deliver(task.Queue(), 1, "", 0));
    var (a2, a3) := (Gate(0, Replied, 0, ""), HandlerFail(0, err, 0));
    hide Apply, Enabled, OnlyDead, JustDelivered, DiesAtOnce, Task.Queue;
    assert [a2, a3] + [] == [a2, a3] && [a0, a1] + [a2, a3] == Death(task, err);
    hide Death;
    GetsDelivered(task);
    Fails(Apply(Apply(INIT, a0), a1), task, err);
    RunCons2(Apply(Apply(INIT, a0), a1), a2, a3, []);
    RunCons2(INIT, a0, a1, [a2, a3]);
  }

  /** Two requests look the task up, and then both move it. */
  function TwoRedrives(task: Task, err: string): seq<Action>
  {
    var (q, dead) := (task.Queue(), DeadTask(task, err));
    [Lookup(0, q, 1), Lookup(1, q, 1), Redrive(0, q, 1, dead), Redrive(1, q, 1, dead)]
  }

  ghost predicate IsDoubled(s: Sys, task: Task, err: string)
  {
    var t := DeadTask(task, err).Redriven();
    && s.db.At(task.Queue()).stream == Stream(map[2 := Data(t), 3 := Data(t)], 4, 2, map[])
    && s.db.At(task.Queue()).dlq.entries == map[] && s.db.At(task.Queue()).scheduled == map[]
    && s.db.At(task.Queue()).retry == map[] && s.db.At(task.Queue()).stats.completed == 0
    && s.db.processed == {} && s.holders == map[] && s.accepted.Keys == {task.id}
  }

  lemma BothLookUp(s: Sys, task: Task, err: string)
    requires OnlyDead(s, task, err)
    ensures var (q, dead) := (task.Queue(), DeadTask(task, err));
            var (a0, a1) := (Lookup(0, q, 1), Lookup(1, q, 1));
            && Enabled(s, a0) && Enabled(Apply(s, a0), a1)
            && Apply(Apply(s, a0), a1) == s.(lookups := map[0 := Found(q, 1, dead), 1 := Found(q, 1, dead)])
  {
    hide DeadTask, Task.Queue;
  }

  lemma BothMove(s: Sys, task: Task, err: string)
    requires var (q, dead) := (task.Queue(), DeadTask(task, err));
             OnlyDead(s.(lookups := map[]), task, err)
             && s.lookups == map[0 := Found(q, 1, dead), 1 := Found(q, 1, dead)]
    ensures var (q, dead) := (task.Queue(), DeadTask(task, err));
            var (a0, a1) := (Redrive(0, q, 1, dead), Redrive(1, q, 1, dead));
            Enabled(s, a0) && Enabled(Apply(s, a0), a1) && IsDoubled(Apply(Apply(s, a0), a1), task, err)
  {
    var (q, dead) := (task.Queue(), DeadTask(task, err));
    assert dead.id == task.id;
    hide DeadTask, Task.Queue, Task.Redriven;
    var (a0, a1) := (Redrive(0, q, 1, dead), Redrive(1, q, 1, dead));
    var k := s.db.At(q);
    assert k.Redrive(1, dead).Redrive(1, dead).stream
        == Stream(map[2 := Data(dead.Redriven()), 3 := Data(dead.Redriven())], 4, 2, map[]);
    assert k.Redrive(1, dead).Redrive(1, dead).dlq.entries == map[];
  }

  /**
   Two requests for the same dead task, interleaved: the system has a run from its first state that accepts one task
   and ends with two messages that carry it.
   */
  lemma TasksDouble(task: Task, err: string)
    requires DiesAtOnce(task)
    ensures IsRun(INIT, Death(task, err) + TwoRedrives(task, err))
    ensures IsDoubled(After(INIT, Death(task, err) + TwoRedrives(task, err)), task, err)
  {
    hide IsRun, After, OnlyDead, IsDoubled, DiesAtOnce, Death, Enabled, Apply;
    Dies(task, err);
    var s := After(INIT, Death(task, err));
    DeadRedrivesTwice(s, task, err);
    RunAppend(INIT, Death(task, err), TwoRedrives(task, err));
  }

  lemma DeadRedrivesTwice(s: Sys, task: Task, err: string)
    requires OnlyDead(s, task, err)
    ensures IsRun(s, TwoRedrives(task, err)) && IsDoubled(After(s, TwoRedrives(task, err)), task, err)
  {
    var (q, dead) := (task.Queue(), DeadTask(task, err));
    var (a0, a1, a2, a3) := (Lookup(0, q, 1), Lookup(1, q, 1), Redrive(0, q, 1, dead), Redrive(1, q, 1, dead));
    BothLookUp(s, task, err);
    var s2 := Apply(Apply(s, a0), a1);
    assert s2.(lookups := map[]) == s;
    hide Apply, Enabled, IsDoubled, DeadTask;
    BothMove(s2, task, err);
    hide OnlyDead;
    assert [a2, a3] + [] == [a2, a3] && [a0, a1] + [a2, a3] == TwoRedrives(task, err);
    RunCons2(s2, a2, a3, []);
    RunCons2(s, a0, a1, [a2, a3]);
  }

  /** What that breaks: the sum of the queue's numbers, and, one first run later, the rule on undelivered messages. */
  lemma DoubledBreaks(s: Sys, task: Task, err: string)
    requires IsDoubled(s, task, err)
    ensures Total(s.db.At(task.Queue())) == 2 && |s.accepted| == 1
    ensures var (a0, a1) := (Deliver(task.Queue(), 2, "", 0), Gate(0, Replied, 0, ""));
            && Enabled(s, a0) && Enabled(Apply(s, a0), a1)
            && (var s' := Apply(Apply(s, a0), a1);
                var stream := s'.db.At(task.Queue()).stream;
                && stream.cursor <= 3 && stream.HasTask(3) && stream.entries[3].task.RetryCount() == 0
                && stream.entries[3].task.id in s'.db.processed)
  {
    var (a0, a1) := (Deliver(task.Queue(), 2, "", 0), Gate(0, Replied, 0, ""));
    var t := DeadTask(task, err).Redriven();
    assert t.id == task.id && t.RetryCount() == 0;
    hide DeadTask, Task.Redriven, Task.Queue;
    assert |map[2 := Data(t), 3 := Data(t)].Keys| == 2;
    assert |s.accepted.Keys| == 1;
    assert Apply(s, a0).holders[0].task == t.Received(2);
  }
}
