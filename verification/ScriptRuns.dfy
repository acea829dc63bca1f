/** A promotion script is a sequence of single promotions of the lifecycle, so it keeps whatever they keep. */
module ScriptRuns {
  import opened Tasks
  import opened Streams
  import opened Keys
  import opened Lifecycle
  import opened Promotion

  function Turn(src: Source, q: string, member: Task): Action
  {
    match src
    case FromScheduled => Action.PromoteScheduled(q, member)
    case FromRetry => Action.PromoteRetry(q, member)
  }

  function Turns(src: Source, q: string, members: seq<Task>): seq<Action>
    decreases |members|
  {
    if members == [] then [] else [Turn(src, q, members[0])] + Turns(src, q, members[1..])
  }

  /** The promotions of one run of the script. */
  function ScriptTurns(
      db: Db, src: Source, less: (Task, Task) -> bool, order: seq<string>, cutoff: int, limit: int): seq<Action>
    requires IsOrder(less)
    decreases |order|
  {
    if order == [] then []
    else
      var members := Batch(db.At(order[0]), src, less, cutoff, limit);
      var db' := PromoteIn(db, order[0], src, members);
      Turns(src, order[0], members) + ScriptTurns(db', src, less, order[1..], cutoff, limit)
  }

  predicate Members(k: Queue, src: Source, members: seq<Task>)
  {
    && (forall m :: m in members ==> m in SetOf(k, src))
    && (forall i, j :: 0 <= i < j < |members| ==> members[i] != members[j])
  }

  lemma TurnApplies(s: Sys, src: Source, q: string, m: Task)
    requires q in s.db.known && m in SetOf(s.db.At(q), src)
    ensures Enabled(s, Turn(src, q, m))
    ensures Apply(s, Turn(src, q, m)) == s.(db := s.db.Put(q, Promote(s.db.At(q), src, m)))
  {
  }

  lemma {:induction false} TurnsRun(s: Sys, src: Source, q: string, members: seq<Task>)
    requires q in s.db.known && Members(s.db.At(q), src, members)
    ensures IsRun(s, Turns(src, q, members))
    ensures After(s, Turns(src, q, members)) == s.(db := PromoteIn(s.db, q, src, members))
    decreases |members|
  {
    hide Enabled, Apply;
    if members != [] {
      var k := s.db.At(q);
      TurnApplies(s, src, q, members[0]);
      var s' := Apply(s, Turn(src, q, members[0]));
      PromoteOne(k, src, members[0]);
      assert members == [members[0]] + members[1..];
      TurnsRun(s', src, q, members[1..]);
      assert Turns(src, q, members)[1..] == Turns(src, q, members[1..]);
      PromoteInStep(s.db, q, src, members);
    }
  }

  lemma BatchMembers(k: Queue, src: Source, less: (Task, Task) -> bool, cutoff: int, limit: int)
    requires IsOrder(less)
    ensures Members(k, src, Batch(k, src, less, cutoff, limit))
    ensures forall m :: m in Batch(k, src, less, cutoff, limit) ==> m in SetOf(k, src) && SetOf(k, src)[m] <= cutoff
  {
    OrderedIsListing(SetOf(k, src), less, Due(SetOf(k, src), cutoff));
    forall m | m in Batch(k, src, less, cutoff, limit) ensures m in Due(SetOf(k, src), cutoff) {
      assert m in Ready(SetOf(k, src), less, cutoff);
    }
  }

  /** The theorem: the script is a run of the lifecycle that ends in the database which the script leaves. */
  lemma {:induction false} ScriptIsRun(
      s: Sys, src: Source, less: (Task, Task) -> bool, order: seq<string>, cutoff: int, limit: int)
    requires IsOrder(less) && forall q :: q in order ==> q in s.db.known
    ensures IsRun(s, ScriptTurns(s.db, src, less, order, cutoff, limit))
    ensures After(s, ScriptTurns(s.db, src, less, order, cutoff, limit))
            == s.(db := Script(s.db, src, less, order, cutoff, limit).0)
    decreases |order|
  {
    hide Enabled, Apply, PromoteList, Batch, IsOrder, Turns, Members;
    if order != [] {
      var members := Batch(s.db.At(order[0]), src, less, cutoff, limit);
      BatchMembers(s.db.At(order[0]), src, less, cutoff, limit);
      TurnsRun(s, src, order[0], members);
      var s' := s.(db := PromoteIn(s.db, order[0], src, members));
      ScriptIsRun(s', src, less, order[1..], cutoff, limit);
      RunAppend(s, Turns(src, order[0], members), ScriptTurns(s'.db, src, less, order[1..], cutoff, limit));
    }
  }

  /**
   Scores and cutoffs are whole seconds. A task due at `p` is moved by a run at `t` only if `t` is less than a
   second early, and a run at or after `p` finds it ready.
   */
  lemma PromotionTiming(k: Queue, src: Source, less: (Task, Task) -> bool, m: Task, p: int, t: int, limit: int)
    requires IsOrder(less) && m in SetOf(k, src) && SetOf(k, src)[m] == Unix(p)
    ensures m in Batch(k, src, less, Unix(t), limit) ==> t > p - SECOND
    ensures t >= p ==> m in Ready(SetOf(k, src), less, Unix(t))
  {
    BatchMembers(k, src, less, Unix(t), limit);
    OrderedIsListing(SetOf(k, src), less, Due(SetOf(k, src), Unix(t)));
  }
}
