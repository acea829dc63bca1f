/** Unique keys, under every interleaving: while a key lives, one task with that key is accepted at most. */
module Uniqueness {
  import opened Wrappers
  import opened Tasks
  import opened Streams
  import opened Keys
  import opened Lifecycle

  /** Enqueue accepts a task with this unique key. */
  ghost predicate AcceptsKey(s: Sys, a: Action, key: string)
  {
    a.Enqueue? && UniqueKey(a.task) == key && Keys.Enqueue(s.db, a.task, a.now).1.Accepted?
  }

  ghost function Acceptances(s: Sys, actions: seq<Action>, key: string): nat
    requires IsRun(s, actions)
    decreases |actions|
  {
    if actions == [] then 0
    else (if AcceptsKey(s, actions[0], key) then 1 else 0) + Acceptances(Apply(s, actions[0]), actions[1..], key)
  }

  function Expiries(actions: seq<Action>, key: string): nat
  {
    if actions == [] then 0
    else (if actions[0] == ExpireUnique(key) then 1 else 0) + Expiries(actions[1..], key)
  }

  function Vacant(db: Db, key: string): nat
  {
    if key in db.unique then 0 else 1
  }

  lemma AcceptanceStep(s: Sys, a: Action, key: string)
    requires Enabled(s, a) && key != ""
    ensures (if AcceptsKey(s, a, key) then 1 else 0) + Vacant(Apply(s, a).db, key)
            <= Vacant(s.db, key) + if a == ExpireUnique(key) then 1 else 0
  {
    hide Queue.Fail, Queue.Ack, Hold, PassGate;
  }

  /** The theorem on deduplication: a key admits one task, plus at most one for every time that it expires. */
  lemma {:induction false} OneTaskPerKey(s: Sys, actions: seq<Action>, key: string)
    requires IsRun(s, actions) && key != ""
    ensures Acceptances(s, actions, key) + Vacant(After(s, actions).db, key)
            <= Vacant(s.db, key) + Expiries(actions, key)
    decreases |actions|
  {
    hide AcceptsKey, Apply, Enabled;
    if actions != [] {
      AcceptanceStep(s, actions[0], key);
      OneTaskPerKey(Apply(s, actions[0]), actions[1..], key);
    }
  }

  /** Every key that is set belongs to a task that was accepted. */
  ghost predicate Backed(s: Sys)
  {
    forall key :: key in s.db.unique ==> s.db.unique[key] in s.accepted
  }

  ghost predicate NobodyAbandons(actions: seq<Action>)
  {
    forall a :: a in actions ==> !a.Abandon?
  }

  lemma BackedStep(s: Sys, a: Action)
    requires Enabled(s, a) && !a.Abandon? && Backed(s)
    ensures Backed(Apply(s, a))
  {
    hide Queue.Fail, Queue.Ack, Hold, PassGate, Queue.Redrive;
  }

  /** The theorem on refusals: as long as no client dies between its two commands, a refusal has a task behind it. */
  lemma {:induction false} RefusalsAreBacked(s: Sys, actions: seq<Action>)
    requires IsRun(s, actions) && NobodyAbandons(actions) && Backed(s)
    ensures Backed(After(s, actions))
    decreases |actions|
  {
    hide Apply, Enabled, Backed;
    if actions != [] {
      BackedStep(s, actions[0]);
      assert forall a :: a in actions[1..] ==> a in actions;
      RefusalsAreBacked(Apply(s, actions[0]), actions[1..]);
    }
  }

  /** A client that dies in between leaves a key that refuses every later task, although none was accepted. */
  lemma AbandonedKeyRefuses(key: string, taskID: string, task: Task, now: int)
    requires key != "" && UniqueKey(task) == key
    ensures IsRun(INIT, [Abandon(key, taskID)])
    ensures var s := After(INIT, [Abandon(key, taskID)]);
            s.accepted == map[] && Keys.Enqueue(s.db, task, now).1.Duplicate?
  {
    RunCons(INIT, Abandon(key, taskID), []);
    assert [Abandon(key, taskID)] + [] == [Abandon(key, taskID)];
  }
}
