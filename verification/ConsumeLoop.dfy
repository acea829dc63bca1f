/** The main loop of Subscribe: when it gives up, and how long it sleeps. */
module ConsumeLoop {
  import opened Backoff
  import opened Keys

  /** The outcomes of a blocking read. The class of an error is an input. */
  datatype ReadOutcome = Messages | Empty | Cancelled | Transient | Fatal

  datatype Verdict = Reading | Stopped | GaveUp | Broke

  const MAX_RETRIES := 10

  const MAX_SLEEP := 30 * SECOND

  /** The sleep after the `n`-th transient error in a row: 1, 2, 4, ... seconds, but at most half a minute. */
  function SleepAfter(n: nat): int
    requires n > 0
  {
    if Pow2(n - 1) * SECOND > MAX_SLEEP then MAX_SLEEP else Pow2(n - 1) * SECOND
  }

  /** The sleeps after `n` transient errors in a row. */
  function TotalSleep(n: nat): int
  {
    if n == 0 then 0 else TotalSleep(n - 1) + SleepAfter(n)
  }

  /** The last `n` outcomes before position `i` are transient errors, and the one before them is not. */
  predicate Streak(outcomes: seq<ReadOutcome>, i: nat, n: nat)
    requires n <= i <= |outcomes|
  {
    && (forall j :: i - n <= j < i ==> outcomes[j].Transient?)
    && (n < i ==> !outcomes[i - n - 1].Transient?)
  }

  /** The loop ends at position `i`: an error that is not transient, or the eleventh transient error in a row. */
  predicate Ends(outcomes: seq<ReadOutcome>, i: nat)
    requires i < |outcomes|
  {
    || outcomes[i].Cancelled?
    || outcomes[i].Fatal?
    || (i >= MAX_RETRIES && forall j :: i - MAX_RETRIES <= j <= i ==> outcomes[j].Transient?)
  }

  /**
   The loop over any sequence of read outcomes. `stop` is where it ends, `slept` how long it has slept since
   the last read without an error: one sleep for each transient error of the current streak.
   */
  method Consume(outcomes: seq<ReadOutcome>) returns (verdict: Verdict, stop: nat, slept: int)
    ensures stop <= |outcomes| && (verdict.Reading? <==> stop == |outcomes|)
    ensures forall i :: 0 <= i < stop ==> !Ends(outcomes, i)
    ensures stop < |outcomes| ==> Ends(outcomes, stop)
    ensures stop < |outcomes| ==>
              verdict == (match outcomes[stop] case Cancelled => Stopped case Fatal => Broke case _ => GaveUp)
    ensures exists n :: 0 <= n <= stop && Streak(outcomes, stop, n) && slept == TotalSleep(n)
    ensures 0 <= slept <= 181 * SECOND
    ensures verdict.GaveUp? ==> slept == 181 * SECOND
  {
    var retryCount := 0;
    slept := 0;
    stop := 0;
    SleepBounds();
    hide Streak, Ends, TotalSleep;
    assert Streak(outcomes, 0, 0) && TotalSleep(0) == 0 by { NoSleep(outcomes); }
    while stop < |outcomes|
      invariant 0 <= retryCount <= MAX_RETRIES && retryCount <= stop <= |outcomes|
      invariant Streak(outcomes, stop, retryCount)
      invariant slept == TotalSleep(retryCount)
      invariant forall i :: 0 <= i < stop ==> !Ends(outcomes, i)
    {
      var outcome := outcomes[stop];
      StreakStep(outcomes, stop, retryCount);
      EndsByStreak(outcomes, stop, retryCount);
      if outcome.Empty? {
        retryCount, slept := 0, 0;
        NoSleep(outcomes);
      } else if outcome.Cancelled? {
        return Stopped, stop, slept;
      } else if outcome.Transient? {
        retryCount := retryCount + 1;
        if retryCount > MAX_RETRIES {
          return GaveUp, stop, slept;
        }
        var backoff := Pow2(retryCount - 1) * SECOND;
        if backoff > MAX_SLEEP { backoff := MAX_SLEEP; }
        slept := slept + backoff;
        OneMoreSleep(retryCount);
      } else if outcome.Fatal? {
        return Broke, stop, slept;
      } else if retryCount > 0 {
        retryCount, slept := 0, 0;
        NoSleep(outcomes);
      }
      stop := stop + 1;
    }
    verdict := Reading;
  }

  lemma NoSleep(outcomes: seq<ReadOutcome>)
    ensures Streak(outcomes, 0, 0) && TotalSleep(0) == 0
  {
  }

  lemma OneMoreSleep(n: nat)
    requires n > 0
    ensures TotalSleep(n) == TotalSleep(n - 1) + SleepAfter(n)
  {
  }

  lemma StreakStep(outcomes: seq<ReadOutcome>, i: nat, n: nat)
    requires n <= i < |outcomes| && Streak(outcomes, i, n)
    ensures if outcomes[i].Transient? then Streak(outcomes, i + 1, n + 1) else Streak(outcomes, i + 1, 0)
  {
  }

  /** The streak is all that the loop has to know of the past. */
  lemma EndsByStreak(outcomes: seq<ReadOutcome>, i: nat, n: nat)
    requires n <= MAX_RETRIES && n <= i < |outcomes| && Streak(outcomes, i, n)
    ensures Ends(outcomes, i)
            <==> outcomes[i].Cancelled? || outcomes[i].Fatal? || (outcomes[i].Transient? && n == MAX_RETRIES)
  {
    if outcomes[i].Transient? && n < i && n < MAX_RETRIES {
      assert !outcomes[i - n - 1].Transient?;
    }
  }

  lemma SleepBounds()
    ensures forall n :: 0 <= n <= MAX_RETRIES ==> 0 <= TotalSleep(n) <= TotalSleep(MAX_RETRIES)
    ensures TotalSleep(MAX_RETRIES) == 181 * SECOND
  {
    TotalSleepIs(MAX_RETRIES);
    forall n | 0 <= n <= MAX_RETRIES
      ensures 0 <= TotalSleep(n) <= TotalSleep(MAX_RETRIES)
    {
      TotalSleepIs(n);
      if n < 5 { Pow2Monotone(n, 5); }
      Pow2Monotone(0, n);
      assert Pow2(5) == 32;
    }
  }

  /** The sleeps double up to the fifth; from the sixth on every one has the maximal length. */
  lemma {:induction false} TotalSleepIs(n: nat)
    ensures TotalSleep(n) == (if n <= 5 then Pow2(n) - 1 else 31 + 30 * (n - 5)) * 1_000_000_000
  {
    if n > 0 {
      TotalSleepIs(n - 1);
      assert Pow2(5) == 32;
      if n <= 5 { Pow2Monotone(n - 1, 4); } else { Pow2Monotone(5, n - 1); }
    }
  }
}
