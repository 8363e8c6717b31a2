/**
 * The streak-tier lookup: how many seconds a question gets, given the
 * current streak. The highest-threshold tier whose threshold does not
 * exceed the streak wins; the scan runs backwards over the table and
 * falls back to the first tier.
 */
module Tiers {
  import opened Config

  /** `t` is the time of some row of the tier table. */
  ghost predicate IsTierTime(t: int) {
    exists i :: 0 <= i < |TIME_PER_STREAK| && TIME_PER_STREAK[i].time == t
  }

  /**
   * The index a backward scan of the first `n` rows stops at: the highest
   * row whose threshold is at most `streak`, or -1 when there is none.
   */
  function TierIndexBelow(streak: int, n: nat): (i: int)
    requires n <= |TIME_PER_STREAK|
    ensures -1 <= i < n
    ensures i >= 0 ==> TIME_PER_STREAK[i].streak <= streak
    ensures forall j :: i < j < n ==> streak < TIME_PER_STREAK[j].streak
  {
    if n == 0 then -1
    else if streak >= TIME_PER_STREAK[n - 1].streak then n - 1
    else TierIndexBelow(streak, n - 1)
  }

  /** The seconds allotted to a question asked at the given streak. */
  function TimeForStreak(streak: int): (t: int)
    ensures IsTierTime(t)
    ensures 5 <= t <= 10
  {
    var i := TierIndexBelow(streak, |TIME_PER_STREAK|);
    if i >= 0 then TIME_PER_STREAK[i].time else TIME_PER_STREAK[0].time
  }

  /** The backward loop over the tier table, proved to return the chosen tier's time. */
  method GetTimeForCurrentStreak(streak: int) returns (t: int)
    ensures t == TimeForStreak(streak)
  {
    var i := |TIME_PER_STREAK| - 1;
    while i >= 0
      invariant -1 <= i < |TIME_PER_STREAK|
      invariant forall j :: i < j < |TIME_PER_STREAK| ==> streak < TIME_PER_STREAK[j].streak
    {
      if streak >= TIME_PER_STREAK[i].streak {
        TierIndexUnique(streak, i);
        return TIME_PER_STREAK[i].time;
      }
      i := i - 1;
    }
    TierIndexUnique(streak, -1);
    return TIME_PER_STREAK[0].time;
  }

  /** Any index with the two defining properties of the scan is the one the scan returns. */
  lemma TierIndexUnique(streak: int, i: int)
    requires -1 <= i < |TIME_PER_STREAK|
    requires i >= 0 ==> TIME_PER_STREAK[i].streak <= streak
    requires forall j :: i < j < |TIME_PER_STREAK| ==> streak < TIME_PER_STREAK[j].streak
    ensures TierIndexBelow(streak, |TIME_PER_STREAK|) == i
  {
  }

  /** The 0-threshold tier means a tier always matches a non-negative streak. */
  lemma SomeTierMatches(streak: nat)
    ensures TierIndexBelow(streak, |TIME_PER_STREAK|) >= 0
  {
    if streak >= 15 {
      TierIndexUnique(streak, 3);
    } else if streak >= 10 {
      TierIndexUnique(streak, 2);
    } else if streak >= 5 {
      TierIndexUnique(streak, 1);
    } else {
      TierIndexUnique(streak, 0);
    }
  }

  /** The scan agrees with the table read as thresholds 0, 5, 10, 15 and times 10, 8, 6, 5. */
  lemma {:induction false} TimeForStreakTable(streak: int)
    ensures TimeForStreak(streak) ==
      if streak >= 15 then 5 else if streak >= 10 then 6 else if streak >= 5 then 8 else 10
  {
    if streak >= 15 {
      TierIndexUnique(streak, 3);
    } else if streak >= 10 {
      TierIndexUnique(streak, 2);
    } else if streak >= 5 {
      TierIndexUnique(streak, 1);
    } else if streak >= 0 {
      TierIndexUnique(streak, 0);
    } else {
      TierIndexUnique(streak, -1);
    }
  }

  /** A longer streak never gets more time. */
  lemma TimeNeverIncreases(a: int, b: int)
    requires a <= b
    ensures TimeForStreak(b) <= TimeForStreak(a)
  {
    TimeForStreakTable(a);
    TimeForStreakTable(b);
  }

  /** The worked examples: streak 2 gives 10 s, 5 gives 8 s, 7 gives 8 s, 15 gives 5 s. */
  lemma TierExamples()
    ensures TimeForStreak(2) == 10 && TimeForStreak(5) == 8
    ensures TimeForStreak(7) == 8 && TimeForStreak(15) == 5
  {
    TimeForStreakTable(2);
    TimeForStreakTable(5);
    TimeForStreakTable(7);
    TimeForStreakTable(15);
  }
}
