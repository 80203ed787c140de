/**
 * The day-streak rule of the quest screen. Timestamps are integer
 * milliseconds since the epoch; a "day" is a window of 86 400 000 ms
 * elapsed since the previous completion.
 */
module JourneyStreak {
  import opened Wrappers

  /** 1000 * 60 * 60 * 24 milliseconds. */
  const DayMs: int := 86400000

  /**
   * Math.floor((now - last) / DayMs). Dafny's `/` with a positive divisor
   * rounds toward negative infinity, as `Math.floor` does.
   */
  function DayDiff(last: int, now: int): (d: int)
    ensures DayMs * d <= now - last < DayMs * (d + 1)
  {
    (now - last) / DayMs
  }

  /**
   * updateStreak: the streak after a completion at `now`, given the streak and
   * the completion timestamp recorded before it (if any).
   */
  function NextStreak(streak: nat, lastCompletion: Option<int>, now: int): (r: nat)
    ensures lastCompletion.None? ==> r == 1
    ensures r == 1 || r == streak || r == streak + 1
  {
    match lastCompletion
    case None => 1
    case Some(last) =>
      var dayDiff := DayDiff(last, now);
      if dayDiff == 1 then streak + 1
      else if dayDiff > 1 then 1
      else streak
  }

  /** The rule stated on elapsed time: under a day keeps, one to two days extends, two or more resets. */
  lemma NextStreakByElapsedTime(streak: nat, last: int, now: int)
    ensures now - last < DayMs ==> NextStreak(streak, Some(last), now) == streak
    ensures DayMs <= now - last < 2 * DayMs ==> NextStreak(streak, Some(last), now) == streak + 1
    ensures 2 * DayMs <= now - last ==> NextStreak(streak, Some(last), now) == 1
  {
    var d := DayDiff(last, now);
    if now - last < DayMs {
      assert DayMs * d < DayMs * 1;
    } else if now - last < 2 * DayMs {
      assert DayMs * 0 < DayMs * d + DayMs;
      assert DayMs * d < DayMs * 2;
    } else {
      assert DayMs * 1 < DayMs * (d + 1);
    }
  }

  /** The first completion starts a streak of one, whatever the stored count. */
  lemma FirstCompletionStartsStreak(streak: nat, now: int)
    ensures NextStreak(streak, None, now) == 1
  {
  }

  /**
   * A streak is at least one after any completion, and grows by at most one,
   * provided a recorded completion already carries a streak of at least one.
   */
  lemma NextStreakBounds(streak: nat, lastCompletion: Option<int>, now: int)
    requires lastCompletion.Some? ==> streak >= 1
    ensures 1 <= NextStreak(streak, lastCompletion, now) <= streak + 1
  {
  }

  /**
   * Completions one day apart, twice in a row from a fresh start, give a
   * streak of two; a later completion after a three-day gap resets it to one.
   */
  lemma StreakScenario(t0: int)
    ensures NextStreak(0, None, t0) == 1
    ensures NextStreak(1, Some(t0), t0 + DayMs) == 2
    ensures NextStreak(2, Some(t0 + DayMs), t0 + 4 * DayMs) == 1
  {
    NextStreakByElapsedTime(1, t0, t0 + DayMs);
    NextStreakByElapsedTime(2, t0 + DayMs, t0 + 4 * DayMs);
  }

  /**
   * The windows are elapsed time, not calendar days: completions at 23:00 and
   * 09:00 the next (UTC) day are ten hours apart and leave the streak unchanged.
   */
  lemma ConsecutiveCalendarDaysMayNotExtend(streak: nat)
    ensures var last := 23 * 3600000;
            var now := DayMs + 9 * 3600000;
            last / DayMs + 1 == now / DayMs && NextStreak(streak, Some(last), now) == streak
  {
    NextStreakByElapsedTime(streak, 23 * 3600000, DayMs + 9 * 3600000);
  }
}
