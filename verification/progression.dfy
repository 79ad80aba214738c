/** The progression accumulator of `src/lib/tasks.ts`: the one stats record
    (total XP, level, day streaks, completion count) that tasks, habits and
    knowledge entries all add XP to. */
module Progression {
  import opened Seqs
  import opened Dates

  /** XP needed per level (`xpToNextLevel`). */
  const XPPerLevel: int := 100

  /** `Math.max(1, Math.floor(totalXP / 100) + 1)`; Dafny's `/` by a positive
      divisor already rounds down, as `Math.floor` does. */
  function CalculateLevel(totalXP: int): (level: int)
    ensures level >= 1
    ensures totalXP >= 0 ==> (level - 1) * XPPerLevel <= totalXP < level * XPPerLevel
    ensures totalXP < XPPerLevel ==> level == 1
  {
    var l := totalXP / XPPerLevel + 1;
    if l < 1 then 1 else l
  }

  /** Level 1 up to 99 XP and for negative totals, level 2 from 100, level 3 from 200. */
  lemma LevelExamples()
    ensures CalculateLevel(0) == 1 && CalculateLevel(99) == 1
    ensures CalculateLevel(100) == 2 && CalculateLevel(150) == 2 && CalculateLevel(200) == 3
    ensures CalculateLevel(-50) == 1 && CalculateLevel(-100) == 1
  {
  }

  /** `totalXP % 100` with JavaScript's `%`, which truncates toward zero. */
  function XPForCurrentLevel(totalXP: int): (r: int)
    ensures -XPPerLevel < r < XPPerLevel
    ensures totalXP >= 0 ==> r >= 0 && totalXP == (CalculateLevel(totalXP) - 1) * XPPerLevel + r
    ensures totalXP < 0 ==> r <= 0 && (totalXP - r) % XPPerLevel == 0
  {
    if totalXP >= 0 then
      assert totalXP == (totalXP / 100) * 100 + totalXP % 100;
      totalXP % XPPerLevel
    else
      var q, m := (-totalXP) / 100, (-totalXP) % 100;
      assert (totalXP + m) % 100 == 0 by {
        assert totalXP + m == -q * 100;
      }
      -m
  }

  datatype TaskStats = TaskStats(
    totalXP: int,
    level: int,
    currentStreak: int,
    longestStreak: int,
    totalCompletedTasks: int,
    lastCompletionDate: Option<Date>)

  /** What `loadStats` returns when nothing is stored. */
  const DefaultStats := TaskStats(0, 1, 0, 0, 0, None)

  /** The record invariant every operation below keeps. */
  ghost predicate Valid(s: TaskStats)
  {
    && s.level == CalculateLevel(s.totalXP)
    && 0 <= s.currentStreak <= s.longestStreak
    && s.totalCompletedTasks >= 0
  }

  function Max(a: int, b: int): int
  {
    if a < b then b else a
  }

  /** The record after `addXP(amount)`. */
  function WithXPAdded(s: TaskStats, amount: int): TaskStats
  {
    s.(totalXP := s.totalXP + amount, level := CalculateLevel(s.totalXP + amount))
  }

  /** The record after `removeXP(amount)`: the total is floored at 0. */
  function WithXPRemoved(s: TaskStats, amount: int): TaskStats
  {
    var t := Max(0, s.totalXP - amount);
    s.(totalXP := t, level := CalculateLevel(t))
  }

  /** The streak fields after a completion dated `today` (the XP part of
      `completeTask` is WithXPAdded). */
  function StreakAfterCompletion(s: TaskStats, today: Date, yesterday: Date): TaskStats
  {
    if s.lastCompletionDate == Some(today) then s
    else
      var streak :=
        if s.lastCompletionDate == Some(yesterday) || s.lastCompletionDate == None
        then s.currentStreak + 1 else 1;
      s.(currentStreak := streak,
         lastCompletionDate := Some(today),
         longestStreak := Max(s.longestStreak, streak))
  }

  /** The record after `completeTask(_, xpValue)` on day `today`. */
  function AfterCompletion(s: TaskStats, xpValue: int, today: Date, yesterday: Date): TaskStats
  {
    var t := WithXPAdded(s, xpValue);
    StreakAfterCompletion(t.(totalCompletedTasks := t.totalCompletedTasks + 1), today, yesterday)
  }

  /** The record after `checkStreakReset` on day `today`; an empty date is falsy and
      counts as no completion. */
  function AfterStreakCheck(s: TaskStats, today: Date, yesterday: Date): TaskStats
  {
    match s.lastCompletionDate
    case None => s
    case Some(d) => if d != "" && d != today && d != yesterday then s.(currentStreak := 0) else s
  }

  lemma DefaultValid()
    ensures Valid(DefaultStats)
  {
  }

  /** Removing XP never drives the total below zero, and the level follows it. */
  lemma RemoveXPFloor(s: TaskStats, amount: int)
    ensures WithXPRemoved(s, amount).totalXP >= 0
    ensures WithXPRemoved(s, amount).totalXP == if amount <= s.totalXP then s.totalXP - amount else 0
    ensures Valid(s) ==> Valid(WithXPRemoved(s, amount))
  {
  }

  lemma AddXPValid(s: TaskStats, amount: int)
    requires Valid(s)
    ensures Valid(WithXPAdded(s, amount))
    ensures s.totalXP >= 0 && amount >= 0 ==> WithXPAdded(s, amount).totalXP >= 0
  {
  }

  /** `addXP(a)` followed by `removeXP(a)` restores the record exactly. */
  lemma AddThenRemoveRestores(s: TaskStats, amount: int)
    requires Valid(s) && s.totalXP >= 0 && amount >= 0
    ensures WithXPRemoved(WithXPAdded(s, amount), amount) == s
  {
  }

  /** A removal larger than the total leaves 0 XP and level 1, not a negative total. */
  lemma RemoveUnderflow(s: TaskStats, amount: int)
    requires amount > s.totalXP
    ensures WithXPRemoved(s, amount).totalXP == 0 && WithXPRemoved(s, amount).level == 1
  {
  }

  /** The streak rule of `completeTask`, with the XP and completion-count updates. */
  lemma CompletionEffect(s: TaskStats, xpValue: int, today: Date, yesterday: Date)
    requires Valid(s)
    ensures var r := AfterCompletion(s, xpValue, today, yesterday);
      && Valid(r)
      && r.totalXP == s.totalXP + xpValue
      && r.totalCompletedTasks == s.totalCompletedTasks + 1
      && r.lastCompletionDate == Some(today)
      && (s.lastCompletionDate == Some(today) ==>
            r.currentStreak == s.currentStreak && r.longestStreak == s.longestStreak)
      && (s.lastCompletionDate != Some(today) && (s.lastCompletionDate == Some(yesterday) || s.lastCompletionDate == None) ==>
            r.currentStreak == s.currentStreak + 1)
      && (s.lastCompletionDate != Some(today) && s.lastCompletionDate != Some(yesterday) && s.lastCompletionDate != None ==>
            r.currentStreak == 1)
      && r.longestStreak >= r.currentStreak
  {
  }

  /** Three completions on consecutive days, starting from a fresh record, give a streak of 3;
      a second completion on the last day leaves it at 3. */
  lemma ConsecutiveDaysStreak(d0: Date, d1: Date, d2: Date, d3: Date, x1: int, x2: int, x3: int, x4: int)
    requires d1 != d2 && d2 != d3 && d1 != d3
    ensures var s1 := AfterCompletion(DefaultStats, x1, d1, d0);
            var s2 := AfterCompletion(s1, x2, d2, d1);
            var s3 := AfterCompletion(s2, x3, d3, d2);
            var s4 := AfterCompletion(s3, x4, d3, d2);
            s3.currentStreak == 3 && s3.longestStreak == 3 && s4.currentStreak == 3
            && s4.totalCompletedTasks == 4 && s4.totalXP == x1 + x2 + x3 + x4
  {
  }

  /** A day without a completion restarts the streak at 1, while the longest streak is kept. */
  lemma GapRestartsStreak(s: TaskStats, xpValue: int, today: Date, yesterday: Date)
    requires Valid(s) && s.lastCompletionDate.Some?
    requires s.lastCompletionDate.value != today && s.lastCompletionDate.value != yesterday
    ensures AfterCompletion(s, xpValue, today, yesterday).currentStreak == 1
    ensures AfterCompletion(s, xpValue, today, yesterday).longestStreak == Max(s.longestStreak, 1)
  {
  }

  /** `checkStreakReset` zeroes the current streak exactly when the last completion is
      neither today nor yesterday, and changes nothing else. */
  lemma StreakCheckEffect(s: TaskStats, today: Date, yesterday: Date)
    ensures var r := AfterStreakCheck(s, today, yesterday);
      && ((s.lastCompletionDate.Some? && s.lastCompletionDate.value != ""
           && s.lastCompletionDate.value != today && s.lastCompletionDate.value != yesterday)
          ==> r == s.(currentStreak := 0))
      && ((s.lastCompletionDate == None || s.lastCompletionDate == Some("")
           || s.lastCompletionDate == Some(today) || s.lastCompletionDate == Some(yesterday))
          ==> r == s)
      && (Valid(s) ==> Valid(r))
  {
  }

  /** The lazy reset never changes what the next completion records: completing a task
      after `checkStreakReset` gives the same record as completing it without the check. */
  lemma StreakCheckInvisibleToCompletion(s: TaskStats, xpValue: int, today: Date, yesterday: Date)
    ensures AfterCompletion(AfterStreakCheck(s, today, yesterday), xpValue, today, yesterday)
         == AfterCompletion(s, xpValue, today, yesterday)
  {
  }

  lemma StreakCheckIdempotent(s: TaskStats, today: Date, yesterday: Date)
    ensures AfterStreakCheck(AfterStreakCheck(s, today, yesterday), today, yesterday)
         == AfterStreakCheck(s, today, yesterday)
  {
  }

  /** The stats singleton; every XP-granting action of the application goes through it. */
  class Stats {
    var totalXP: int
    var level: int
    var currentStreak: int
    var longestStreak: int
    var totalCompletedTasks: int
    var lastCompletionDate: Option<Date>

    function Snapshot(): TaskStats
      reads this
    {
      TaskStats(totalXP, level, currentStreak, longestStreak, totalCompletedTasks, lastCompletionDate)
    }

    /** The record `loadStats` yields when nothing is stored. */
    constructor ()
      ensures Snapshot() == DefaultStats && Valid(Snapshot())
    {
      totalXP, level := 0, 1;
      currentStreak, longestStreak := 0, 0;
      totalCompletedTasks := 0;
      lastCompletionDate := None;
    }

    method AddXP(amount: int) returns (r: TaskStats)
      modifies this
      ensures Snapshot() == WithXPAdded(old(Snapshot()), amount)
      ensures totalXP == old(totalXP) + amount && level == CalculateLevel(totalXP)
      ensures r == Snapshot()
    {
      totalXP := totalXP + amount;
      level := CalculateLevel(totalXP);
      r := Snapshot();
    }

    method RemoveXP(amount: int) returns (r: TaskStats)
      modifies this
      ensures Snapshot() == WithXPRemoved(old(Snapshot()), amount)
      ensures totalXP >= 0 && level == CalculateLevel(totalXP)
      ensures r == Snapshot()
    {
      totalXP := Max(0, totalXP - amount);
      level := CalculateLevel(totalXP);
      r := Snapshot();
    }

    /** The stats half of `completeTask`. */
    method RecordCompletion(xpValue: int, today: Date, yesterday: Date) returns (r: TaskStats)
      modifies this
      ensures Snapshot() == AfterCompletion(old(Snapshot()), xpValue, today, yesterday)
      ensures old(Valid(Snapshot())) ==> Valid(Snapshot())
      ensures r == Snapshot()
    {
      totalXP := totalXP + xpValue;
      level := CalculateLevel(totalXP);
      totalCompletedTasks := totalCompletedTasks + 1;
      if lastCompletionDate != Some(today) {
        if lastCompletionDate == Some(yesterday) || lastCompletionDate == None {
          currentStreak := currentStreak + 1;
        } else {
          currentStreak := 1;
        }
        lastCompletionDate := Some(today);
        if currentStreak > longestStreak {
          longestStreak := currentStreak;
        }
      }
      r := Snapshot();
    }

    method CheckStreakReset(today: Date, yesterday: Date) returns (r: TaskStats)
      modifies this
      ensures Snapshot() == AfterStreakCheck(old(Snapshot()), today, yesterday)
      ensures old(Valid(Snapshot())) ==> Valid(Snapshot())
      ensures r == Snapshot()
    {
      if lastCompletionDate.Some? && lastCompletionDate.value != "" {
        var d := lastCompletionDate.value;
        if d != today && d != yesterday {
          currentStreak := 0;
        }
      }
      r := Snapshot();
    }
  }
}
