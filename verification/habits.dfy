/** The habit engine of `src/lib/habits.ts`: one do/undo toggle per habit per
    day, keeping a day streak, the last day done and a stack of done days. */
module Habits {
  import opened Seqs
  import opened Dates
  import Progression

  type Id = string

  datatype Habit = Habit(id: Id, title: string, streak: int, lastDone: Option<Date>, history: seq<Date>, xp: int)

  /** XP a habit grants per completion unless another amount is given. */
  const DefaultHabitXP: int := 5

  /** `createHabit`: `id` stands for `generateId()`. */
  function CreateHabit(id: Id, title: string, xp: int := DefaultHabitXP): (h: Habit)
    ensures h.id == id && h.title == title && h.xp == xp
    ensures h.streak == 0 && h.lastDone == None && h.history == []
    ensures HabitValid(h)
  {
    Habit(id, title, 0, None, [], xp)
  }

  /** `isHabitDoneToday`. */
  predicate IsHabitDoneToday(h: Habit, today: Date)
  {
    h.lastDone == Some(today)
  }

  function Max(a: int, b: int): int
  {
    if a < b then b else a
  }

  /** `history[length - 1] || null`: the last day of the stack, with the empty string falsy. */
  function LastDay(history: seq<Date>): Option<Date>
  {
    if |history| >= 1 && history[|history| - 1] != "" then Some(history[|history| - 1]) else None
  }

  /** The habit after `toggleHabit` on day `today`: an undo when it is already done today,
      otherwise a "do". */
  function Toggled(h: Habit, today: Date, yesterday: Date): Habit
  {
    if IsHabitDoneToday(h, today) then
      var n := |h.history|;
      h.(lastDone := LastDay(if n >= 1 then h.history[..n - 1] else []),
         history := if n >= 1 then h.history[..n - 1] else [],
         streak := Max(0, h.streak - 1))
    else
      h.(streak := if h.lastDone == Some(yesterday) then h.streak + 1 else 1,
         lastDone := Some(today),
         history := h.history + [today])
  }

  /** The XP `toggleHabit` grants: the habit's XP on a "do", nothing on an undo. */
  function ToggleXP(h: Habit, today: Date): int
  {
    if IsHabitDoneToday(h, today) then 0 else h.xp
  }

  /** The habit invariant: `lastDone` is the top of the history stack, and the streak
      is a count of days on the stack. */
  ghost predicate HabitValid(h: Habit)
  {
    h.lastDone == LastDay(h.history) && 0 <= h.streak <= |h.history|
  }

  /** The "do" branch: the streak grows when the habit was done yesterday and restarts
      at 1 otherwise; today becomes the last day and is pushed on the history. */
  lemma DoEffect(h: Habit, today: Date, yesterday: Date)
    requires !IsHabitDoneToday(h, today)
    ensures var t := Toggled(h, today, yesterday);
      && t.streak == (if h.lastDone == Some(yesterday) then h.streak + 1 else 1)
      && t.lastDone == Some(today) && IsHabitDoneToday(t, today)
      && t.history == h.history + [today]
      && t.id == h.id && t.title == h.title && t.xp == h.xp
      && ToggleXP(h, today) == h.xp
  {
  }

  /** The undo branch: pops the history, `lastDone` becomes the former second-to-last
      day (or null), the streak drops by one but not below 0, and no XP moves. */
  lemma UndoEffect(h: Habit, today: Date, yesterday: Date)
    requires IsHabitDoneToday(h, today)
    ensures var t := Toggled(h, today, yesterday);
      && t.history == (if |h.history| >= 1 then h.history[..|h.history| - 1] else [])
      && t.lastDone == (if |h.history| >= 2 && h.history[|h.history| - 2] != "" then Some(h.history[|h.history| - 2]) else None)
      && t.streak == Max(0, h.streak - 1)
      && t.id == h.id && t.title == h.title && t.xp == h.xp
      && ToggleXP(h, today) == 0
  {
  }

  lemma ToggleKeepsValid(h: Habit, today: Date, yesterday: Date)
    requires HabitValid(h) && today != ""
    ensures HabitValid(Toggled(h, today, yesterday))
  {
  }

  /** Toggling flips "done today", provided the day under the top of the stack is not today. */
  lemma ToggleFlipsDoneToday(h: Habit, today: Date, yesterday: Date)
    requires HabitValid(h) && today != ""
    requires |h.history| >= 2 ==> h.history[|h.history| - 2] != today
    ensures IsHabitDoneToday(Toggled(h, today, yesterday), today) == !IsHabitDoneToday(h, today)
  {
  }

  /** An undo right after a "do" restores the history and the last day; it restores the
      whole habit when the streak was continuing (or was 0). */
  lemma DoThenUndo(h: Habit, today: Date, yesterday: Date)
    requires HabitValid(h) && today != "" && !IsHabitDoneToday(h, today)
    ensures var h2 := Toggled(Toggled(h, today, yesterday), today, yesterday);
      && h2.history == h.history && h2.lastDone == h.lastDone
      && (h.lastDone == Some(yesterday) || h.streak == 0 ==> h2 == h)
  {
    var h1 := Toggled(h, today, yesterday);
    assert h1.history[..|h1.history| - 1] == h.history;
  }

  /** Undo does not take XP back, so do, undo, do ends in the same habit as one "do"
      but grants the XP twice. */
  lemma RedoGrantsXPAgain(h: Habit, today: Date, yesterday: Date)
    requires HabitValid(h) && today != "" && !IsHabitDoneToday(h, today)
    requires h.lastDone == Some(yesterday) || h.streak == 0
    ensures var h1 := Toggled(h, today, yesterday);
            var h2 := Toggled(h1, today, yesterday);
            && Toggled(h2, today, yesterday) == h1
            && ToggleXP(h, today) + ToggleXP(h1, today) + ToggleXP(h2, today) == 2 * h.xp
  {
    DoThenUndo(h, today, yesterday);
  }

  /** A new habit toggled on three consecutive days has a streak of 3; toggled on one
      day and then two days later, a streak of 1. */
  lemma StreakOverDays(id: Id, title: string, d0: Date, d1: Date, d2: Date, d3: Date)
    requires d1 != d2 && d2 != d3 && d1 != d3
    ensures var h1 := Toggled(CreateHabit(id, title), d1, d0);
            Toggled(Toggled(h1, d2, d1), d3, d2).streak == 3
            && Toggled(h1, d3, d2).streak == 1
  {
  }

  /** The habit list as `loadHabits` returns it. */
  class HabitStore {
    var habits: seq<Habit>

    constructor ()
      ensures habits == []
    {
      habits := [];
    }

    /** `addHabit`: appends a new habit with the default XP. */
    method AddHabit(id: Id, title: string)
      modifies this
      ensures habits == old(habits) + [CreateHabit(id, title)]
    {
      habits := habits + [CreateHabit(id, title)];
    }

    method DeleteHabit(id: Id)
      modifies this
      ensures habits == Filter(old(habits), (h: Habit) => h.id != id)
      ensures forall i :: 0 <= i < |habits| ==> habits[i].id != id
    {
      habits := Filter(habits, (h: Habit) => h.id != id);
    }

    /** `toggleHabit`: toggles the first habit with that id, in place; an unknown id
        changes nothing. */
    method ToggleHabit(id: Id, today: Date, yesterday: Date, stats: Progression.Stats)
      modifies this, stats
      ensures match FirstIndex(old(habits), (h: Habit) => h.id == id)
              case None => habits == old(habits) && stats.Snapshot() == old(stats.Snapshot())
              case Some(k) =>
                && habits == old(habits)[k := Toggled(old(habits)[k], today, yesterday)]
                && stats.Snapshot() == (if IsHabitDoneToday(old(habits)[k], today) then old(stats.Snapshot())
                                        else Progression.WithXPAdded(old(stats.Snapshot()), old(habits)[k].xp))
    {
      var index := FirstIndex(habits, (h: Habit) => h.id == id);
      if index.None? {
        return;
      }
      var habit := habits[index.value];
      if habit.lastDone == Some(today) {
        var n := |habit.history|;
        habit := habit.(lastDone := if n >= 2 && habit.history[n - 2] != "" then Some(habit.history[n - 2]) else None);
        if n >= 1 {
          habit := habit.(history := habit.history[..n - 1]);
        }
        habit := habit.(streak := Max(0, habit.streak - 1));
        assert habit.history == (if n >= 1 then habits[index.value].history[..n - 1] else []);
      } else {
        if habit.lastDone == Some(yesterday) {
          habit := habit.(streak := habit.streak + 1);
        } else {
          habit := habit.(streak := 1);
        }
        habit := habit.(lastDone := Some(today));
        habit := habit.(history := habit.history + [today]);
        var _ := stats.AddXP(habit.xp);
      }
      habits := habits[index.value := habit];
    }
  }
}
