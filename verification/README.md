# ClearMind core, modelled in Dafny

ClearMind is a browser "life OS" dashboard. Its logic lives in `src/lib`. Every
module keeps a list or record in browser storage, and one stats record is the progression
accumulator: tasks, habits and finished knowledge entries all add XP to it, and its level is
derived from the total.

This project models that logic:

| file | module | models |
|---|---|---|
| `seqs.dfy` | `Seqs` | `filter`, `findIndex`/`find` and subsequences, shared by the others |
| `dates.dfy` | `Dates` | `YYYY-MM-DD` dates as strings: `startsWith` and string `<=` |
| `progression.dfy` | `Progression` | the stats record: levels, `addXP`, `removeXP`, the streak rules of `completeTask` and `checkStreakReset` |
| `tasks.dfy` | `Tasks` | tasks, the completion log, `getTodaysTasks`, `isTaskCompletedToday`, `getTodaysXP` |
| `wissen.dfy` | `Wissen` | knowledge/media entries and their status transitions, which grant or revoke XP |
| `habits.dfy` | `Habits` | the daily do/undo toggle with its streak and history stack |
| `garden.dfy` | `Garden` | the focus garden: watering grows the last growing plant through five stages |
| `decisions.dfy` | `Decisions` | weighted pro/contra scoring and the saved decisions |
| `links.dfy` | `Links` | link groups: add, remove, collapse, delete, reorder |
| `focus.dfy` | `Focus` | the focus session, the weekly focus, the daily reflection, the time-of-day hints |
| `planning.dfy` | `Planning` | `generateDailyPlan`: the time blocks of a day chosen by task priority |
| `challenges.dfy` | `Challenges` | the 32-bit string hash of the date that picks the daily challenge |
| `journal.dfy` | `Journal` | the journal, newest entry first |

Each stored collection is a class with `seq` fields, and the stats record is the class
`Progression.Stats`. Each store method states its new state as a function of the old one.
The lemmas about those functions carry the properties: invariants, round trips, and "nothing
else changes". Methods that also change the stats take the one `Stats` object as a
parameter. The clock, the id generator and `Math.random` become parameters:
- `today` and `yesterday` are the UTC dates `getToday` and the `yesterday` computation give;
- `dayOfWeek` and `hour` are the local weekday and hour;
- `now` is an ISO timestamp;
- `id`/`newId` are generated ids;
- `roll` is the random species index.

JavaScript semantics are written out where they matter:
- `%` truncates toward zero (`XPForCurrentLevel`);
- `<<` and `&` wrap to signed 32 bits (`Wrap32`);
- `splice` clamps its start (`SpliceStart`);
- the empty string is falsy (`HasDueDate`, `LastDay`, `AfterStreakCheck`);
- `{ ...x, ...updates }` with a `Partial<T>` is a patch datatype with one `Option` per field (`Merge`).

Where the written description of the application and the code disagree, the model follows
the code:
- The planner's first block starts at 09:00 only when there is a `hoch` or `mittel` task.
  Otherwise the day starts with lunch at 13:00 (`Planning.PlanShape`).
- `saveTagesabschluss` replaces the entry dated with the current day, not the entry with the
  saved entry's own date (`Focus.Upserted`, `Focus.SaveOtherDateReplacesToday`).
- Reopening a finished knowledge entry revokes the XP of the entry as stored at that moment,
  not the XP it was granted (`Wissen.RevokeFollowsEditedDifficulty`).
- Undoing a habit does not take its XP back (`Habits.RedoGrantsXPAgain`).

Until the link store holds a list, every `loadLinks` call builds the default groups with new
ids. Adding or removing a link and collapsing a group by an id from an earlier load then find
no group and store nothing (`Links.FirstRunMissesShownGroup`). Adding, deleting or reordering
groups stores a list and ends this.

`deleteLinkGroup` does not renumber, so a later `addLinkGroup` can repeat an `order` value
(`Links.DeleteThenAddRepeatsOrder`). The links widget shows the groups in list order and never
sorts by `order`, so nothing visible changes; the next reorder renumbers the list.

## Model

| member | source | states |
|---|---|---|
| Progression.CalculateLevel | src/lib/tasks.ts:164-166 | the level is at least 1; for a non-negative total it is the one level L with 100(L-1) <= total < 100L; below 100 XP it is 1 |
| Progression.LevelExamples | src/test/tasks.test.ts:5-28 | level 1 at 0, 99, -50 and -100 XP; level 2 at 100 and 150; level 3 at 200 |
| Progression.XPForCurrentLevel | src/lib/tasks.ts:168-170 | truncating `%`: strictly between -100 and 100; for a non-negative total, total = 100(level-1) + result; for a negative total it is <= 0 and congruent to the total |
| Progression.DefaultValid | src/lib/tasks.ts:150-157 | the fallback record (0 XP, level 1, no streak) satisfies the record invariant: level matches XP, 0 <= current <= longest streak |
| Progression.RemoveXPFloor | src/lib/tasks.ts:184-190 | after removeXP the total is max(0, total - amount), never negative, and the invariant is kept |
| Progression.AddXPValid | src/lib/tasks.ts:176-182 | addXP keeps the invariant; non-negative XP plus a non-negative amount stays non-negative |
| Progression.AddThenRemoveRestores | src/lib/tasks.ts:176-190 | addXP(a) then removeXP(a) restores a valid record with non-negative XP exactly |
| Progression.RemoveUnderflow | src/lib/tasks.ts:186-187 | removing more than the total leaves 0 XP and level 1 |
| Progression.CompletionEffect | src/lib/tasks.ts:200-219 | a completion adds its XP and one to the count and records today; same day keeps the streak, yesterday or no date extends it, any other date restarts it at 1; longest >= current; invariant kept |
| Progression.ConsecutiveDaysStreak | src/lib/tasks.ts:204-219 | completions on three consecutive days give a streak of 3 and a longest streak of 3; a fourth on the same day keeps 3 and counts 4 completions and all XP |
| Progression.GapRestartsStreak | src/lib/tasks.ts:209-213 | a last completion neither today nor yesterday restarts the streak at 1 and keeps the longest streak |
| Progression.StreakCheckEffect | src/lib/tasks.ts:225-240 | checkStreakReset zeroes the current streak exactly when a non-empty last date is neither today nor yesterday, changes nothing else, and keeps the invariant |
| Progression.StreakCheckInvisibleToCompletion | src/lib/tasks.ts:204-240 | completing after checkStreakReset records the same stats as completing without it |
| Progression.StreakCheckIdempotent | src/lib/tasks.ts:234-237 | running checkStreakReset twice is the same as running it once |
| Progression.Stats.constructor | src/lib/tasks.ts:145-158 | a fresh record is the loadStats fallback and is valid |
| Progression.Stats.AddXP | src/lib/tasks.ts:176-182 | adds the amount, recomputes the level, returns the new record |
| Progression.Stats.RemoveXP | src/lib/tasks.ts:184-190 | subtracts with a floor at 0, recomputes the level, returns the new record |
| Progression.Stats.RecordCompletion | src/lib/tasks.ts:197-222 | the stats half of completeTask, stepwise, equals the completion function and keeps the invariant |
| Progression.Stats.CheckStreakReset | src/lib/tasks.ts:225-240 | the stepwise reset equals the streak-check function and keeps the invariant |
| Tasks.CreateTask | src/lib/tasks.ts:74-95 | the new task has the given fields, priority `mittel` by default, no subtasks, not archived, an empty note |
| Tasks.MergeLaws | src/lib/tasks.ts:64 | merging an empty patch changes nothing; merging the same patch twice equals merging it once |
| Tasks.TodaysTasksSpec | src/lib/tasks.ts:119-143 | today's tasks are a subsequence of the input with no archived task, no due date after today, and weekly undated tasks only on a Monday; every task meeting the rule is included (`Tasks.TodaysTasks`, the model of getTodaysTasks) |
| Tasks.OverdueStaysVisible | src/lib/tasks.ts:130-137 | a task visible today by its due date stays visible on every later day, whatever its repeat rule and weekday |
| Tasks.FutureTaskHidden | src/lib/tasks.ts:130-137 | a task with a due date after today is hidden, whatever its repeat rule |
| Tasks.IsTaskCompletedToday | src/lib/tasks.ts:114-117 | true exactly when some logged completion has the task id and a timestamp starting with today |
| Tasks.XPOfTask | src/lib/tasks.ts:246-247 | 0 for an unknown id, otherwise the xp of the first task with that id |
| Tasks.SumXPAppend | src/lib/tasks.ts:245-248 | the XP sum of two logs joined is the sum of their sums |
| Tasks.SumXPNonnegative | src/lib/tasks.ts:245-248 | with non-negative task XP, the sum is non-negative |
| Tasks.TodaysXPAppend | src/lib/tasks.ts:242-249 | logging one more completion raises today's XP by that task's XP when it is from today, and by nothing otherwise (`Tasks.TodaysXP`, the model of getTodaysXP) |
| Tasks.NoCompletionTodayNoXP | src/lib/tasks.ts:242-249 | a log without a completion from today is worth 0 XP today |
| Tasks.TodaysXPNonnegative | src/lib/tasks.ts:242-249 | with non-negative task XP, today's XP is non-negative |
| Tasks.CompletedAfterLogging | src/lib/tasks.ts:192-195 | after completeTask logs a completion stamped today, the task counts as completed today, and no other task changes status |
| Tasks.TaskStore.constructor | src/lib/tasks.ts:45-52 | nothing stored: no tasks and no completions |
| Tasks.TaskStore.SaveTask | src/lib/tasks.ts:54-58 | appends the task; the log is untouched |
| Tasks.TaskStore.UpdateTask | src/lib/tasks.ts:60-67 | merges the patch into the first task with the id and changes nothing when there is none |
| Tasks.TaskStore.DeleteTask | src/lib/tasks.ts:69-72 | keeps exactly the tasks with another id, in order |
| Tasks.TaskStore.CompleteTask | src/lib/tasks.ts:192-223 | appends the completion to the log, leaves the tasks alone, and updates the stats by the completion rule |
| Wissen.CreateWissenEntry | src/lib/wissen.ts:55-80 | a new entry has no XP flag and the given category, status (default Medien, Geplant) and difficulty |
| Wissen.XPForEntry | src/lib/wissen.ts:82-93 | between 0 and 30, and positive exactly for media or for a project with a difficulty |
| Wissen.SameStatusNoXP | src/lib/wissen.ts:107 | an update that keeps the status moves no XP and stores the merged entry |
| Wissen.LeavingFinishedRevokes | src/lib/wissen.ts:109-113 | leaving `Beendet` with the flag revokes the stored entry's XP and clears the flag |
| Wissen.EnteringFinishedGrants | src/lib/wissen.ts:116-122 | entering `Beendet` without the flag grants the merged entry's XP and sets the flag when that XP is positive, otherwise nothing |
| Wissen.TransitionKeepsFields | src/lib/wissen.ts:101-125 | apart from the flag, the stored entry is the merged one (`Wissen.StatusTransition`, the model of the status branch of updateWissenEntry) |
| Wissen.FlagOnlyWhenFinished | src/lib/wissen.ts:107-123 | an entry flagged only while `Beendet` stays so after any edit-form update |
| Wissen.FinishUnfinishRoundTrip | src/lib/wissen.ts:107-123 | finishing an entry and reopening it restores both the entry and the stats; finishing again grants the XP again |
| Wissen.RevokeFollowsEditedDifficulty | src/lib/wissen.ts:109-111 | a project finished as Klein (+10) and edited to Anspruchsvoll while finished revokes 30 on reopening |
| Wissen.RunningMedia | src/lib/wissen.ts:130-134 | at most 3 entries, all running media, a subsequence of the input, and the prefix of the filtered list of length min(3, number of running media): exactly the first three when there are more |
| Wissen.WissenStore.constructor | src/lib/wissen.ts:25-32 | nothing stored: no entries |
| Wissen.WissenStore.SaveWissenEntry | src/lib/wissen.ts:38-42 | prepends the entry; no XP moves |
| Wissen.WissenStore.DeleteWissenEntry | src/lib/wissen.ts:44-53 | drops every entry with the id and revokes the first one's XP when it holds the flag |
| Wissen.WissenStore.UpdateWissenEntry | src/lib/wissen.ts:95-128 | None and nothing changed for an unknown id; otherwise stores and returns the transition's entry and applies its XP effect to the stats |
| Habits.CreateHabit | src/lib/habits.ts:28-37 | the given title and XP (5 by default), streak 0, never done, empty history; the habit invariant holds |
| Habits.DoEffect | src/lib/habits.ts:65-79 | a "do" extends the streak when done yesterday and restarts it at 1 otherwise, pushes today, marks it done today, grants the habit's XP (`Habits.Toggled`, the model of toggleHabit; done today is `Habits.IsHabitDoneToday`) |
| Habits.UndoEffect | src/lib/habits.ts:59-64 | an undo pops the history, takes the former second-to-last day (or null) as last day, lowers the streak with a floor at 0, grants nothing |
| Habits.ToggleKeepsValid | src/lib/habits.ts:50-83 | toggling keeps "last day is the top of the history, 0 <= streak <= history length" |
| Habits.ToggleFlipsDoneToday | src/lib/habits.ts:57-79 | toggling flips whether the habit is done today, unless today also sits under the top of the stack |
| Habits.DoThenUndo | src/lib/habits.ts:59-79 | do then undo restores history and last day, and the whole habit when the streak was continuing or 0 |
| Habits.RedoGrantsXPAgain | src/lib/habits.ts:59-79 | do, undo, do ends like a single do but grants the XP twice |
| Habits.StreakOverDays | src/lib/habits.ts:71-75 | three consecutive days give a streak of 3; a skipped day restarts at 1 |
| Habits.HabitStore.constructor | src/lib/habits.ts:15-22 | nothing stored: no habits |
| Habits.HabitStore.AddHabit | src/lib/habits.ts:39-43 | appends a new habit with the default XP |
| Habits.HabitStore.DeleteHabit | src/lib/habits.ts:45-48 | keeps exactly the habits with another id |
| Habits.HabitStore.ToggleHabit | src/lib/habits.ts:50-83 | toggles the first habit with the id in place and adds its XP on a "do"; an unknown id changes nothing |
| Garden.NextStage | src/lib/garden.ts:103-108 | each stage but blooming moves exactly one rank on; blooming stays |
| Garden.LastActiveIndex | src/lib/garden.ts:58-85 | the last plant that is not blooming, with all later ones blooming; none exactly when every plant blooms |
| Garden.WaterCounts | src/lib/garden.ts:52-114 | evolved <= watered <= 1, and nothing is watered exactly for a full garden of 12 or more blooming plants |
| Garden.OnlyTargetChanges | src/lib/garden.ts:84-110 | the garden never shrinks; every plant but the target, every blooming one included, is unchanged |
| Garden.StagesMonotone | src/lib/garden.ts:99-109 | no stage goes back, each advances by at most one, and an advance is reported as an evolution |
| Garden.CarryOver | src/lib/garden.ts:88-109 | for an existing growing plant: at or over the stage threshold (25/50/75/100) the target advances and keeps the excess; below it the minutes add up (`Garden.Grow` inside `Garden.Watered`, the model of waterGarden) |
| Garden.AutoPlant | src/lib/garden.ts:58-109 | with nothing growing and fewer than 12 plants, one seed of the rolled species with the new id is appended and watered: a seed with the minutes as progress below 25, a sprout with the excess from 25, counts {1, 0} or {1, 1} |
| Garden.GrowsByAtMostOne | src/lib/garden.ts:60-82 | at most one seed is planted, of a known species and with the new id, only when nothing was growing and the garden is under 12; never past 12 |
| Garden.FullGardenUnchanged | src/test/garden_refactor.test.ts:68-83 | 12 blooming plants: watering changes nothing and reports 0 watered |
| Garden.EmptyGardenSequence | src/test/garden_refactor.test.ts:39-66 | an empty garden watered 20 minutes holds one seed at 20; 10 more make it a sprout at 5 with one evolution |
| Garden.GardenStore.constructor | src/lib/garden.ts:24-31 | nothing stored: no plants |
| Garden.GardenStore.PlantSeed | src/lib/garden.ts:37-50 | appends and returns a seed with no progress |
| Garden.GardenStore.WaterGarden | src/lib/garden.ts:52-114 | the stepwise watering equals `Garden.Watered`, garden and counts |
| Decisions.CalculateResult | src/lib/decisions.ts:23-45 | the scores are the weight sums; pro exactly when pro > contra, contra exactly when contra > pro, neutral exactly on a tie; the text is the verdict's |
| Decisions.ResultTextDistinct | src/lib/decisions.ts:33-42 | the three result texts differ, so the text determines the verdict |
| Decisions.SumWeightsAppend | src/lib/decisions.ts:27-28 | the weight sum of joined lists is the sum of the sums |
| Decisions.SumWeightsBounds | src/lib/decisions.ts:27-28 | with weights 1 to 5, a side scores between its argument count and five times it |
| Decisions.ProArgumentHelps | src/lib/decisions.ts:27-42 | adding a pro argument of positive weight to a tie or a pro verdict yields pro |
| Decisions.ContraArgumentHelps | src/lib/decisions.ts:27-42 | adding a contra argument of positive weight to a tie or a contra verdict yields contra |
| Decisions.EmptyIsNeutral | src/lib/decisions.ts:39-42 | no arguments: 0 to 0, neutral |
| Decisions.WeightedExample | src/lib/decisions.ts:27-35 | pros weighted 3 and 2 against a contra of 4: 5 to 4, pro |
| Decisions.DecisionStore.constructor | src/lib/decisions.ts:47-54 | nothing stored: no decisions |
| Decisions.DecisionStore.SaveDecision | src/lib/decisions.ts:56-60 | prepends the decision |
| Decisions.DecisionStore.DeleteDecision | src/lib/decisions.ts:62-65 | keeps exactly the decisions with another id, in order |
| Links.DefaultLinks | src/lib/links.ts:34-71 | three open groups numbered 0 to 2, with 2, 1 and 1 links |
| Links.Loaded | src/lib/links.ts:22-28 | the stored list when there is one, otherwise three open numbered default groups |
| Links.FirstRunMissesShownGroup | src/lib/links.ts:22-28 | while nothing is stored, a default group id from an earlier load is missing from a load with new ids, so adding or removing a link and toggling by it change nothing |
| Links.UpdateFirst | src/lib/links.ts:91-92 | the list keeps its length |
| Links.AddKeepsNumbered | src/lib/links.ts:73-87 | addLinkGroup keeps the old groups unchanged and appends an empty open group with the given id whose order is the previous count; a list whose orders are its positions stays so |
| Links.DeleteThenAddRepeatsOrder | src/lib/links.ts:73-113 | deleting the first group of a numbered list and then adding one leaves the last two groups with the same order |
| Links.UpdateFirstSpec | src/lib/links.ts:89-123 | only the first group with the id changes; with no such group nothing changes |
| Links.ToggleTwice | src/lib/links.ts:115-123 | toggling a group's collapse twice restores the list (`Links.CollapseToggled`, the model of toggleGroupCollapse) |
| Links.AddThenRemoveLink | src/lib/links.ts:89-107 | adding a link with a fresh id and removing it by that id restores the list (`Links.LinkAdded` and `Links.LinkRemoved`, the models of addLinkToGroup and removeLinkFromGroup) |
| Links.DeleteSpec | src/lib/links.ts:109-113 | the deleted id is gone; every other group stays, in order, with its order value |
| Links.SpliceStart | src/lib/links.ts:127-128 | the splice position lies in [0, length] and is the index itself when in range |
| Links.ReorderPermutes | src/lib/links.ts:125-132 | reorderGroups keeps the same groups (as a multiset, ignoring order values), renumbers them by position, and puts the moved group at the clamped target (`Links.Reordered`, the model of reorderGroups) |
| Links.ReorderRoundTrip | src/components/LinksWidget.tsx:65-69 | on a numbered list, moving from f to t and back from t to f restores it |
| Links.MoveDownSwaps | src/components/LinksWidget.tsx:65-69 | moving group i down by one swaps it with its neighbour, renumbers both, and leaves the rest in place |
| Links.LinkStore.constructor | src/lib/links.ts:22-28 | nothing stored |
| Links.LinkStore.LoadLinks | src/lib/links.ts:22-28 | the stored list, or while nothing is stored the default groups with this call's ids |
| Links.LinkStore.AddLinkGroup | src/lib/links.ts:73-87 | the loaded list after addLinkGroup, returned and stored |
| Links.LinkStore.AddLinkToGroup | src/lib/links.ts:89-97 | the link appended to the first loaded group with the id and the list returned; stored exactly when such a group exists |
| Links.LinkStore.RemoveLinkFromGroup | src/lib/links.ts:99-107 | the group's links with that id dropped and the list returned; stored exactly when the group exists |
| Links.LinkStore.DeleteLinkGroup | src/lib/links.ts:109-113 | the loaded groups with that id dropped, returned and stored |
| Links.LinkStore.ToggleGroupCollapse | src/lib/links.ts:115-123 | the first matching group's collapse flag flipped and the list returned; stored exactly when the group exists |
| Links.LinkStore.ReorderGroups | src/lib/links.ts:125-132 | the reorder function's list of the loaded groups, returned and stored |
| Links.SpliceAndRenumber | src/lib/links.ts:127-129 | the two splices and the renumbering loop give the reorder function's list |
| Focus.StartedSession | src/lib/focus.ts:24-33 | an active session started now with the given (default 25) duration and task |
| Focus.StoppedSession | src/lib/focus.ts:35-43 | inactive, no start time, 25 minutes, no task: the default session, whatever the stopped session's duration was |
| Focus.UpsertSpec | src/lib/focus.ts:70-80 | with an entry dated today the first such entry is replaced in place; without one the entry is prepended (`Focus.Upserted`, the model of saveTagesabschluss) |
| Focus.SaveTodayIdempotent | src/lib/focus.ts:70-86 | saving today's entry makes today reflected, and saving it again changes nothing |
| Focus.SaveOtherDateReplacesToday | src/lib/focus.ts:72-75 | an entry dated another day overwrites today's, so today loses its reflection |
| Focus.KontextHinweise | src/lib/focus.ts:89-112 | one or two hints, one exactly from 9 to 12 and from 14 to 17 |
| Focus.HintsByDayPart | src/lib/focus.ts:93-109 | the hints depend only on the time-of-day bucket; the reflection reminder appears exactly from 20:00 to before 06:00 |
| Focus.HintsOfDayPart | src/lib/focus.ts:93-109 | the hints at an hour are the hints of its time-of-day bucket |
| Focus.ReminderOnlyAtNight | src/lib/focus.ts:106-109 | the reflection reminder is among a bucket's hints exactly for the night bucket |
| Focus.FocusStore.constructor | src/lib/focus.ts:12-18 | nothing stored: the default session, no weekly focus, no reflections |
| Focus.FocusStore.StartFocus | src/lib/focus.ts:24-33 | stores and returns the started session; nothing else changes |
| Focus.FocusStore.StopFocus | src/lib/focus.ts:35-43 | stores and returns the stopped session; nothing else changes |
| Focus.FocusStore.SaveWochenfokus | src/lib/focus.ts:50-52 | stores the text; nothing else changes |
| Focus.FocusStore.SaveTagesabschluss | src/lib/focus.ts:70-80 | the reflections after the upsert keyed on today |
| Focus.FocusStore.HasTagesabschlussToday | src/lib/focus.ts:82-86 | true exactly when some reflection is dated today |
| Planning.Advance | src/lib/planning.ts:26-30 | the minutes since midnight grow by the duration, and minutes are carried into hours |
| Planning.DecimalString | src/lib/planning.ts:23 | one digit below 10, two from 10 to 99 |
| Planning.Pad2 | src/lib/planning.ts:23 | two characters below 100 |
| Planning.ClockText | src/lib/planning.ts:23-32 | "HH:MM", five characters with the colon third, for hours and minutes below 100 |
| Planning.DigitRoundTrip | src/lib/planning.ts:23 | a digit character has the value of its digit |
| Planning.DecimalStringValue | src/lib/planning.ts:23 | `toString()` consists of decimal digits that spell the number |
| Planning.Pad2Value | src/lib/planning.ts:23 | padding with a leading zero keeps the value, below 100 |
| Planning.ClockTextValue | src/lib/planning.ts:23-32 | the two fields of "HH:MM" spell the hour and the minute |
| Planning.RunSteps | src/lib/planning.ts:22-34 | one block per addBlock call |
| Planning.RunChains | src/lib/planning.ts:22-34 | each block starts where the previous ended and lasts its duration; minutes stay in [0, 60); the clock ends at start + total duration |
| Planning.RunLabels | src/lib/planning.ts:22-34 | block i carries the activity and type of the i-th addBlock call |
| Planning.ContinueAppend | src/lib/planning.ts:22-34 | adding the blocks of one list of calls and then another equals adding the joined list |
| Planning.RunWellFormed | src/lib/planning.ts:22-34 | calls of positive duration from a normalised clock give chained, normalised blocks starting at that clock |
| Planning.MorningShape | src/lib/planning.ts:36-48 | the morning has 2 blocks for high, 1 for a medium and 1 more for a second one, at most 210 minutes, all positive |
| Planning.SumDurationsAppend | src/lib/planning.ts:22-34 | the durations of joined step lists add |
| Planning.HighShape | src/lib/planning.ts:36-40 | with a hoch task: a 90-minute and a 15-minute block, 105 minutes in all; else none |
| Planning.MediumShape | src/lib/planning.ts:43-48 | one 60-minute block for a mittel task and one 45-minute block more for a second, all positive; else none |
| Planning.MorningEndsBeforeLunch | src/lib/planning.ts:19-51 | the morning ends by 12:30, so the lunch check always passes |
| Planning.PlanSplit | src/lib/planning.ts:9-67 | `Planning.Plan`, the model of generateDailyPlan, is the morning from 09:00, lunch 13:00 - 13:30, then the afternoon from 13:30 |
| Planning.MorningEdges | src/lib/planning.ts:18-48 | a non-empty morning starts at 09:00 and its last block ends before 13:00 |
| Planning.AfternoonLast | src/lib/planning.ts:58-64 | the afternoon ends with the 15-minute wrap-up admin block |
| Planning.AfternoonShape | src/lib/planning.ts:58-64 | one admin block for low-priority tasks, then the wrap-up |
| Planning.PlanShape | src/lib/planning.ts:9-67 | block count; lunch right after the morning; start 09:00 with a morning block, else 13:00; last block the 15-minute wrap-up |
| Planning.DayChained | src/lib/planning.ts:50-64 | joining chained morning and afternoon blocks around lunch keeps them chained apart from lunch |
| Planning.PlanChained | src/lib/planning.ts:9-67 | every block lasts a positive time and ends normalised; each starts where the previous ended, except lunch |
| Planning.PlanBlocksByPriority | src/lib/planning.ts:14-61 | deep work and pause first exactly with a hoch task; project work and follow-up for mittel tasks; admin before the wrap-up exactly with a niedrig or unprioritised task; titles joined by `Planning.JoinTitles` |
| Planning.OneOfEachSteps | src/lib/planning.ts:14-64 | one task per priority gives deep work, pause and project work in the morning, admin and wrap-up in the afternoon |
| Planning.OneOfEach | src/lib/planning.ts:9-67 | one task per priority: 09:00 - 10:30, 10:45, 11:45, lunch, 14:15, 14:30 |
| Planning.AddBlock | src/lib/planning.ts:22-34 | the carry loop yields the advanced clock and appends the block from the old to the new clock |
| Planning.HighBlocks | src/lib/planning.ts:36-40 | the deep-work section appends exactly the blocks of its calls to the schedule |
| Planning.MediumBlocks | src/lib/planning.ts:43-48 | the project-work section appends exactly the blocks of its calls |
| Planning.AdminBlocks | src/lib/planning.ts:58-61 | the admin section appends exactly the blocks of its call |
| Planning.MorningBlocks | src/lib/planning.ts:18-48 | the stepwise morning equals the morning run from 09:00 |
| Planning.AfternoonBlocks | src/lib/planning.ts:58-64 | the stepwise afternoon appends the afternoon run |
| Planning.GenerateDailyPlan | src/lib/planning.ts:9-67 | the stepwise planner returns exactly `Planning.Plan` |
| Challenges.Wrap32 | src/lib/challenges.ts:22-23 | a signed 32-bit value, equal to the input when it is in range |
| Challenges.Wrap32Shift | src/lib/challenges.ts:22-23 | adding a multiple of 2^32 does not change the 32-bit value |
| Challenges.HashStepIsTimes31 | src/lib/challenges.ts:22-23 | one hash step is 31a + code, wrapped to 32 bits |
| Challenges.DateHash | src/lib/challenges.ts:21-24 | the hash is a signed 32-bit value |
| Challenges.DateHashIsPolynomial | src/lib/challenges.ts:21-24 | the hash is the base-31 polynomial of the character codes wrapped once to 32 bits |
| Challenges.ChallengeIndex | src/lib/challenges.ts:25 | the index is within the 15 challenges |
| Challenges.DailyChallenge | src/lib/challenges.ts:19-27 | the result is one of the 15 challenges, the one at the index |
| Challenges.SingleCharacter | src/lib/challenges.ts:21-25 | a one-character string hashes to its code and picks challenge code % 15 |
| Challenges.CenturyPrefix | src/lib/challenges.ts:21-24 | "202" hashes to 50·961 + 48·31 + 50 |
| Journal.JournalStore.constructor | src/lib/journal.ts:14-21 | nothing stored: no entries |
| Journal.JournalStore.SaveJournalEntry | src/lib/journal.ts:23-34 | returns the new entry (reflection by default) and puts it first, the older entries unchanged after it |

## Left out

- Persistence: `localStorage`, JSON (de)serialisation and the storage keys are left out. Each store starts from the value its load function returns when nothing is stored. The link store instead keeps what `saveLinks` last stored, because `loadLinks` builds new default groups with new ids on every call until then. The fallbacks for stored data that cannot be parsed are not modelled.
- `generateId` (`crypto.randomUUID`), `new Date()` and `Math.random` are parameters. Distinct ids and the UUID format are not modelled.
- Dates are strings. `today`, `yesterday`, the weekday and the hour come from the caller. That `today` is a UTC date while the weekday and the hour are local is not modelled.
- Numbers are unbounded integers. Floating-point XP, weights or minutes, and `NaN`, are not modelled.
- Optional fields that may be missing from stored records (`priority`, `dueDate`, `difficulty`, `taskId`) are `Option`s. A stored `null` and a missing key are the same.
- `xpToNextLevel` is the constant `Progression.XPPerLevel`.
- Links.Reordered: requires a non-empty list and a `fromIndex` below its length. Outside that, the source inserts `undefined` and then fails while renumbering. The widget only calls it with neighbouring in-range indices.
- Planning.TimeBlock: keeps the start and end clocks. `Planning.TimeText` gives the `time` text the source stores. `Planning.ClockTextValue` shows that each "HH:MM" half spells its clock; no lemma parses the whole "HH:MM - HH:MM" text.
- Challenges.DateHash: works on Dafny characters. `charCodeAt` counts UTF-16 code units, which differ only outside the Basic Multilingual Plane, and a date never has such characters.
- Garden: `plantedAt`/`lastWatered` are the caller's timestamp. The species of an auto-planted seed is the caller's `roll`.
- The UI components, audio, the sample data module and the performance test are not part of this model.
