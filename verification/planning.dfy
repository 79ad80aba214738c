/** The day planner of `src/lib/planning.ts`: a fixed sequence of time blocks
    from 09:00, chosen by the priorities of the given tasks, on a clock whose
    minutes are carried into hours. */
module Planning {
  import opened Seqs
  import opened Tasks

  /** A time of day; `minute` stays in [0, 60) once a block has been added. */
  datatype Clock = Clock(hour: int, minute: int)

  /** Minutes since midnight. */
  function Minutes(c: Clock): int
  {
    c.hour * 60 + c.minute
  }

  datatype BlockType = Focus | Admin | Break

  /** A block of the schedule; the source keeps the two times as the text `TimeText`. */
  datatype TimeBlock = TimeBlock(start: Clock, end: Clock, activity: string, blockType: BlockType)

  /** One call of `addBlock`: the duration, the activity and the type. */
  datatype Step = Step(duration: int, activity: string, blockType: BlockType)

  /** The clock `duration` minutes after `c`, the minutes carried into hours. */
  function Advance(c: Clock, duration: int): (r: Clock)
    ensures Minutes(r) == Minutes(c) + duration
    ensures c.minute + duration >= 0 ==> 0 <= r.minute < 60
    ensures c.minute + duration < 60 ==> r == Clock(c.hour, c.minute + duration)
  {
    var m := c.minute + duration;
    if m < 60 then Clock(c.hour, m) else Clock(c.hour + m / 60, m % 60)
  }

  // ---------------------------------------------------------------------------
  // Texts

  function Digit(d: int): char
    requires 0 <= d < 10
  {
    "0123456789"[d]
  }

  /** `n.toString()` for a natural number. */
  function DecimalString(n: nat): (s: string)
    ensures |s| >= 1
    ensures n < 10 ==> |s| == 1
    ensures 10 <= n < 100 ==> |s| == 2
  {
    if n < 10 then [Digit(n)] else DecimalString(n / 10) + [Digit(n % 10)]
  }

  /** `toString().padStart(2, '0')`. */
  function Pad2(n: nat): (s: string)
    ensures n < 100 ==> |s| == 2
  {
    var d := DecimalString(n);
    if |d| < 2 then "0" + d else d
  }

  /** "HH:MM"; the planner's clock never goes below 09:00. */
  function ClockText(c: Clock): (s: string)
    requires c.hour >= 0 && c.minute >= 0
    ensures (c.hour < 100 && c.minute < 100) ==> |s| == 5 && s[2] == ':'
  {
    Pad2(c.hour) + ":" + Pad2(c.minute)
  }

  /** The value of a decimal digit character. */
  function DigitValue(ch: char): int
  {
    if '0' <= ch <= '9' then ch as int - '0' as int else 0
  }

  /** The number a string of decimal digits spells. */
  function DecimalValue(s: string): int
  {
    if s == [] then 0 else 10 * DecimalValue(s[..|s| - 1]) + DigitValue(s[|s| - 1])
  }

  lemma DigitRoundTrip(d: int)
    requires 0 <= d < 10
    ensures '0' <= Digit(d) <= '9' && DigitValue(Digit(d)) == d
  {
  }

  /** `toString()` spells the number in decimal digits. */
  lemma {:induction false} DecimalStringValue(n: nat)
    ensures DecimalValue(DecimalString(n)) == n
    ensures forall i :: 0 <= i < |DecimalString(n)| ==> '0' <= DecimalString(n)[i] <= '9'
  {
    var s := DecimalString(n);
    if n < 10 {
      DigitRoundTrip(n);
      assert s[..0] == [];
    } else {
      DecimalStringValue(n / 10);
      DigitRoundTrip(n % 10);
      assert s[..|s| - 1] == DecimalString(n / 10);
    }
  }

  /** The leading zero of the padding does not change the value. */
  lemma Pad2Value(n: nat)
    requires n < 100
    ensures DecimalValue(Pad2(n)) == n
  {
    var d := DecimalString(n);
    DecimalStringValue(n);
    if |d| < 2 {
      var p := "0" + d;
      assert p[..1] == "0" && p[1] == d[0];
      assert d[..0] == [];
      assert DecimalValue("0") == 0 by {
        assert "0"[..0] == [];
      }
    }
  }

  /** The two fields of "HH:MM" spell the hour and the minute. */
  lemma ClockTextValue(c: Clock)
    requires 0 <= c.hour < 100 && 0 <= c.minute < 100
    ensures var s := ClockText(c);
      DecimalValue(s[..2]) == c.hour && DecimalValue(s[3..]) == c.minute
  {
    var s := ClockText(c);
    assert s[..2] == Pad2(c.hour);
    assert s[3..] == Pad2(c.minute);
    Pad2Value(c.hour);
    Pad2Value(c.minute);
  }

  /** The `time` text of a block, "HH:MM - HH:MM". */
  function TimeText(b: TimeBlock): string
    requires b.start.hour >= 0 && b.start.minute >= 0 && b.end.hour >= 0 && b.end.minute >= 0
  {
    ClockText(b.start) + " - " + ClockText(b.end)
  }

  /** `map(t => t.title).join(', ')`. */
  function JoinTitles(tasks: seq<Task>): string
  {
    if tasks == [] then ""
    else if |tasks| == 1 then tasks[0].title
    else tasks[0].title + ", " + JoinTitles(tasks[1..])
  }

  // ---------------------------------------------------------------------------
  // The plan

  function High(tasks: seq<Task>): seq<Task>
  {
    Filter(tasks, (t: Task) => t.priority == Some(Hoch))
  }

  function Medium(tasks: seq<Task>): seq<Task>
  {
    Filter(tasks, (t: Task) => t.priority == Some(Mittel))
  }

  /** Low priority: 'niedrig' or no priority at all. */
  function Low(tasks: seq<Task>): seq<Task>
  {
    Filter(tasks, (t: Task) => t.priority == Some(Niedrig) || t.priority == None)
  }

  const PauseStep: Step := Step(15, "Pause & Kaffee", Break)
  const LunchStep: Step := Step(30, "Mittagspause", Break)
  const WrapUpStep: Step := Step(15, "Tagesabschluss & Planung für morgen", Admin)

  /** The first block of the day. */
  const DayStart: Clock := Clock(9, 0)
  /** Lunch is moved to 13:00 when the morning ends earlier. */
  const LunchStart: Clock := Clock(13, 0)

  /** The morning `addBlock` calls: deep work and a pause for high priority tasks, project
      work for the first medium task and a follow-up for the others. */
  function MorningSteps(tasks: seq<Task>): seq<Step>
  {
    MorningStepsOf(High(tasks), Medium(tasks))
  }

  function MorningStepsOf(high: seq<Task>, medium: seq<Task>): seq<Step>
  {
    HighStepsOf(high) + MediumStepsOf(medium)
  }

  /** Deep work on all high priority tasks, then a pause. */
  function HighStepsOf(high: seq<Task>): seq<Step>
  {
    if |high| > 0 then [Step(90, "Deep Work: " + JoinTitles(high), Focus), PauseStep] else []
  }

  /** Project work on the first medium priority task, a follow-up on the others. */
  function MediumStepsOf(medium: seq<Task>): seq<Step>
  {
    if |medium| > 0 then
      [Step(60, "Projektarbeit: " + medium[0].title, Focus)]
      + (if |medium| > 1 then [Step(45, "Weiterführen: " + JoinTitles(medium[1..]), Focus)] else [])
    else []
  }

  /** The afternoon `addBlock` calls: admin for low priority tasks, then the wrap-up. */
  function AfternoonSteps(tasks: seq<Task>): seq<Step>
  {
    AfternoonStepsOf(Low(tasks))
  }

  function AfternoonStepsOf(low: seq<Task>): seq<Step>
  {
    AdminStepsOf(low) + [WrapUpStep]
  }

  /** One admin block for all low priority tasks. */
  function AdminStepsOf(low: seq<Task>): seq<Step>
  {
    if |low| > 0 then [Step(45, "Admin & Kleinkram: " + JoinTitles(low), Admin)] else []
  }

  datatype Run = Run(blocks: seq<TimeBlock>, clock: Clock)

  /** One `addBlock` call: the block from the current clock to the advanced clock is
      appended, and the clock moves on. */
  function Extend(r: Run, s: Step): Run
  {
    var end := Advance(r.clock, s.duration);
    Run(r.blocks + [TimeBlock(r.clock, end, s.activity, s.blockType)], end)
  }

  /** The blocks `addBlock` appends for `steps` from clock `c`, and the clock after them. */
  function RunSteps(c: Clock, steps: seq<Step>): (r: Run)
    ensures |r.blocks| == |steps|
  {
    if steps == [] then Run([], c) else Extend(RunSteps(c, steps[..|steps| - 1]), steps[|steps| - 1])
  }

  /** The schedule `r` after the further `addBlock` calls `steps`. */
  function Continue(r: Run, steps: seq<Step>): Run
  {
    var t := RunSteps(r.clock, steps);
    Run(r.blocks + t.blocks, t.clock)
  }

  /** `generateDailyPlan(tasks)`: the morning from 09:00; lunch from 13:00 when the clock is
      before 13:00; then the afternoon. */
  function Plan(tasks: seq<Task>): seq<TimeBlock>
  {
    var morning := RunSteps(DayStart, MorningSteps(tasks));
    var lunch := if morning.clock.hour < 13 then Extend(Run(morning.blocks, LunchStart), LunchStep) else morning;
    Continue(lunch, AfternoonSteps(tasks)).blocks
  }

  // ---------------------------------------------------------------------------
  // Composing runs

  lemma ContinueNil(r: Run)
    ensures Continue(r, []) == r
  {
    assert r.blocks + [] == r.blocks;
  }

  lemma ContinueSnoc(r: Run, steps: seq<Step>, s: Step)
    ensures Continue(r, steps + [s]) == Extend(Continue(r, steps), s)
  {
    assert (steps + [s])[..|steps|] == steps;
    var t := RunSteps(r.clock, steps);
    var b := TimeBlock(t.clock, Advance(t.clock, s.duration), s.activity, s.blockType);
    assert r.blocks + (t.blocks + [b]) == (r.blocks + t.blocks) + [b];
  }

  lemma ContinueOne(r: Run, a: Step)
    ensures Continue(r, [a]) == Extend(r, a)
  {
    ContinueNil(r);
    ContinueSnoc(r, [], a);
    assert [] + [a] == [a];
  }

  lemma ContinueTwo(r: Run, a: Step, b: Step)
    ensures Continue(r, [a, b]) == Extend(Extend(r, a), b)
  {
    ContinueOne(r, a);
    ContinueSnoc(r, [a], b);
    assert [a] + [b] == [a, b];
  }

  /** Running `a` and then `b` is running `a + b`. */
  lemma {:induction false} ContinueAppend(r: Run, a: seq<Step>, b: seq<Step>)
    ensures Continue(Continue(r, a), b) == Continue(r, a + b)
  {
    if b == [] {
      ContinueNil(Continue(r, a));
      assert a + b == a;
    } else {
      var init, x := b[..|b| - 1], b[|b| - 1];
      assert b == init + [x];
      ContinueAppend(r, a, init);
      ContinueSnoc(Continue(r, a), init, x);
      ContinueSnoc(r, a + init, x);
      assert a + b == (a + init) + [x];
    }
  }

  lemma ContinueFromStart(c: Clock, steps: seq<Step>)
    ensures Continue(Run([], c), steps) == RunSteps(c, steps)
  {
    assert [] + RunSteps(c, steps).blocks == RunSteps(c, steps).blocks;
  }

  // ---------------------------------------------------------------------------
  // Properties

  function SumDurations(steps: seq<Step>): int
  {
    if steps == [] then 0 else SumDurations(steps[..|steps| - 1]) + steps[|steps| - 1].duration
  }

  /** Each block starts where the previous one ended, lasts its step's duration, ends with
      minutes in [0, 60), and the run ends where the last block ends. */
  lemma {:induction false} RunChains(c: Clock, steps: seq<Step>)
    requires 0 <= c.minute < 60
    requires forall i :: 0 <= i < |steps| ==> steps[i].duration >= 0
    ensures var r := RunSteps(c, steps);
      && (|steps| > 0 ==> r.blocks[0].start == c && r.blocks[|steps| - 1].end == r.clock)
      && (forall i :: 0 < i < |steps| ==> r.blocks[i].start == r.blocks[i - 1].end)
      && (forall i :: 0 <= i < |steps| ==>
            Minutes(r.blocks[i].end) == Minutes(r.blocks[i].start) + steps[i].duration
            && 0 <= r.blocks[i].end.minute < 60)
      && Minutes(r.clock) == Minutes(c) + SumDurations(steps)
      && 0 <= r.clock.minute < 60
  {
    if steps != [] {
      RunChains(c, steps[..|steps| - 1]);
    }
  }

  /** Block `i` carries the activity and the type of step `i`. */
  lemma {:induction false} RunLabels(c: Clock, steps: seq<Step>)
    ensures var r := RunSteps(c, steps);
      forall i :: 0 <= i < |steps| ==>
        r.blocks[i].activity == steps[i].activity && r.blocks[i].blockType == steps[i].blockType
  {
    if steps != [] {
      RunLabels(c, steps[..|steps| - 1]);
    }
  }

  lemma SumDurationsTwo(a: Step, b: Step)
    ensures SumDurations([a]) == a.duration
    ensures SumDurations([a, b]) == a.duration + b.duration
  {
    assert [a][..0] == [];
    assert [a, b][..1] == [a];
  }

  lemma {:induction false} SumDurationsAppend(a: seq<Step>, b: seq<Step>)
    ensures SumDurations(a + b) == SumDurations(a) + SumDurations(b)
  {
    if b == [] {
      assert a + b == a;
    } else {
      assert (a + b)[..|a + b| - 1] == a + b[..|b| - 1];
      SumDurationsAppend(a, b[..|b| - 1]);
    }
  }

  /** The deep-work section: 90 minutes of deep work and a 15-minute pause, or none. */
  lemma HighShape(high: seq<Task>)
    ensures var h := HighStepsOf(high);
      && |h| == (if |high| > 0 then 2 else 0)
      && SumDurations(h) == (if |high| > 0 then 105 else 0)
      && (|high| > 0 ==> h[0].duration == 90 && h[1].duration == 15)
      && forall i :: 0 <= i < |h| ==> h[i].duration > 0
  {
    if |high| > 0 {
      var h := HighStepsOf(high);
      SumDurationsTwo(h[0], h[1]);
    }
  }

  /** The project-work section: one block of 60 minutes, a second of 45, or none. */
  lemma MediumShape(medium: seq<Task>)
    ensures var md := MediumStepsOf(medium);
      && |md| == (if |medium| > 0 then 1 else 0) + (if |medium| > 1 then 1 else 0)
      && 0 <= SumDurations(md) <= 105
      && (|medium| > 0 ==> md[0].duration == 60)
      && (|medium| > 1 ==> md[1].duration == 45)
      && forall i :: 0 <= i < |md| ==> md[i].duration > 0
  {
    var md := MediumStepsOf(medium);
    if |medium| > 1 {
      SumDurationsTwo(md[0], md[1]);
      assert md == [md[0], md[1]];
    } else if |medium| > 0 {
      SumDurationsTwo(md[0], md[0]);
      assert md == [md[0]];
    }
  }

  /** The morning has at most 90 + 15 + 60 + 45 = 210 minutes of blocks, in this count. */
  lemma MorningShape(tasks: seq<Task>)
    ensures var m := MorningSteps(tasks);
      && |m| == (if |High(tasks)| > 0 then 2 else 0) + (if |Medium(tasks)| > 0 then 1 else 0)
                + (if |Medium(tasks)| > 1 then 1 else 0)
      && 0 <= SumDurations(m) <= 210
      && forall i :: 0 <= i < |m| ==> m[i].duration > 0
  {
    var h, md := HighStepsOf(High(tasks)), MediumStepsOf(Medium(tasks));
    assert |h| == (if |High(tasks)| > 0 then 2 else 0) && 0 <= SumDurations(h) <= 105
        && forall i :: 0 <= i < |h| ==> h[i].duration > 0 by {
      HighShape(High(tasks));
    }
    assert |md| == (if |Medium(tasks)| > 0 then 1 else 0) + (if |Medium(tasks)| > 1 then 1 else 0)
        && 0 <= SumDurations(md) <= 105 && forall i :: 0 <= i < |md| ==> md[i].duration > 0 by {
      MediumShape(Medium(tasks));
    }
    SumDurationsAppend(h, md);
    assert forall i :: 0 <= i < |h + md| ==> (h + md)[i] == if i < |h| then h[i] else md[i - |h|];
  }

  lemma AfternoonShape(tasks: seq<Task>)
    ensures var a := AfternoonSteps(tasks);
      && |a| == 1 + (if |Low(tasks)| > 0 then 1 else 0)
      && a[|a| - 1] == WrapUpStep
      && forall i :: 0 <= i < |a| ==> a[i].duration > 0
  {
  }

  /** Positions in a list made of a prefix, one element and a suffix. */
  lemma ConcatIndex<T>(a: seq<T>, x: T, b: seq<T>)
    ensures |a + [x] + b| == |a| + 1 + |b|
    ensures forall j :: 0 <= j < |a| ==> (a + [x] + b)[j] == a[j]
    ensures (a + [x] + b)[|a|] == x
    ensures forall j :: |a| < j < |a| + 1 + |b| ==> (a + [x] + b)[j] == b[j - |a| - 1]
  {
  }

  const LunchEnd: Clock := Clock(13, 30)
  const LunchBlock: TimeBlock := TimeBlock(LunchStart, LunchEnd, "Mittagspause", Break)

  /** The morning blocks take at most 210 minutes from 09:00, so the clock is before 13:00
      when the lunch check runs. */
  lemma MorningEndsBeforeLunch(tasks: seq<Task>)
    ensures var r := RunSteps(DayStart, MorningSteps(tasks));
      Minutes(r.clock) <= 9 * 60 + 210 && r.clock.hour < 13 && 0 <= r.clock.minute < 60
  {
    MorningShape(tasks);
    RunChains(DayStart, MorningSteps(tasks));
  }

  /** The plan is the morning run from 09:00, the lunch block 13:00 - 13:30 and the
      afternoon run from 13:30: the lunch block is never skipped. */
  lemma PlanSplit(tasks: seq<Task>)
    ensures Plan(tasks) == RunSteps(DayStart, MorningSteps(tasks)).blocks + [LunchBlock]
                           + RunSteps(LunchEnd, AfternoonSteps(tasks)).blocks
  {
    MorningEndsBeforeLunch(tasks);
  }

  /** Each block starts where the previous one ended. */
  predicate Chained(bs: seq<TimeBlock>)
  {
    forall i :: 0 < i < |bs| ==> bs[i].start == bs[i - 1].end
  }

  /** Each block takes a positive time and ends on a normalised clock. */
  predicate Normalised(bs: seq<TimeBlock>)
  {
    forall i :: 0 <= i < |bs| ==> Minutes(bs[i].start) < Minutes(bs[i].end) && 0 <= bs[i].end.minute < 60
  }

  /** A run of steps of positive duration from a normalised clock is chained and normalised. */
  lemma RunWellFormed(c: Clock, steps: seq<Step>)
    requires 0 <= c.minute < 60
    requires forall i :: 0 <= i < |steps| ==> steps[i].duration > 0
    ensures var r := RunSteps(c, steps);
      && Chained(r.blocks) && Normalised(r.blocks)
      && (|steps| > 0 ==> r.blocks[0].start == c && r.blocks[|steps| - 1].end == r.clock)
  {
    RunChains(c, steps);
  }

  /** The morning run starts at 09:00 and its last block ends before 13:00. */
  lemma MorningEdges(tasks: seq<Task>)
    ensures var ms := MorningSteps(tasks);
            var m := RunSteps(DayStart, ms);
      |ms| > 0 ==> m.blocks[0].start == DayStart && m.blocks[|ms| - 1].end.hour < 13
  {
    MorningShape(tasks);
    RunWellFormed(DayStart, MorningSteps(tasks));
    MorningEndsBeforeLunch(tasks);
  }

  /** The afternoon run ends with the 15-minute wrap-up block. */
  lemma AfternoonLast(tasks: seq<Task>)
    ensures var as_ := AfternoonSteps(tasks);
            var a := RunSteps(LunchEnd, as_);
            var last := a.blocks[|as_| - 1];
      && |as_| == 1 + (if |Low(tasks)| > 0 then 1 else 0)
      && last.activity == WrapUpStep.activity && last.blockType == Admin
      && Minutes(last.end) == Minutes(last.start) + 15
  {
    var as_ := AfternoonSteps(tasks);
    AfternoonShape(tasks);
    RunChains(LunchEnd, as_);
    RunLabels(LunchEnd, as_);
  }

  /** The shape of the day: lunch 13:00 - 13:30 right after the morning blocks, the first
      block at 09:00 when there is a morning block, and the 15-minute wrap-up last. */
  lemma PlanShape(tasks: seq<Task>)
    ensures var p := Plan(tasks);
            var k := |MorningSteps(tasks)|;
      && |p| == k + 2 + (if |Low(tasks)| > 0 then 1 else 0)
      && p[k] == LunchBlock
      && (k > 0 ==> p[0].start == DayStart && p[k - 1].end.hour < 13)
      && (k == 0 ==> p[0].start == LunchStart)
      && p[|p| - 1].activity == WrapUpStep.activity && p[|p| - 1].blockType == Admin
      && Minutes(p[|p| - 1].end) == Minutes(p[|p| - 1].start) + 15
  {
    var ms, as_ := MorningSteps(tasks), AfternoonSteps(tasks);
    var m, a := RunSteps(DayStart, ms), RunSteps(LunchEnd, as_);
    assert Plan(tasks) == m.blocks + [LunchBlock] + a.blocks by {
      PlanSplit(tasks);
    }
    MorningEdges(tasks);
    AfternoonLast(tasks);
    ConcatIndex(m.blocks, LunchBlock, a.blocks);
  }

  /** Joining two well-formed runs around the lunch block keeps every block well formed
      and chains every block except lunch to its predecessor. */
  lemma DayChained(m: seq<TimeBlock>, a: seq<TimeBlock>)
    requires Chained(m) && Normalised(m) && Chained(a) && Normalised(a)
    requires |a| > 0 && a[0].start == LunchEnd
    ensures var p := m + [LunchBlock] + a;
      && (forall i :: 0 < i < |p| && i != |m| ==> p[i].start == p[i - 1].end)
      && Normalised(p)
  {
    ConcatIndex(m, LunchBlock, a);
  }

  /** Every block lasts a positive time and ends with minutes in [0, 60); each block starts
      where the previous one ended, except lunch, which starts at 13:00. */
  lemma PlanChained(tasks: seq<Task>)
    ensures var p := Plan(tasks);
            var k := |MorningSteps(tasks)|;
      && (forall i :: 0 < i < |p| && i != k ==> p[i].start == p[i - 1].end)
      && Normalised(p)
  {
    var ms, as_ := MorningSteps(tasks), AfternoonSteps(tasks);
    var m, a := RunSteps(DayStart, ms), RunSteps(LunchEnd, as_);
    assert Plan(tasks) == m.blocks + [LunchBlock] + a.blocks by {
      PlanSplit(tasks);
    }
    assert Chained(m.blocks) && Normalised(m.blocks) by {
      MorningShape(tasks);
      RunWellFormed(DayStart, ms);
    }
    assert |a.blocks| > 0 && a.blocks[0].start == LunchEnd && Chained(a.blocks) && Normalised(a.blocks) by {
      AfternoonShape(tasks);
      RunWellFormed(LunchEnd, as_);
    }
    DayChained(m.blocks, a.blocks);
  }

  /** Deep work and its pause come first exactly when there is a 'hoch' task; project work
      follows for a 'mittel' task and a follow-up for a second one; the admin block comes
      before the wrap-up exactly when there is a 'niedrig' task or one without priority. */
  lemma PlanBlocksByPriority(tasks: seq<Task>)
    ensures var p := Plan(tasks);
            var high, medium, low := High(tasks), Medium(tasks), Low(tasks);
            var i := if |high| > 0 then 2 else 0;
      && (|high| > 0 ==> p[0].activity == "Deep Work: " + JoinTitles(high) && p[0].blockType == Focus
                         && p[1].activity == PauseStep.activity && p[1].blockType == Break)
      && (|medium| > 0 ==> p[i].activity == "Projektarbeit: " + medium[0].title && p[i].blockType == Focus)
      && (|medium| > 1 ==> p[i + 1].activity == "Weiterführen: " + JoinTitles(medium[1..]))
      && (|low| > 0 ==> p[|p| - 2].activity == "Admin & Kleinkram: " + JoinTitles(low) && p[|p| - 2].blockType == Admin)
      && (|low| == 0 ==> p[|p| - 2] == LunchBlock)
  {
    var high, medium, low := High(tasks), Medium(tasks), Low(tasks);
    var ms, as_ := MorningSteps(tasks), AfternoonSteps(tasks);
    var m, a := RunSteps(DayStart, ms), RunSteps(LunchEnd, as_);
    assert Plan(tasks) == m.blocks + [LunchBlock] + a.blocks by {
      PlanSplit(tasks);
    }
    assert ms == HighStepsOf(high) + MediumStepsOf(medium);
    assert as_ == AdminStepsOf(low) + [WrapUpStep];
    RunLabels(DayStart, ms);
    RunLabels(LunchEnd, as_);
    ConcatIndex(m.blocks, LunchBlock, a.blocks);
  }

  lemma RunTwo(c: Clock, a: Step, b: Step)
    ensures RunSteps(c, [a, b]) == Extend(Extend(Run([], c), a), b)
  {
    ContinueFromStart(c, [a, b]);
    ContinueTwo(Run([], c), a, b);
  }

  lemma RunThree(c: Clock, a: Step, b: Step, d: Step)
    ensures RunSteps(c, [a, b, d]) == Extend(Extend(Extend(Run([], c), a), b), d)
  {
    ContinueFromStart(c, [a, b, d]);
    ContinueSnoc(Run([], c), [a, b], d);
    ContinueTwo(Run([], c), a, b);
    assert [a, b] + [d] == [a, b, d];
  }

  /** With one task of each priority the plan makes these `addBlock` calls. */
  lemma OneOfEachSteps(h: Task, m: Task, l: Task)
    requires h.priority == Some(Hoch) && m.priority == Some(Mittel) && l.priority == None
    ensures MorningSteps([h, m, l])
      == [Step(90, "Deep Work: " + h.title, Focus), PauseStep, Step(60, "Projektarbeit: " + m.title, Focus)]
    ensures AfternoonSteps([h, m, l]) == [Step(45, "Admin & Kleinkram: " + l.title, Admin), WrapUpStep]
  {
    var tasks := [h, m, l];
    assert tasks[1..] == [m, l] && [m, l][1..] == [l] && [l][1..] == [];
    assert High(tasks) == [h] by {
      assert High([l]) == [] && High([m, l]) == [];
    }
    assert Medium(tasks) == [m] by {
      assert Medium([l]) == [] && Medium([m, l]) == [m];
    }
    assert Low(tasks) == [l] by {
      assert Low([l]) == [l] && Low([m, l]) == [l];
    }
  }

  /** A day with one task of each priority (the low one without priority): deep work
      09:00 - 10:30, pause to 10:45, project work to 11:45, lunch 13:00 - 13:30, admin to
      14:15 and the wrap-up to 14:30. */
  lemma OneOfEach(h: Task, m: Task, l: Task)
    requires h.priority == Some(Hoch) && m.priority == Some(Mittel) && l.priority == None
    ensures var p := Plan([h, m, l]);
      && |p| == 6
      && p[0].start == Clock(9, 0) && p[0].end == Clock(10, 30)
      && p[1].end == Clock(10, 45) && p[2].end == Clock(11, 45)
      && p[3] == LunchBlock
      && p[4].end == Clock(14, 15) && p[5].end == Clock(14, 30)
  {
    var tasks := [h, m, l];
    var s1, s3 := Step(90, "Deep Work: " + h.title, Focus), Step(60, "Projektarbeit: " + m.title, Focus);
    var s4 := Step(45, "Admin & Kleinkram: " + l.title, Admin);
    OneOfEachSteps(h, m, l);
    var mr, ar := RunSteps(DayStart, [s1, PauseStep, s3]), RunSteps(LunchEnd, [s4, WrapUpStep]);
    OneOfEachMorning(s1, s3);
    OneOfEachAfternoon(s4);
    assert Plan(tasks) == mr.blocks + [LunchBlock] + ar.blocks by {
      PlanSplit(tasks);
    }
    ConcatIndex(mr.blocks, LunchBlock, ar.blocks);
  }

  lemma OneOfEachMorning(s1: Step, s3: Step)
    requires s1.duration == 90 && s3.duration == 60
    ensures var r := RunSteps(DayStart, [s1, PauseStep, s3]);
      && |r.blocks| == 3 && r.blocks[0].start == Clock(9, 0) && r.blocks[0].end == Clock(10, 30)
      && r.blocks[1].end == Clock(10, 45) && r.blocks[2].end == Clock(11, 45)
  {
    RunThree(DayStart, s1, PauseStep, s3);
  }

  lemma OneOfEachAfternoon(s4: Step)
    requires s4.duration == 45
    ensures var r := RunSteps(LunchEnd, [s4, WrapUpStep]);
      |r.blocks| == 2 && r.blocks[0].end == Clock(14, 15) && r.blocks[1].end == Clock(14, 30)
  {
    RunTwo(LunchEnd, s4, WrapUpStep);
  }

  // ---------------------------------------------------------------------------
  // The imperative planner

  /** The `addBlock` closure: records the block from the current clock and carries the
      minutes into hours. */
  method AddBlock(hour: int, minute: int, schedule: seq<TimeBlock>, durationMinutes: int,
                  activity: string, blockType: BlockType)
    returns (hour': int, minute': int, schedule': seq<TimeBlock>)
    ensures Clock(hour', minute') == Advance(Clock(hour, minute), durationMinutes)
    ensures schedule' == schedule + [TimeBlock(Clock(hour, minute), Clock(hour', minute'), activity, blockType)]
  {
    hour', minute' := hour, minute + durationMinutes;
    while minute' >= 60
      invariant hour' * 60 + minute' == hour * 60 + minute + durationMinutes
      invariant minute + durationMinutes >= 60 ==> minute' >= 0
      invariant minute + durationMinutes < 60 ==> hour' == hour && minute' == minute + durationMinutes
      decreases minute'
    {
      minute' := minute' - 60;
      hour' := hour' + 1;
    }
    schedule' := schedule + [TimeBlock(Clock(hour, minute), Clock(hour', minute'), activity, blockType)];
  }

  /** The deep-work section of `generateDailyPlan`. */
  method HighBlocks(hour: int, minute: int, schedule: seq<TimeBlock>, highPriority: seq<Task>)
    returns (hour': int, minute': int, schedule': seq<TimeBlock>)
    ensures Run(schedule', Clock(hour', minute')) == Continue(Run(schedule, Clock(hour, minute)), HighStepsOf(highPriority))
  {
    ghost var r := Run(schedule, Clock(hour, minute));
    hour', minute', schedule' := hour, minute, schedule;
    if |highPriority| > 0 {
      var s := Step(90, "Deep Work: " + JoinTitles(highPriority), Focus);
      hour', minute', schedule' := AddBlock(hour', minute', schedule', s.duration, s.activity, s.blockType);
      hour', minute', schedule' := AddBlock(hour', minute', schedule', 15, "Pause & Kaffee", Break);
      ContinueTwo(r, s, PauseStep);
    } else {
      ContinueNil(r);
    }
  }

  /** The project-work section of `generateDailyPlan`. */
  method MediumBlocks(hour: int, minute: int, schedule: seq<TimeBlock>, mediumPriority: seq<Task>)
    returns (hour': int, minute': int, schedule': seq<TimeBlock>)
    ensures Run(schedule', Clock(hour', minute')) == Continue(Run(schedule, Clock(hour, minute)), MediumStepsOf(mediumPriority))
  {
    ghost var r := Run(schedule, Clock(hour, minute));
    hour', minute', schedule' := hour, minute, schedule;
    if |mediumPriority| > 0 {
      var s := Step(60, "Projektarbeit: " + mediumPriority[0].title, Focus);
      hour', minute', schedule' := AddBlock(hour', minute', schedule', s.duration, s.activity, s.blockType);
      if |mediumPriority| > 1 {
        var s2 := Step(45, "Weiterführen: " + JoinTitles(mediumPriority[1..]), Focus);
        hour', minute', schedule' := AddBlock(hour', minute', schedule', s2.duration, s2.activity, s2.blockType);
        ContinueTwo(r, s, s2);
        assert MediumStepsOf(mediumPriority) == [s] + [s2] == [s, s2];
      } else {
        ContinueOne(r, s);
        assert MediumStepsOf(mediumPriority) == [s] + [] == [s];
      }
    } else {
      ContinueNil(r);
    }
  }

  /** The morning part of `generateDailyPlan`, from 09:00. */
  method MorningBlocks(highPriority: seq<Task>, mediumPriority: seq<Task>)
    returns (currentHour: int, currentMinute: int, schedule: seq<TimeBlock>)
    ensures Run(schedule, Clock(currentHour, currentMinute)) == RunSteps(DayStart, MorningStepsOf(highPriority, mediumPriority))
  {
    currentHour, currentMinute, schedule := HighBlocks(9, 0, [], highPriority);
    currentHour, currentMinute, schedule := MediumBlocks(currentHour, currentMinute, schedule, mediumPriority);
    ContinueAppend(Run([], DayStart), HighStepsOf(highPriority), MediumStepsOf(mediumPriority));
    ContinueFromStart(DayStart, MorningStepsOf(highPriority, mediumPriority));
  }

  /** The admin section of `generateDailyPlan`. */
  method AdminBlocks(hour: int, minute: int, schedule: seq<TimeBlock>, lowPriority: seq<Task>)
    returns (hour': int, minute': int, schedule': seq<TimeBlock>)
    ensures Run(schedule', Clock(hour', minute')) == Continue(Run(schedule, Clock(hour, minute)), AdminStepsOf(lowPriority))
  {
    ghost var r := Run(schedule, Clock(hour, minute));
    hour', minute', schedule' := hour, minute, schedule;
    if |lowPriority| > 0 {
      var s := Step(45, "Admin & Kleinkram: " + JoinTitles(lowPriority), Admin);
      hour', minute', schedule' := AddBlock(hour', minute', schedule', s.duration, s.activity, s.blockType);
      ContinueOne(r, s);
    } else {
      ContinueNil(r);
    }
  }

  /** The afternoon part of `generateDailyPlan`: the admin block, then the wrap-up. */
  method AfternoonBlocks(hour: int, minute: int, schedule: seq<TimeBlock>, lowPriority: seq<Task>)
    returns (hour': int, minute': int, schedule': seq<TimeBlock>)
    ensures Run(schedule', Clock(hour', minute')) == Continue(Run(schedule, Clock(hour, minute)), AfternoonStepsOf(lowPriority))
  {
    hour', minute', schedule' := AdminBlocks(hour, minute, schedule, lowPriority);
    ghost var admin := Run(schedule', Clock(hour', minute'));
    hour', minute', schedule' := AddBlock(hour', minute', schedule', 15, "Tagesabschluss & Planung für morgen", Admin);
    ContinueOne(admin, WrapUpStep);
    ContinueAppend(Run(schedule, Clock(hour, minute)), AdminStepsOf(lowPriority), [WrapUpStep]);
  }

  /** `generateDailyPlan`: the blocks are appended one `addBlock` call at a time; lunch
      resets the clock to 13:00 when the morning ended earlier. */
  method GenerateDailyPlan(tasks: seq<Task>) returns (schedule: seq<TimeBlock>)
    ensures schedule == Plan(tasks)
  {
    var highPriority := High(tasks);
    var mediumPriority := Medium(tasks);
    var lowPriority := Low(tasks);
    var currentHour, currentMinute;
    currentHour, currentMinute, schedule := MorningBlocks(highPriority, mediumPriority);
    ghost var morning := Run(schedule, Clock(currentHour, currentMinute));
    if currentHour < 13 {
      currentHour := 13;
      currentMinute := 0;
      currentHour, currentMinute, schedule := AddBlock(currentHour, currentMinute, schedule, 30, "Mittagspause", Break);
    }
    ghost var lunch := Run(schedule, Clock(currentHour, currentMinute));
    assert lunch == if morning.clock.hour < 13 then Extend(Run(morning.blocks, LunchStart), LunchStep) else morning;
    currentHour, currentMinute, schedule := AfternoonBlocks(currentHour, currentMinute, schedule, lowPriority);
  }
}
