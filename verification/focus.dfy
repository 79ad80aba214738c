/** The focus timer, weekly focus and daily reflection of `src/lib/focus.ts`. */
module Focus {
  import opened Seqs
  import opened Dates

  type Id = string

  /** `startedAt` is null exactly when the session is not running; `duration` is the
      target in minutes. */
  datatype FocusSession = FocusSession(active: bool, startedAt: Option<string>, duration: int, taskId: Option<Id>)

  /** Minutes of a session unless another target is given. */
  const DefaultDuration: int := 25

  /** The session `loadFocusSession` falls back to when nothing usable is stored. */
  const DefaultSession: FocusSession := FocusSession(false, None, DefaultDuration, None)

  /** `startFocus(duration, taskId)` at time `now`. */
  function StartedSession(now: string, duration: int := DefaultDuration, taskId: Option<Id> := None): (s: FocusSession)
    ensures s.active && s.startedAt == Some(now)
    ensures s.duration == duration && s.taskId == taskId
  {
    FocusSession(true, Some(now), duration, taskId)
  }

  /** `stopFocus`: always the idle default, whatever was running. */
  function StoppedSession(): (s: FocusSession)
    ensures !s.active && s.startedAt == None && s.duration == DefaultDuration && s.taskId == None
  {
    DefaultSession
  }

  /** A daily reflection; the form offers moods 1 to 5. */
  datatype TagesabschlussEntry = TagesabschlussEntry(date: Date, mood: int, note: string)

  /** `hasTagesabschlussToday` (`some`). */
  predicate HasEntryOn(entries: seq<TagesabschlussEntry>, today: Date)
  {
    exists i :: 0 <= i < |entries| && entries[i].date == today
  }

  /** `saveTagesabschluss(entry)` on day `today`: the first entry dated today is replaced,
      otherwise the entry goes first. The key is the current day, not `entry.date`. */
  function Upserted(entries: seq<TagesabschlussEntry>, entry: TagesabschlussEntry, today: Date): seq<TagesabschlussEntry>
  {
    match FirstIndex(entries, (e: TagesabschlussEntry) => e.date == today)
    case Some(k) => entries[k := entry]
    case None => [entry] + entries
  }

  /** The two branches of the upsert: the first entry dated today replaced in place with the
      length kept, or the entry prepended with the length grown by one. */
  lemma UpsertSpec(entries: seq<TagesabschlussEntry>, entry: TagesabschlussEntry, today: Date)
    ensures var r := Upserted(entries, entry, today);
      && (HasEntryOn(entries, today) ==>
            |r| == |entries|
            && exists k :: 0 <= k < |entries| && entries[k].date == today && r == entries[k := entry]
                           && forall j :: 0 <= j < k ==> entries[j].date != today)
      && (!HasEntryOn(entries, today) ==> r == [entry] + entries && |r| == |entries| + 1)
  {
    var p := (e: TagesabschlussEntry) => e.date == today;
    if HasEntryOn(entries, today) {
      var i :| 0 <= i < |entries| && entries[i].date == today;
      assert p(entries[i]);
    }
  }

  /** After saving an entry for today there is one for today, and saving it again changes
      nothing. */
  lemma {:induction false} SaveTodayIdempotent(entries: seq<TagesabschlussEntry>, entry: TagesabschlussEntry, today: Date)
    requires entry.date == today
    ensures HasEntryOn(Upserted(entries, entry, today), today)
    ensures Upserted(Upserted(entries, entry, today), entry, today) == Upserted(entries, entry, today)
  {
    var p := (e: TagesabschlussEntry) => e.date == today;
    var once := Upserted(entries, entry, today);
    match FirstIndex(entries, p)
    case Some(k) =>
      assert once[k] == entry;
      assert forall j :: 0 <= j < |once| ==> p(once[j]) == p(entries[j]);
      assert FirstIndex(once, p) == Some(k) by {
        var fi := FirstIndex(once, p);
        assert fi.Some?;
        assert !(fi.value < k) && !(k < fi.value);
      }
    case None =>
      assert once[0] == entry;
      assert FirstIndex(once, p) == Some(0);
  }

  /** An entry saved under another date takes the place of today's entry, so the day can
      lose its reflection. */
  lemma SaveOtherDateReplacesToday(today: Date, mood: int, note: string, other: TagesabschlussEntry)
    requires other.date != today
    ensures !HasEntryOn(Upserted([TagesabschlussEntry(today, mood, note)], other, today), today)
  {
  }

  // The hint texts.
  const MorningRoutine: string := "🌅 Morgenroutine: Starte mit deiner wichtigsten Aufgabe."
  const DrinkWater: string := "💧 Trinke ein Glas Wasser."
  const FocusTime: string := "🎯 Fokuszeit: Nutze die Vormittagsenergie."
  const LunchBreak: string := "🍽️ Mittagspause nicht vergessen."
  const ShortWalk: string := "🚶 Kurze Bewegung tut gut."
  const CheckTasks: string := "📋 Check deine offenen Aufgaben."
  const EveningRoutine: string := "🌇 Feierabend-Routine: Schließe den Tag ab."
  const ReadingTime: string := "📖 Guter Zeitpunkt zum Lesen."
  const WindDown: string := "🌙 Wind down: Bereite dich auf morgen vor."
  const Reminder: string := "✍️ Tagesabschluss nicht vergessen."

  /** The hints `getKontextHinweise` gives at a local `hour`. */
  function KontextHinweise(hour: int): (hints: seq<string>)
    ensures 1 <= |hints| <= 2
    ensures |hints| == 1 <==> (9 <= hour < 12 || 14 <= hour < 17)
  {
    if 6 <= hour < 9 then
      [MorningRoutine, DrinkWater]
    else if 9 <= hour < 12 then
      [FocusTime]
    else if 12 <= hour < 14 then
      [LunchBreak, ShortWalk]
    else if 14 <= hour < 17 then
      [CheckTasks]
    else if 17 <= hour < 20 then
      [EveningRoutine, ReadingTime]
    else
      [WindDown, Reminder]
  }

  /** The six time-of-day buckets of the hints. */
  datatype DayPart = Morning | Forenoon | Noon | Afternoon | Evening | Night

  /** Which bucket an hour falls in; the night bucket takes every hour the others leave. */
  function DayPartOf(hour: int): DayPart
  {
    if 6 <= hour < 9 then Morning
    else if 9 <= hour < 12 then Forenoon
    else if 12 <= hour < 14 then Noon
    else if 14 <= hour < 17 then Afternoon
    else if 17 <= hour < 20 then Evening
    else Night
  }

  /** The hints of one bucket. */
  function HintsFor(part: DayPart): seq<string>
  {
    match part
    case Morning => [MorningRoutine, DrinkWater]
    case Forenoon => [FocusTime]
    case Noon => [LunchBreak, ShortWalk]
    case Afternoon => [CheckTasks]
    case Evening => [EveningRoutine, ReadingTime]
    case Night => [WindDown, Reminder]
  }

  /** The hints at an hour are the hints of its bucket. */
  lemma HintsOfDayPart(hour: int)
    ensures KontextHinweise(hour) == HintsFor(DayPartOf(hour))
  {
  }

  /** The reminder to write the daily reflection belongs to the night bucket alone. */
  lemma ReminderOnlyAtNight(part: DayPart)
    ensures Reminder in HintsFor(part) <==> part == Night
  {
    match part
    case Night =>
      assert HintsFor(part)[1] == Reminder;
    case _ =>
  }

  /** The hints depend on the bucket alone, and the reminder to write the daily
      reflection appears exactly at night (from 20:00 to before 06:00). */
  lemma HintsByDayPart(h1: int, h2: int)
    ensures DayPartOf(h1) == DayPartOf(h2) ==> KontextHinweise(h1) == KontextHinweise(h2)
    ensures Reminder in KontextHinweise(h1) <==> (h1 >= 20 || h1 < 6)
  {
    HintsOfDayPart(h1);
    HintsOfDayPart(h2);
    ReminderOnlyAtNight(DayPartOf(h1));
  }

  /** The stored focus session, weekly focus text and reflection log. */
  class FocusStore {
    var session: FocusSession
    var wochenfokus: string
    var tagesabschluss: seq<TagesabschlussEntry>

    /** Nothing stored: the default session, an empty weekly focus, no reflections. */
    constructor ()
      ensures session == DefaultSession && wochenfokus == "" && tagesabschluss == []
    {
      session := DefaultSession;
      wochenfokus := "";
      tagesabschluss := [];
    }

    /** `startFocus`; `now` stands for the current time. */
    method StartFocus(now: string, duration: int := DefaultDuration, taskId: Option<Id> := None) returns (s: FocusSession)
      modifies this
      ensures s == StartedSession(now, duration, taskId) && session == s
      ensures wochenfokus == old(wochenfokus) && tagesabschluss == old(tagesabschluss)
    {
      s := FocusSession(true, Some(now), duration, taskId);
      session := s;
    }

    /** `stopFocus`. */
    method StopFocus() returns (s: FocusSession)
      modifies this
      ensures s == StoppedSession() && session == s
      ensures wochenfokus == old(wochenfokus) && tagesabschluss == old(tagesabschluss)
    {
      s := FocusSession(false, None, DefaultDuration, None);
      session := s;
    }

    /** `saveWochenfokus`. */
    method SaveWochenfokus(text: string)
      modifies this
      ensures wochenfokus == text
      ensures session == old(session) && tagesabschluss == old(tagesabschluss)
    {
      wochenfokus := text;
    }

    /** `saveTagesabschluss`; `today` is the current UTC date. */
    method SaveTagesabschluss(entry: TagesabschlussEntry, today: Date)
      modifies this
      ensures tagesabschluss == Upserted(old(tagesabschluss), entry, today)
      ensures session == old(session) && wochenfokus == old(wochenfokus)
    {
      var existing := FirstIndex(tagesabschluss, (e: TagesabschlussEntry) => e.date == today);
      if existing.Some? {
        tagesabschluss := tagesabschluss[existing.value := entry];
      } else {
        tagesabschluss := [entry] + tagesabschluss;
      }
    }

    /** `hasTagesabschlussToday`. */
    method HasTagesabschlussToday(today: Date) returns (r: bool)
      ensures r <==> HasEntryOn(tagesabschluss, today)
    {
      var k := FirstIndex(tagesabschluss, (e: TagesabschlussEntry) => e.date == today);
      r := k.Some?;
    }
  }
}
