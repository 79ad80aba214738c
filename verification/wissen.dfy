/** The knowledge/media engine of `src/lib/wissen.ts`: entries with a status
    lifecycle that grant XP once on entering `Beendet` and give it back on
    leaving it or on deletion. */
module Wissen {
  import opened Seqs
  import opened Dates
  import Progression

  type Id = string

  datatype WissenCategory = Medien | Projekt
  datatype WissenStatus = Geplant | Laufend | Beendet | Abgebrochen
  datatype WissenDifficulty = Klein | Mittel | Anspruchsvoll

  /** `mediaType` is the source's `type` field. */
  datatype WissenEntry = WissenEntry(
    id: Id,
    title: string,
    mediaType: string,
    rating: int,
    tags: seq<string>,
    url: string,
    notes: string,
    category: WissenCategory,
    status: WissenStatus,
    difficulty: Option<WissenDifficulty>,
    createdAt: string,
    xpAwarded: bool)

  /** `createWissenEntry`: `id` and `createdAt` stand for `generateId()` and the clock. */
  function CreateWissenEntry(id: Id, createdAt: string, title: string, mediaType: string, rating: int,
                             tags: seq<string>, url: string, notes: string,
                             category: WissenCategory := Medien, status: WissenStatus := Geplant,
                             difficulty: Option<WissenDifficulty> := None): (e: WissenEntry)
    ensures !e.xpAwarded
    ensures e.id == id && e.category == category && e.status == status && e.difficulty == difficulty
    ensures e.title == title && e.tags == tags
  {
    WissenEntry(id, title, mediaType, rating, tags, url, notes, category, status, difficulty, createdAt, false)
  }

  /** `getXPForEntry`: Medien 15; Projekt 10/20/30 by difficulty, 0 without one. */
  function XPForEntry(e: WissenEntry): (xp: int)
    ensures 0 <= xp <= 30
    ensures xp > 0 <==> e.category == Medien || e.difficulty.Some?
  {
    if e.category == Medien then 15
    else
      match e.difficulty
      case Some(Klein) => 10
      case Some(Mittel) => 20
      case Some(Anspruchsvoll) => 30
      case None => 0
  }

  /** A `Partial<WissenEntry>`; `Some(None)` for `difficulty` is an explicit `undefined`. */
  datatype WissenPatch = WissenPatch(
    id: Option<Id>,
    title: Option<string>,
    mediaType: Option<string>,
    rating: Option<int>,
    tags: Option<seq<string>>,
    url: Option<string>,
    notes: Option<string>,
    category: Option<WissenCategory>,
    status: Option<WissenStatus>,
    difficulty: Option<Option<WissenDifficulty>>,
    createdAt: Option<string>,
    xpAwarded: Option<bool>)

  /** The edit form's patch `{ status, category, difficulty }`. */
  function EditPatch(status: WissenStatus, category: WissenCategory, difficulty: Option<WissenDifficulty>): WissenPatch
  {
    WissenPatch(None, None, None, None, None, None, None, Some(category), Some(status), Some(difficulty), None, None)
  }

  function Pick<T>(p: Option<T>, v: T): T
  {
    if p.Some? then p.value else v
  }

  /** `{ ...e, ...p }`. */
  function Merge(e: WissenEntry, p: WissenPatch): WissenEntry
  {
    WissenEntry(Pick(p.id, e.id), Pick(p.title, e.title), Pick(p.mediaType, e.mediaType),
                Pick(p.rating, e.rating), Pick(p.tags, e.tags), Pick(p.url, e.url), Pick(p.notes, e.notes),
                Pick(p.category, e.category), Pick(p.status, e.status), Pick(p.difficulty, e.difficulty),
                Pick(p.createdAt, e.createdAt), Pick(p.xpAwarded, e.xpAwarded))
  }

  /** What an update does to the shared XP total. */
  datatype XPEffect = NoXP | Revoke(amount: int) | Grant(amount: int)

  datatype UpdateOutcome = UpdateOutcome(entry: WissenEntry, effect: XPEffect)

  /** The status-transition rule of `updateWissenEntry`, given the stored entry and the merged one. */
  function StatusTransition(oldEntry: WissenEntry, merged: WissenEntry): UpdateOutcome
  {
    if oldEntry.status == merged.status then UpdateOutcome(merged, NoXP)
    else if oldEntry.xpAwarded && oldEntry.status == Beendet && merged.status != Beendet then
      UpdateOutcome(merged.(xpAwarded := false), Revoke(XPForEntry(oldEntry)))
    else if merged.status == Beendet && !merged.xpAwarded && XPForEntry(merged) > 0 then
      UpdateOutcome(merged.(xpAwarded := true), Grant(XPForEntry(merged)))
    else UpdateOutcome(merged, NoXP)
  }

  function ApplyEffect(s: Progression.TaskStats, effect: XPEffect): Progression.TaskStats
  {
    match effect
    case NoXP => s
    case Revoke(n) => Progression.WithXPRemoved(s, n)
    case Grant(n) => Progression.WithXPAdded(s, n)
  }

  /** An update that keeps the status neither grants nor revokes XP. */
  lemma SameStatusNoXP(oldEntry: WissenEntry, merged: WissenEntry)
    requires oldEntry.status == merged.status
    ensures StatusTransition(oldEntry, merged) == UpdateOutcome(merged, NoXP)
  {
  }

  /** Leaving `Beendet` with the flag set revokes the XP of the stored (old) entry and clears the flag. */
  lemma LeavingFinishedRevokes(oldEntry: WissenEntry, merged: WissenEntry)
    requires oldEntry.status == Beendet && merged.status != Beendet && oldEntry.xpAwarded
    ensures StatusTransition(oldEntry, merged).effect == Revoke(XPForEntry(oldEntry))
    ensures !StatusTransition(oldEntry, merged).entry.xpAwarded
  {
  }

  /** Entering `Beendet` without the flag grants the merged entry's XP and sets the flag,
      but only when that XP is positive; a zero-XP entry stays unflagged. */
  lemma EnteringFinishedGrants(oldEntry: WissenEntry, merged: WissenEntry)
    requires oldEntry.status != Beendet && merged.status == Beendet && !merged.xpAwarded
    ensures var o := StatusTransition(oldEntry, merged);
      && (XPForEntry(merged) > 0 ==> o.effect == Grant(XPForEntry(merged)) && o.entry.xpAwarded)
      && (XPForEntry(merged) == 0 ==> o.effect == NoXP && !o.entry.xpAwarded)
  {
  }

  /** Every other field of the result is the merged entry's; only the flag can differ. */
  lemma TransitionKeepsFields(oldEntry: WissenEntry, merged: WissenEntry)
    ensures StatusTransition(oldEntry, merged).entry == merged.(xpAwarded := StatusTransition(oldEntry, merged).entry.xpAwarded)
  {
  }

  /** An entry carries the flag only while it is `Beendet`: no edit through the form breaks this. */
  lemma FlagOnlyWhenFinished(e: WissenEntry, status: WissenStatus, category: WissenCategory,
                             difficulty: Option<WissenDifficulty>)
    requires e.xpAwarded ==> e.status == Beendet
    ensures var r := StatusTransition(e, Merge(e, EditPatch(status, category, difficulty))).entry;
            r.xpAwarded ==> r.status == Beendet
  {
  }

  /** Finishing an entry and then putting it back to its former status restores both
      the entry and the stats; finishing it again grants the XP again. */
  lemma FinishUnfinishRoundTrip(e: WissenEntry, s: Progression.TaskStats)
    requires e.status != Beendet && !e.xpAwarded && XPForEntry(e) > 0
    requires Progression.Valid(s) && s.totalXP >= 0
    ensures var o1 := StatusTransition(e, Merge(e, EditPatch(Beendet, e.category, e.difficulty)));
            var s1 := ApplyEffect(s, o1.effect);
            var o2 := StatusTransition(o1.entry, Merge(o1.entry, EditPatch(e.status, e.category, e.difficulty)));
            var s2 := ApplyEffect(s1, o2.effect);
            var o3 := StatusTransition(o2.entry, Merge(o2.entry, EditPatch(Beendet, e.category, e.difficulty)));
            && o1.entry.xpAwarded && s1.totalXP == s.totalXP + XPForEntry(e)
            && o2.entry == e && s2 == s
            && o3 == o1
  {
    Progression.AddThenRemoveRestores(s, XPForEntry(e));
  }

  /** The amount revoked is read from the entry as stored at revoke time: a `Projekt Klein`
      entry finished for 10 XP, then edited to `Anspruchsvoll` while still `Beendet`,
      takes back 30 XP when it is reopened. */
  lemma RevokeFollowsEditedDifficulty(e: WissenEntry)
    requires e.category == Projekt && e.difficulty == Some(Klein) && e.status == Geplant && !e.xpAwarded
    ensures var o1 := StatusTransition(e, Merge(e, EditPatch(Beendet, Projekt, Some(Klein))));
            var o2 := StatusTransition(o1.entry, Merge(o1.entry, EditPatch(Beendet, Projekt, Some(Anspruchsvoll))));
            var o3 := StatusTransition(o2.entry, Merge(o2.entry, EditPatch(Geplant, Projekt, Some(Anspruchsvoll))));
            o1.effect == Grant(10) && o2.effect == NoXP && o3.effect == Revoke(30)
  {
  }

  predicate IsRunningMedia(e: WissenEntry)
  {
    e.category == Medien && e.status == Laufend
  }

  /** `getRunningMedia`: `filter(...).slice(0, 3)`. */
  function RunningMedia(entries: seq<WissenEntry>): (r: seq<WissenEntry>)
    ensures |r| <= 3
    ensures forall i :: 0 <= i < |r| ==> IsRunningMedia(r[i])
    ensures IsSubseq(r, entries)
    ensures r <= Filter(entries, IsRunningMedia)
    ensures |r| == if |Filter(entries, IsRunningMedia)| < 3 then |Filter(entries, IsRunningMedia)| else 3
    ensures |Filter(entries, IsRunningMedia)| <= 3 ==> forall i :: 0 <= i < |entries| && IsRunningMedia(entries[i]) ==> entries[i] in r
  {
    var running := Filter(entries, IsRunningMedia);
    var k := if |running| < 3 then |running| else 3;
    SubseqPrefix(running, entries, k);
    assert k == |running| ==> running[..k] == running;
    running[..k]
  }

  /** The knowledge collection as `loadWissen` returns it. */
  class WissenStore {
    var entries: seq<WissenEntry>

    constructor ()
      ensures entries == []
    {
      entries := [];
    }

    /** `saveWissenEntry`: prepends; the stats are not touched, so saving an entry
        created as `Beendet` grants nothing. */
    method SaveWissenEntry(entry: WissenEntry)
      modifies this
      ensures entries == [entry] + old(entries)
    {
      entries := [entry] + entries;
    }

    /** `deleteWissenEntry`: gives back the first matching entry's XP when it holds the flag,
        then drops every entry with that id. */
    method DeleteWissenEntry(id: Id, stats: Progression.Stats)
      modifies this, stats
      ensures entries == Filter(old(entries), (e: WissenEntry) => e.id != id)
      ensures forall i :: 0 <= i < |entries| ==> entries[i].id != id
      ensures match FirstIndex(old(entries), (e: WissenEntry) => e.id == id)
              case None => stats.Snapshot() == old(stats.Snapshot())
              case Some(k) =>
                stats.Snapshot() == (if old(entries)[k].xpAwarded
                                     then Progression.WithXPRemoved(old(stats.Snapshot()), XPForEntry(old(entries)[k]))
                                     else old(stats.Snapshot()))
    {
      var found := FirstIndex(entries, (e: WissenEntry) => e.id == id);
      if found.Some? && entries[found.value].xpAwarded {
        var _ := stats.RemoveXP(XPForEntry(entries[found.value]));
      }
      entries := Filter(entries, (e: WissenEntry) => e.id != id);
    }

    /** `updateWissenEntry`: None for an unknown id, with nothing changed. */
    method UpdateWissenEntry(id: Id, updates: WissenPatch, stats: Progression.Stats) returns (r: Option<WissenEntry>)
      modifies this, stats
      ensures match FirstIndex(old(entries), (e: WissenEntry) => e.id == id)
              case None =>
                r == None && entries == old(entries) && stats.Snapshot() == old(stats.Snapshot())
              case Some(k) =>
                var o := StatusTransition(old(entries)[k], Merge(old(entries)[k], updates));
                && r == Some(o.entry)
                && entries == old(entries)[k := o.entry]
                && stats.Snapshot() == ApplyEffect(old(stats.Snapshot()), o.effect)
    {
      var index := FirstIndex(entries, (e: WissenEntry) => e.id == id);
      if index.None? {
        return None;
      }
      var oldEntry := entries[index.value];
      var newEntry := Merge(oldEntry, updates);
      if oldEntry.status != newEntry.status {
        if oldEntry.xpAwarded && oldEntry.status == Beendet && newEntry.status != Beendet {
          var _ := stats.RemoveXP(XPForEntry(oldEntry));
          newEntry := newEntry.(xpAwarded := false);
        }
        if newEntry.status == Beendet && !newEntry.xpAwarded {
          var xpAmount := XPForEntry(newEntry);
          if xpAmount > 0 {
            var _ := stats.AddXP(xpAmount);
            newEntry := newEntry.(xpAwarded := true);
          }
        }
      }
      entries := entries[index.value := newEntry];
      r := Some(newEntry);
    }
  }
}
