/** The journal of `src/lib/journal.ts`: a log of entries, newest first. */
module Journal {

  type Id = string

  datatype JournalType = Reflection | Gratitude | Idea

  /** `date` is the full ISO timestamp of the moment of writing. */
  datatype JournalEntry = JournalEntry(id: Id, date: string, content: string, entryType: JournalType)

  /** The entries as `loadJournalEntries` returns them. */
  class JournalStore {
    var entries: seq<JournalEntry>

    constructor ()
      ensures entries == []
    {
      entries := [];
    }

    /** `saveJournalEntry`: `id` and `now` stand for the id generator and the clock. The new
        entry goes first and the older ones follow unchanged. */
    method SaveJournalEntry(content: string, id: Id, now: string, entryType: JournalType := Reflection)
      returns (entry: JournalEntry)
      modifies this
      ensures entry == JournalEntry(id, now, content, entryType)
      ensures entries == [entry] + old(entries)
      ensures |entries| == |old(entries)| + 1 && entries[0] == entry && entries[1..] == old(entries)
    {
      entry := JournalEntry(id, now, content, entryType);
      entries := [entry] + entries;
    }
  }
}
