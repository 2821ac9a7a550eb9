/** The mock `HistoryService` (src/services/historyService.ts): the weight log
    `MOCK_HISTORY`, newest first. */
module HistoryService {
  import opened Common

  datatype HistoryEntry = HistoryEntry(
    id: string, date: string, weight: real, notes: Option<string>, calories: Option<real>)

  /** `Omit<HistoryEntry, 'id'>`: what a caller hands in. */
  datatype NewEntry = NewEntry(date: string, weight: real, notes: Option<string>, calories: Option<real>)

  /** `{ ...entry, id }`. */
  function WithId(entry: NewEntry, id: string): (e: HistoryEntry)
    ensures e.id == id && e.date == entry.date && e.weight == entry.weight
    ensures e.notes == entry.notes && e.calories == entry.calories
  {
    HistoryEntry(id, entry.date, entry.weight, entry.notes, entry.calories)
  }

  /** Dropping the id gives back exactly what was handed in. */
  function WithoutId(e: HistoryEntry): NewEntry
  {
    NewEntry(e.date, e.weight, e.notes, e.calories)
  }

  lemma WithIdRoundTrip(entry: NewEntry, id: string)
    ensures WithoutId(WithId(entry, id)) == entry
  {
  }

  const InitialHistory: seq<HistoryEntry> := [
    HistoryEntry("1", "2023-10-01", 80.0, Some("Started diet"), Some(2200.0)),
    HistoryEntry("2", "2023-10-08", 79.0, Some("Feeling good"), Some(2100.0)),
    HistoryEntry("3", "2023-10-15", 78.5, None, Some(2050.0)),
    HistoryEntry("4", "2023-10-22", 77.8, Some("Cheat meal on Sunday"), Some(2300.0))
  ]

  class HistoryStore {
    var entries: seq<HistoryEntry>

    constructor ()
      ensures entries == InitialHistory
    {
      entries := InitialHistory;
    }

    /** `getHistory`: a copy of the log in stored order, for any user. */
    method GetHistory(userId: string) returns (copy: seq<HistoryEntry>)
      ensures copy == entries
    {
      copy := entries[..];
    }

    /** `addHistoryEntry`, with the random id as a parameter: the new entry
        goes in front and the older ones follow in their order. */
    method AddHistoryEntry(entry: NewEntry, id: string) returns (added: HistoryEntry)
      modifies this
      ensures added == WithId(entry, id)
      ensures entries == [added] + old(entries)
      ensures |entries| == |old(entries)| + 1 && entries[0] == added && entries[1..] == old(entries)
    {
      added := WithId(entry, id);
      entries := [added] + entries;
    }
  }
}
