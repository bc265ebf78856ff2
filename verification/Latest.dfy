/** The most recent accepted measurement of each probe, kept in memory. */
module Latest {
  import opened Wire

  /** `at` is the gateway's own clock, in nanoseconds. */
  datatype Entry = Entry(results: Results, at: int)

  type Entries = map<string, Entry>

  class Store {
    var entries: Entries

    constructor ()
      ensures entries == map[]
    {
      entries := map[];
    }

    method Put(probeID: string, results: Results, at: int)
      modifies this
      ensures entries == old(entries)[probeID := Entry(results, at)]
    {
      entries := entries[probeID := Entry(results, at)];
    }

    method Get(probeID: string) returns (e: Option<Entry>)
      ensures e == if probeID in entries then Some(entries[probeID]) else None
    {
      e := if probeID in entries then Some(entries[probeID]) else None;
    }

    method Delete(probeID: string)
      modifies this
      ensures entries == old(entries) - {probeID}
    {
      entries := entries - {probeID};
    }
  }
}
