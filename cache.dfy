/** The response cache, seen through the two operations the core uses on
    it: `peek` (look up without touching recency) and `set` (insert or
    replace). Eviction and expiry are not part of this model. */
module Cache {
  import opened Common

  /** What is stored per key: the complete response bytes (`full`) and the
      `content-encoding` the response had (`encoding`). */
  datatype Entry = Entry(full: seq<byte>, encoding: Option<string>)

  /** The shared cache object (`ctx.lru`). */
  class Lru {
    var entries: map<string, Entry>

    constructor ()
      ensures entries == map[]
    {
      entries := map[];
    }

    /** `peek(key)`: the stored entry, or `undefined`, with no change to the
        cache. */
    method Peek(key: string) returns (e: Option<Entry>)
      ensures e.Some? <==> key in entries
      ensures e.Some? ==> e.value == entries[key]
    {
      e := Get(entries, key);
    }

    /** `set(key, entry)`: last write wins, other keys are untouched. */
    method Set(key: string, entry: Entry)
      modifies this
      ensures entries == old(entries)[key := entry]
    {
      entries := entries[key := entry];
    }
  }
}
