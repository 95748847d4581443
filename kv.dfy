/**
 * The Workers KV namespace bound as `URLS`: a slug -> destination URL store
 * with `get` (null when absent) and `put` (insert or overwrite).
 */
module Kv {
  import opened Wrappers

  class KvNamespace {
    var entries: map<string, string>

    constructor (initial: map<string, string>)
      ensures entries == initial
    {
      entries := initial;
    }

    /** `get(key)`: the stored value, or `null` when the key has never been put. */
    method Get(key: string) returns (v: Option<string>)
      ensures v.Some? <==> key in entries
      ensures v.Some? ==> v.value == entries[key]
    {
      v := if key in entries then Some(entries[key]) else None;
    }

    /** `put(key, value)`: inserts or overwrites one entry and nothing else. */
    method Put(key: string, value: string)
      modifies this
      ensures entries == old(entries)[key := value]
    {
      entries := entries[key := value];
    }
  }
}
