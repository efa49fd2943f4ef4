/**
 * The in-memory cache store: a map from cache key to the response stored
 * under it. Each operation runs alone here, which is what the store's
 * read/write lock gives every operation in the concurrent original.
 */
module Cache {
  import opened Bytes
  import opened Http

  /** One stored response: its body, its full header multimap and its content type. */
  datatype Entry = Entry(data: seq<byte>, headers: Header, contentType: string)

  /** Go's zero Entry, which Get returns for an absent key. */
  const ZeroEntry := Entry([], map[], "")

  class Cache {
    var entries: map<string, Entry>

    /** NewCache: an empty store. */
    constructor ()
      ensures entries == map[]
    {
      entries := map[];
    }

    /**
     * Set: the entry for key is replaced (the last write wins); every other
     * key keeps its entry, and no other key is added.
     */
    method Set(key: string, data: seq<byte>, headers: Header, contentType: string)
      modifies this
      ensures entries == old(entries)[key := Entry(data, headers, contentType)]
      ensures entries.Keys == old(entries).Keys + {key}
      ensures forall k :: k in old(entries) && k != key ==> entries[k] == old(entries)[k]
    {
      entries := entries[key := Entry(data, headers, contentType)];
    }

    /** Get: the entry under key and true, or the zero Entry and false; the store is not changed. */
    method Get(key: string) returns (entry: Entry, found: bool)
      ensures found <==> key in entries
      ensures found ==> entry == entries[key]
      ensures !found ==> entry == ZeroEntry
    {
      found := key in entries;
      entry := if found then entries[key] else ZeroEntry;
    }

    /** Clear: every entry is dropped, so a second Clear changes nothing more. */
    method Clear()
      modifies this
      ensures entries == map[]
    {
      entries := map[];
    }
  }
}
