/** Clients of the store, in the manner of its Go test: each starts from a new cache. */
module CacheTest {
  import opened Bytes
  import opened Http
  import Cache

  /** A key set and then read back gives exactly what was set. */
  method SetAndGet(key: string, data: seq<byte>, headers: Header, contentType: string)
    returns (entry: Cache.Entry, found: bool)
    ensures found
    ensures entry.data == data && entry.headers == headers && entry.contentType == contentType
  {
    var c := new Cache.Cache();
    c.Set(key, data, headers, contentType);
    entry, found := c.Get(key);
  }

  /** A new cache holds nothing: any key reads back as the zero Entry, not found. */
  method NewCacheIsEmpty(key: string) returns (entry: Cache.Entry, found: bool)
    ensures !found && entry == Cache.ZeroEntry
  {
    var c := new Cache.Cache();
    entry, found := c.Get(key);
  }

  /**
   * Of two writes to one key the second wins, and a write to another key
   * in between does not disturb either.
   */
  method LastWriteWins(key: string, other: string, first: Cache.Entry, second: Cache.Entry, third: Cache.Entry)
    returns (atKey: Cache.Entry, atOther: Cache.Entry)
    requires key != other
    ensures atKey == second && atOther == third
  {
    var c := new Cache.Cache();
    c.Set(key, first.data, first.headers, first.contentType);
    c.Set(other, third.data, third.headers, third.contentType);
    c.Set(key, second.data, second.headers, second.contentType);
    var found: bool;
    atKey, found := c.Get(key);
    atOther, found := c.Get(other);
  }

  /** After Clear, a key that was set is gone; a second Clear leaves the same empty store. */
  method ClearForgets(key: string, data: seq<byte>, headers: Header, contentType: string)
    returns (foundAfterOne: bool, foundAfterTwo: bool)
    ensures !foundAfterOne && !foundAfterTwo
  {
    var c := new Cache.Cache();
    c.Set(key, data, headers, contentType);
    c.Clear();
    var entry;
    entry, foundAfterOne := c.Get(key);
    c.Clear();
    entry, foundAfterTwo := c.Get(key);
  }
}
