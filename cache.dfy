/** The process-local key/value store with absolute expiry that the service
    is given (`IMemoryCache`), reduced to what the service uses:
    `TryGetValue`, `Set` with a time-to-live, and the hit/miss check at the
    start of `GetOrCreateAsync`. Time is an explicit clock in seconds. */
module MemoryCache {
  import opened Wrappers
  import opened StoryModel

  /** The three kinds of value the service stores: the capped new-story id
      list, one (possibly null) story, and the top-stories list. */
  datatype CacheValue =
    | IdList(ids: seq<int>)
    | StoryItem(story: Option<Story>)
    | StoryList(stories: seq<Story>)

  /** A stored value with its absolute expiry time. */
  datatype Entry = Entry(value: CacheValue, expiry: int)

  /** The value under `key` if its entry has not yet expired at `now`; an
      entry whose expiry is at or before `now` is never returned. */
  function Lookup(entries: map<string, Entry>, now: int, key: string): (r: Option<CacheValue>)
    ensures r.Some? ==> key in entries && now < entries[key].expiry && entries[key].value == r.value
    ensures r.None? ==> key !in entries || entries[key].expiry <= now
  {
    if key in entries && now < entries[key].expiry then Some(entries[key].value) else None
  }

  /** `Set(key, value, ttl)`: replace whatever is under `key` by `value`,
      expiring `ttl` seconds after `now`. */
  function Store(entries: map<string, Entry>, now: int, key: string, value: CacheValue, ttl: int): (r: map<string, Entry>)
    ensures r.Keys == entries.Keys + {key}
    ensures r - {key} == entries - {key}
  {
    entries[key := Entry(value, now + ttl)]
  }

  /** A stored value is returned by every lookup before its time-to-live has
      elapsed and by none after; the other keys read as before. */
  lemma StoreThenLookup(entries: map<string, Entry>, now: int, key: string, value: CacheValue, ttl: int, later: int, other: string)
    requires other != key
    ensures Lookup(Store(entries, now, key, value, ttl), later, key) ==
            (if later < now + ttl then Some(value) else None)
    ensures Lookup(Store(entries, now, key, value, ttl), later, other) == Lookup(entries, later, other)
  {
  }

  /** The cache object shared by every request. */
  class Cache {
    var entries: map<string, Entry>
    var now: int

    constructor (start: int)
      ensures entries == map[] && now == start
    {
      entries := map[];
      now := start;
    }

    /** `TryGetValue(key, out value)`: the live value, if any. Reading
        changes nothing. */
    method TryGetValue(key: string) returns (r: Option<CacheValue>)
      ensures r == Lookup(entries, now, key)
    {
      if key in entries && now < entries[key].expiry {
        r := Some(entries[key].value);
      } else {
        r := None;
      }
    }

    /** `Set(key, value, TimeSpan)`: an unconditional write; the clock does
        not move. */
    method Set(key: string, value: CacheValue, ttl: int)
      modifies this`entries
      ensures entries == Store(old(entries), now, key, value, ttl)
    {
      entries := entries[key := Entry(value, now + ttl)];
    }

    /** Time passes between requests. */
    method Advance(seconds: nat)
      modifies this`now
      ensures now == old(now) + seconds
    {
      now := now + seconds;
    }
  }
}
