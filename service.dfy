/** HackerNewsService: the batch fetch-and-filter and the three
    cache-or-fetch operations. Each operation is a method on the service
    object that reads and writes the shared cache; each is proved against a
    step function that gives its result and the cache it leaves behind. */
module Service {
  import opened Wrappers
  import opened StoryModel
  import opened Linq
  import opened Text
  import opened MemoryCache

  /** `storyIds.Take(200)` */
  const MaxStoryIds: int := 200
  /** `TimeSpan.FromMinutes(5)`, in seconds */
  const CacheTtl: int := 300
  /** The key of the cached top-stories result. */
  const TopStoriesKey: string := "TopStoriesResponse"
  /** The key of the cached new-story id list. */
  const NewStoryIdsKey: string := "NewStoryIds"

  /** `$"Story_{id}"`: the key of one cached story. No story key collides
      with the two fixed keys. */
  function StoryKey(id: int): (k: string)
    ensures k != NewStoryIdsKey && k != TopStoriesKey
  {
    var k := "Story_" + IntToDecimal(id);
    assert k[0] == 'S';
    k
  }

  /** Distinct ids get distinct cache keys. */
  lemma StoryKeyInjective(a: int, b: int)
    requires StoryKey(a) == StoryKey(b)
    ensures a == b
  {
    assert StoryKey(a)[6..] == IntToDecimal(a);
    assert StoryKey(b)[6..] == IntToDecimal(b);
    IntToDecimalInjective(a, b);
  }

  /** What one operation returns and the cache entries it leaves. */
  datatype Step<T> = Step(value: T, entries: map<string, Entry>)

  // ---------------------------------------------------------------------
  // The uncached batch path used by the top-stories computation
  // ---------------------------------------------------------------------

  /** GetStoryAsync: fetch one item; any failure is logged and becomes
      null. */
  function GetStory(up: Upstream, id: int): (s: Option<Story>)
    ensures up.item(id).Ok? ==> s == up.item(id).value
    ensures up.item(id).Exception? ==> s == None
  {
    match up.item(id)
    case Ok(story) => story
    case Exception => None
  }

  /** `Where(s => s != null && !string.IsNullOrEmpty(s.Url))`, keeping the
      input order. */
  function KeepLinked(xs: seq<Option<Story>>): (r: seq<Story>)
    ensures |r| <= |xs|
    ensures forall i :: 0 <= i < |r| ==> Linked(r[i])
  {
    if xs == [] then []
    else if HasLink(xs[0]) then [xs[0].value] + KeepLinked(xs[1..])
    else KeepLinked(xs[1..])
  }

  /** The filter distributes over concatenation: it keeps input order. */
  lemma {:induction false} KeepLinkedAppend(a: seq<Option<Story>>, b: seq<Option<Story>>)
    ensures KeepLinked(a + b) == KeepLinked(a) + KeepLinked(b)
    decreases |a|
  {
    if a != [] {
      assert (a + b)[0] == a[0];
      assert (a + b)[1..] == a[1..] + b;
      KeepLinkedAppend(a[1..], b);
    } else {
      assert a + b == b;
    }
  }

  /** A story survives the filter exactly when it was fetched and has a
      non-empty Url. */
  lemma {:induction false} KeepLinkedMembership(xs: seq<Option<Story>>, s: Story)
    ensures s in KeepLinked(xs) <==> Some(s) in xs && Linked(s)
    decreases |xs|
  {
    if xs != [] {
      KeepLinkedMembership(xs[1..], s);
      assert xs == [xs[0]] + xs[1..];
    }
  }

  /** `storyIds.Select(id => GetStoryAsync(id))` awaited with
      `Task.WhenAll`: one result per id, in id order whatever the order of
      completion. */
  function FetchEach(ids: seq<int>, up: Upstream): (r: seq<Option<Story>>)
    ensures |r| == |ids|
    ensures forall i :: 0 <= i < |ids| ==> r[i] == GetStory(up, ids[i])
  {
    seq(|ids|, i requires 0 <= i < |ids| => GetStory(up, ids[i]))
  }

  /** GetStoriesBatchAsync: fetch every id and keep the linked stories.
      Every survivor has a non-empty Url and there are at most as many as
      ids. */
  function GetStoriesBatch(ids: seq<int>, up: Upstream): (r: seq<Story>)
    ensures |r| <= |ids|
    ensures forall i :: 0 <= i < |r| ==> Linked(r[i])
  {
    KeepLinked(FetchEach(ids, up))
  }

  /** The batch over a concatenation is the concatenation of the batches:
      results follow input-id order. */
  lemma BatchAppend(ids1: seq<int>, ids2: seq<int>, up: Upstream)
    ensures GetStoriesBatch(ids1 + ids2, up) == GetStoriesBatch(ids1, up) + GetStoriesBatch(ids2, up)
  {
    assert FetchEach(ids1 + ids2, up) == FetchEach(ids1, up) + FetchEach(ids2, up);
    KeepLinkedAppend(FetchEach(ids1, up), FetchEach(ids2, up));
  }

  /** An id whose fetch fails, finds nothing, or finds a story without a Url
      is dropped and does not abort the batch: the rest come through as if
      it were not there. */
  lemma BatchDropsUnlinked(ids1: seq<int>, id: int, ids2: seq<int>, up: Upstream)
    requires up.item(id).Exception? || !HasLink(GetStory(up, id))
    ensures GetStoriesBatch(ids1 + [id] + ids2, up) == GetStoriesBatch(ids1, up) + GetStoriesBatch(ids2, up)
  {
    BatchAppend(ids1 + [id], ids2, up);
    BatchAppend(ids1, [id], up);
    assert FetchEach([id], up) == [GetStory(up, id)];
    assert KeepLinked([GetStory(up, id)]) == [];
  }

  /** A story is in the batch exactly when it has a non-empty Url and is
      what some id's fetch returned. */
  lemma BatchMembership(ids: seq<int>, up: Upstream, s: Story)
    ensures s in GetStoriesBatch(ids, up) <==>
            Linked(s) && exists i :: 0 <= i < |ids| && GetStory(up, ids[i]) == Some(s)
  {
    var fetched := FetchEach(ids, up);
    KeepLinkedMembership(fetched, s);
    if Some(s) in fetched {
      var i :| 0 <= i < |fetched| && fetched[i] == Some(s);
      assert GetStory(up, ids[i]) == Some(s);
    }
    if exists i :: 0 <= i < |ids| && GetStory(up, ids[i]) == Some(s) {
      var i :| 0 <= i < |ids| && GetStory(up, ids[i]) == Some(s);
      assert fetched[i] == Some(s);
    }
  }

  // ---------------------------------------------------------------------
  // Typed cache reads
  // ---------------------------------------------------------------------

  /** `TryGetValue<IEnumerable<int>>("NewStoryIds")`: a live id list; a live
      value of another type reads as a miss. */
  function CachedIds(entries: map<string, Entry>, now: int): (r: Option<seq<int>>)
    ensures r.Some? ==> NewStoryIdsKey in entries && now < entries[NewStoryIdsKey].expiry &&
                        entries[NewStoryIdsKey].value == IdList(r.value)
    ensures r.None? ==> NewStoryIdsKey !in entries || entries[NewStoryIdsKey].expiry <= now ||
                        !entries[NewStoryIdsKey].value.IdList?
  {
    match Lookup(entries, now, NewStoryIdsKey)
    case Some(IdList(ids)) => Some(ids)
    case _ => None
  }

  /** `TryGetValue<Story>($"Story_{id}")`: a live story entry, which may
      hold null; a live value of another type reads as a miss. */
  function CachedStory(entries: map<string, Entry>, now: int, id: int): (r: Option<Option<Story>>)
    ensures r.Some? ==> StoryKey(id) in entries && now < entries[StoryKey(id)].expiry &&
                        entries[StoryKey(id)].value == StoryItem(r.value)
    ensures r.None? ==> StoryKey(id) !in entries || entries[StoryKey(id)].expiry <= now ||
                        !entries[StoryKey(id)].value.StoryItem?
  {
    match Lookup(entries, now, StoryKey(id))
    case Some(StoryItem(story)) => Some(story)
    case _ => None
  }

  // ---------------------------------------------------------------------
  // The three cache-or-fetch operations as step functions
  // ---------------------------------------------------------------------

  /** GetNewStoryIdsAsync. On a hit the cached list comes back and the cache
      is untouched. On a miss the upstream list is capped at 200, stored
      under "NewStoryIds" for five minutes, and returned; a failed fetch
      throws and stores nothing. No other key ever changes. */
  function NewStoryIdsStep(entries: map<string, Entry>, now: int, up: Upstream): (s: Step<Result<seq<int>>>)
    ensures s.entries - {NewStoryIdsKey} == entries - {NewStoryIdsKey}
    ensures s.value.Ok? ==> CachedIds(s.entries, now) == Some(s.value.value)
    ensures s.value.Exception? ==> s.entries == entries
    ensures CachedIds(entries, now).Some? ==> s == Step(Ok(CachedIds(entries, now).value), entries)
    ensures CachedIds(entries, now).None? ==> (s.value.Ok? <==> up.newStories.Ok?)
    ensures CachedIds(entries, now).None? && up.newStories.Ok? ==>
              s.value.value <= up.newStories.value &&
              |s.value.value| == Min(MaxStoryIds, |up.newStories.value|) &&
              s.entries[NewStoryIdsKey].expiry == now + CacheTtl
  {
    match CachedIds(entries, now)
    case Some(ids) => Step(Ok(ids), entries)
    case None =>
      match up.newStories
      case Exception => Step(Exception, entries)
      case Ok(all) =>
        var ids := Take(all, MaxStoryIds);
        Step(Ok(ids), Store(entries, now, NewStoryIdsKey, IdList(ids), CacheTtl))
  }

  /** GetStoryByIdAsync. On a hit the cached story (possibly null) comes back
      and the cache is untouched. On a miss the item is fetched, stored under
      "Story_{id}" for five minutes (null included) and returned. Unlike
      GetStoryAsync, a failed fetch is not caught: it throws and stores
      nothing. No other key ever changes. */
  function StoryByIdStep(entries: map<string, Entry>, now: int, up: Upstream, id: int): (s: Step<Result<Option<Story>>>)
    ensures s.entries - {StoryKey(id)} == entries - {StoryKey(id)}
    ensures s.value.Ok? ==> CachedStory(s.entries, now, id) == Some(s.value.value)
    ensures s.value.Exception? ==> s.entries == entries
    ensures CachedStory(entries, now, id).Some? ==> s == Step(Ok(CachedStory(entries, now, id).value), entries)
    ensures CachedStory(entries, now, id).None? ==> s.value == up.item(id)
    ensures CachedStory(entries, now, id).None? && s.value.Ok? ==> s.entries[StoryKey(id)].expiry == now + CacheTtl
  {
    match CachedStory(entries, now, id)
    case Some(story) => Step(Ok(story), entries)
    case None =>
      match up.item(id)
      case Exception => Step(Exception, entries)
      case Ok(story) => Step(Ok(story), Store(entries, now, StoryKey(id), StoryItem(story), CacheTtl))
  }

  /** GetTopStoriesAsync (`GetOrCreateAsync` on "TopStoriesResponse"). On a
      hit the stored list comes back whatever `count` is, and the cache is
      untouched. On a miss: the id list (itself cached), its first 200 ids
      fetched as a batch, the first `count` linked survivors stored for five
      minutes and returned. A failure of the id-list fetch is rethrown; the
      cast of a live value of another type throws too. Only the two keys it
      uses can change. */
  function TopStoriesStep(entries: map<string, Entry>, now: int, up: Upstream, count: int): (s: Step<Result<seq<Story>>>)
    ensures s.entries - {TopStoriesKey, NewStoryIdsKey} == entries - {TopStoriesKey, NewStoryIdsKey}
    ensures s.value.Exception? ==> s.entries == entries
    ensures Lookup(entries, now, TopStoriesKey).None? ==>
              s.entries - {TopStoriesKey} == NewStoryIdsStep(entries, now, up).entries - {TopStoriesKey}
    ensures s.value.Ok? ==> Lookup(s.entries, now, TopStoriesKey) == Some(StoryList(s.value.value))
    ensures Lookup(entries, now, TopStoriesKey).Some? && Lookup(entries, now, TopStoriesKey).value.StoryList? ==>
              s == Step(Ok(Lookup(entries, now, TopStoriesKey).value.stories), entries)
    ensures Lookup(entries, now, TopStoriesKey).None? ==>
              (s.value.Ok? <==> NewStoryIdsStep(entries, now, up).value.Ok?)
    ensures Lookup(entries, now, TopStoriesKey).None? && s.value.Ok? ==>
              var ids := NewStoryIdsStep(entries, now, up).value.value;
              |s.value.value| <= Max(count, 0) &&
              s.value.value <= GetStoriesBatch(Take(ids, MaxStoryIds), up) &&
              |s.value.value| == (if count <= 0 then 0 else Min(count, |GetStoriesBatch(Take(ids, MaxStoryIds), up)|)) &&
              (forall i :: 0 <= i < |s.value.value| ==> Linked(s.value.value[i])) &&
              s.entries[TopStoriesKey].expiry == now + CacheTtl
  {
    match Lookup(entries, now, TopStoriesKey)
    case Some(StoryList(stories)) => Step(Ok(stories), entries)
    case Some(_) => Step(Exception, entries)
    case None =>
      var ids := NewStoryIdsStep(entries, now, up);
      match ids.value
      case Exception => Step(Exception, ids.entries)
      case Ok(idList) =>
        var top := Take(GetStoriesBatch(Take(idList, MaxStoryIds), up), count);
        Step(Ok(top), Store(ids.entries, now, TopStoriesKey, StoryList(top), CacheTtl))
  }

  // ---------------------------------------------------------------------
  // What the operations keep true of the cache
  // ---------------------------------------------------------------------

  /** What every entry the service writes looks like: the id list holds at
      most 200 ids, the top-stories list holds only linked stories, and a
      story key holds a story. */
  ghost predicate CacheInvariant(entries: map<string, Entry>) {
    (NewStoryIdsKey in entries ==>
       entries[NewStoryIdsKey].value.IdList? &&
       |entries[NewStoryIdsKey].value.ids| <= MaxStoryIds) &&
    (TopStoriesKey in entries ==>
       entries[TopStoriesKey].value.StoryList? &&
       forall i :: 0 <= i < |entries[TopStoriesKey].value.stories| ==>
                     Linked(entries[TopStoriesKey].value.stories[i])) &&
    (forall id :: StoryKey(id) in entries ==> entries[StoryKey(id)].value.StoryItem?)
  }

  /** Only the value stored under `key` differs; everything else reads as
      before. */
  lemma SameOutside(before: map<string, Entry>, after: map<string, Entry>, keys: set<string>, k: string)
    requires after - keys == before - keys
    requires k !in keys
    ensures k in after <==> k in before
    ensures k in after ==> after[k] == before[k]
  {
    assert k in after <==> k in after - keys;
    assert k in before <==> k in before - keys;
    if k in after {
      assert after[k] == (after - keys)[k];
      assert before[k] == (before - keys)[k];
    }
  }

  lemma NewStoryIdsKeepsInvariant(entries: map<string, Entry>, now: int, up: Upstream)
    requires CacheInvariant(entries)
    ensures CacheInvariant(NewStoryIdsStep(entries, now, up).entries)
  {
  }

  lemma StoryByIdKeepsInvariant(entries: map<string, Entry>, now: int, up: Upstream, id: int)
    requires CacheInvariant(entries)
    ensures CacheInvariant(StoryByIdStep(entries, now, up, id).entries)
  {
  }

  lemma TopStoriesKeepsInvariant(entries: map<string, Entry>, now: int, up: Upstream, count: int)
    requires CacheInvariant(entries)
    ensures CacheInvariant(TopStoriesStep(entries, now, up, count).entries)
  {
  }

  /** With the invariant, the id list handed out, cached or fresh, never
      holds more than 200 ids. */
  lemma NewStoryIdsAtMost200(entries: map<string, Entry>, now: int, up: Upstream)
    requires CacheInvariant(entries)
    ensures var s := NewStoryIdsStep(entries, now, up);
            s.value.Ok? ==> |s.value.value| <= MaxStoryIds
  {
  }

  /** With the invariant, every top story handed out, cached or fresh, has a
      non-empty Url, and the operation throws only when fetching the id list
      fails: the cast of the cached value never does. */
  lemma TopStoriesAlwaysLinked(entries: map<string, Entry>, now: int, up: Upstream, count: int)
    requires CacheInvariant(entries)
    ensures var s := TopStoriesStep(entries, now, up, count);
            (s.value.Ok? ==> forall i :: 0 <= i < |s.value.value| ==> Linked(s.value.value[i])) &&
            (s.value.Exception? ==> Lookup(entries, now, TopStoriesKey).None? &&
                                    NewStoryIdsStep(entries, now, up).value.Exception?)
  {
  }

  // ---------------------------------------------------------------------
  // What a second call sees
  // ---------------------------------------------------------------------

  /** A second GetNewStoryIdsAsync before the entry expires returns the same
      list and changes nothing, whatever upstream says by then. */
  lemma NewStoryIdsRepeat(entries: map<string, Entry>, now: int, up: Upstream, later: int, up2: Upstream)
    requires NewStoryIdsStep(entries, now, up).value.Ok?
    requires now <= later < NewStoryIdsStep(entries, now, up).entries[NewStoryIdsKey].expiry
    ensures var first := NewStoryIdsStep(entries, now, up);
            NewStoryIdsStep(first.entries, later, up2) == first
  {
  }

  /** A second GetTopStoriesAsync before the entry expires returns the list
      the first call stored, whatever count either call passed and whatever
      upstream says by then: the count of the call that filled the entry
      decides the length for five minutes. */
  lemma TopStoriesRepeat(entries: map<string, Entry>, now: int, up: Upstream, count: int,
                         later: int, up2: Upstream, count2: int)
    requires TopStoriesStep(entries, now, up, count).value.Ok?
    requires now <= later < TopStoriesStep(entries, now, up, count).entries[TopStoriesKey].expiry
    ensures var first := TopStoriesStep(entries, now, up, count);
            TopStoriesStep(first.entries, later, up2, count2) == first
  {
  }

  /** Fetching one story never changes what another id resolves to, and a
      second fetch of the same id returns what the first did: per-story keys
      are distinct. */
  lemma StoryByIdKeepsResolution(entries: map<string, Entry>, now: int, up: Upstream, id: int, other: int)
    ensures var after := StoryByIdStep(entries, now, up, id).entries;
            StoryByIdStep(after, now, up, other).value == StoryByIdStep(entries, now, up, other).value
  {
    var first := StoryByIdStep(entries, now, up, id);
    if other == id {
      if first.value.Ok? {
        assert CachedStory(first.entries, now, id) == Some(first.value.value);
      }
    } else {
      if StoryKey(other) == StoryKey(id) {
        StoryKeyInjective(other, id);
      }
      SameOutside(entries, first.entries, {StoryKey(id)}, StoryKey(other));
      assert Lookup(first.entries, now, StoryKey(other)) == Lookup(entries, now, StoryKey(other));
    }
  }

  // ---------------------------------------------------------------------
  // The service object
  // ---------------------------------------------------------------------

  /** HackerNewsService: holds the injected cache; every operation takes
      the upstream snapshot it talks to. */
  class HackerNewsService {
    const cache: Cache

    constructor (cache: Cache)
      ensures this.cache == cache
    {
      this.cache := cache;
    }

    method GetNewStoryIds(up: Upstream) returns (r: Result<seq<int>>)
      modifies cache`entries
      ensures Step(r, cache.entries) == NewStoryIdsStep(old(cache.entries), cache.now, up)
    {
      var hit := cache.TryGetValue(NewStoryIdsKey);
      if hit.Some? && hit.value.IdList? {
        return Ok(hit.value.ids);
      }
      match up.newStories
      case Exception =>
        r := Exception;
      case Ok(all) =>
        var ids := Take(all, MaxStoryIds);
        cache.Set(NewStoryIdsKey, IdList(ids), CacheTtl);
        r := Ok(ids);
    }

    method GetStoryById(up: Upstream, id: int) returns (r: Result<Option<Story>>)
      modifies cache`entries
      ensures Step(r, cache.entries) == StoryByIdStep(old(cache.entries), cache.now, up, id)
    {
      var key := StoryKey(id);
      var hit := cache.TryGetValue(key);
      if hit.Some? && hit.value.StoryItem? {
        return Ok(hit.value.story);
      }
      match up.item(id)
      case Exception =>
        r := Exception;
      case Ok(story) =>
        cache.Set(key, StoryItem(story), CacheTtl);
        r := Ok(story);
    }

    method GetTopStories(up: Upstream, count: int) returns (r: Result<seq<Story>>)
      modifies cache`entries
      ensures Step(r, cache.entries) == TopStoriesStep(old(cache.entries), cache.now, up, count)
    {
      var hit := cache.TryGetValue(TopStoriesKey);
      if hit.Some? {
        if hit.value.StoryList? {
          return Ok(hit.value.stories);
        }
        // the cast to IEnumerable<Story> fails
        return Exception;
      }
      var ids := GetNewStoryIds(up);
      if ids.Exception? {
        return Exception;
      }
      var stories := GetStoriesBatch(Take(ids.value, MaxStoryIds), up);
      var top := Take(stories, count);
      cache.Set(TopStoriesKey, StoryList(top), CacheTtl);
      r := Ok(top);
    }
  }
}
