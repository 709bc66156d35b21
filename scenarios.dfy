/** Concrete runs: the controller tests' fixtures and the worked examples of
    the service's behaviour, stated as lemmas over the model. */
module Scenarios {
  import opened Wrappers
  import opened StoryModel
  import opened Linq
  import opened Text
  import opened MemoryCache
  import opened Service
  import opened Controller

  const Story1: Story := Story(1, Some("Story 1"), Some("http://example.com/1"))
  const Story2: Story := Story(2, Some("Story 2"), Some("http://example.com/2"))

  /** The test fixture's item lookup: stories 1 and 2 exist, anything else
      deserializes to null. */
  function FixtureItem(id: int): Result<Option<Story>> {
    if id == 1 then Ok(Some(Story1)) else if id == 2 then Ok(Some(Story2)) else Ok(None)
  }

  /** Ids [1, 2, 3] upstream. */
  function Fixture(): Upstream {
    Upstream(Ok([1, 2, 3]), FixtureItem)
  }

  /** On a cold cache the first request reads [1, 2, 3] and caches it; story
      lookups then see an otherwise empty cache and go upstream. */
  lemma FixtureResolves(now: int)
    ensures NewStoryIdsStep(map[], now, Fixture()).value == Ok([1, 2, 3])
    ensures ResolveAll([1, 2, 3], NewStoryIdsStep(map[], now, Fixture()).entries, now, Fixture()) ==
            Ok([Some(Story1), Some(Story2), None])
  {
    var entries := NewStoryIdsStep(map[], now, Fixture()).entries;
    assert entries.Keys == {NewStoryIdsKey};
    forall id ensures CachedStory(entries, now, id) == None {
      assert StoryKey(id) !in entries;
    }
    assert StoryByIdStep(entries, now, Fixture(), 3).value == Ok(None);
    assert StoryByIdStep(entries, now, Fixture(), 2).value == Ok(Some(Story2));
    assert StoryByIdStep(entries, now, Fixture(), 1).value == Ok(Some(Story1));
    var none: seq<Option<Story>> := [None];
    ResolveCons(3, [], entries, now, Fixture(), None, []);
    assert [3] + [] == [3] && [None] + [] == none;
    ResolveCons(2, [3], entries, now, Fixture(), Some(Story2), none);
    assert [2] + [3] == [2, 3] && [Some(Story2)] + none == [Some(Story2), None];
    ResolveCons(1, [2, 3], entries, now, Fixture(), Some(Story1), [Some(Story2), None]);
    assert [1] + [2, 3] == [1, 2, 3];
    assert [Some(Story1)] + [Some(Story2), None] == [Some(Story1), Some(Story2), None];
  }

  /** One more id in front of a resolved list. */
  lemma ResolveCons(id: int, rest: seq<int>, entries: map<string, Entry>, now: int, up: Upstream,
                    story: Option<Story>, tail: seq<Option<Story>>)
    requires StoryByIdStep(entries, now, up, id).value == Ok(story)
    requires ResolveAll(rest, entries, now, up) == Ok(tail)
    ensures ResolveAll([id] + rest, entries, now, up) == Ok([story] + tail)
  {
  }

  /** GetNewStories_ReturnsOkResult: the default page holds the two stories
      that exist, in id order. */
  lemma NewStoriesFixture(now: int)
    ensures NewStoriesAction(map[], now, Fixture(), 1, 10).value == OkStories([Story1, Story2])
  {
    NewStoriesPagesThenFilters(map[], now, Fixture(), 1, 10);
    FixtureResolves(now);
    FixtureFirstPage();
    FixtureKeepsLinked();
  }

  /** The default page of the fixture's three ids is all of them. */
  lemma FixtureFirstPage()
    ensures Paginate([1, 2, 3], 1, 10) == [1, 2, 3]
  {
    FirstPageIsPrefix([1, 2, 3], 10);
  }

  /** The batch filter keeps the fixture's two stories and drops the null. */
  lemma FixtureKeepsLinked()
    ensures KeepLinked([Some(Story1), Some(Story2), None]) == [Story1, Story2]
  {
    var resolved := [Some(Story1), Some(Story2), None];
    assert resolved[1..][1..] == [None];
    assert KeepLinked([None]) == [];
    assert KeepLinked(resolved[1..]) == [Story2];
  }

  /** Both fixture stories pass the search condition for "Story". */
  lemma FixtureTitlesMatch()
    ensures Admits(LinkAndTitle("Story"), Some(Story1)) == Ok(true)
    ensures Admits(LinkAndTitle("Story"), Some(Story2)) == Ok(true)
  {
  }

  /** Filtering the fixture's resolved stories for "Story" keeps both. */
  lemma FixtureMatches()
    ensures FilterStories(LinkAndTitle("Story"), [Some(Story1), Some(Story2), None]) == Ok([Story1, Story2])
  {
    FixtureTitlesMatch();
    var resolved := [Some(Story1), Some(Story2), None];
    var f := LinkAndTitle("Story");
    var none: seq<Option<Story>> := [None];
    assert none[1..] == [];
    assert FilterStories(f, none) == Ok([]);
    assert resolved[1..][0] == Some(Story2);
    assert resolved[1..][1..] == none;
    assert [Story2] + [] == [Story2];
    assert FilterStories(f, resolved[1..]) == Ok([Story2]);
    assert resolved[0] == Some(Story1);
    assert [Story1] + [Story2] == [Story1, Story2];
  }

  /** SearchStories_ReturnsOkResult: both titles contain "Story"; the page
      holds both. */
  lemma SearchFixture(now: int)
    ensures SearchAction(map[], now, Fixture(), "Story", 1, 10).value == OkStories([Story1, Story2])
  {
    var ids := NewStoryIdsStep(map[], now, Fixture());
    FixtureResolves(now);
    FixtureMatches();
    assert Collected(LinkAndTitle("Story"), [1, 2, 3], ids.entries, now, Fixture()) == Ok([Story1, Story2]);
    FirstPageIsPrefix([Story1, Story2], 10);
    SearchFiltersThenPages(map[], now, Fixture(), "Story", 1, 10);
  }

  /** Matching ignores case: "Hello World" matches "hello". */
  lemma HelloWorldMatchesHello()
    ensures ContainsIgnoreCase("Hello World", "hello")
  {
    assert StartsWithIgnoreCase("Hello World", "hello");
  }

  /** Page 2 of size 10 is items 11 to 20 of the list. */
  lemma SecondPageOfTen<T>(xs: seq<T>)
    requires |xs| >= 20
    ensures Paginate(xs, 2, 10) == xs[10..20]
  {
  }

  const LinkA: Story := Story(1, Some("a"), Some("http://a"))
  const NoLink: Story := Story(2, Some("b"), Some(""))
  const LinkC: Story := Story(3, Some("c"), Some("http://c"))

  function ExampleItem(id: int): Result<Option<Story>> {
    if id == 1 then Ok(Some(LinkA)) else if id == 2 then Ok(Some(NoLink)) else Ok(Some(LinkC))
  }

  /** Ids [1, 2, 3] where story 2 has an empty Url. */
  function Example(): Upstream {
    Upstream(Ok([1, 2, 3]), ExampleItem)
  }

  /** On a cold cache, top stories with count 2 are stories 1 and 3, in
      that order: story 2 has no Url. */
  lemma TopStoriesSkipsEmptyUrl(now: int)
    ensures TopStoriesStep(map[], now, Example(), 2).value == Ok([LinkA, LinkC])
  {
    assert NewStoryIdsStep(map[], now, Example()).value == Ok([1, 2, 3]);
    var fetched := FetchEach([1, 2, 3], Example());
    assert fetched == [Some(LinkA), Some(NoLink), Some(LinkC)];
    assert fetched[1..][1..] == [Some(LinkC)];
    assert KeepLinked([Some(LinkC)]) == [LinkC];
    assert KeepLinked(fetched[1..]) == [LinkC];
    assert GetStoriesBatch([1, 2, 3], Example()) == [LinkA, LinkC];
  }

  /** The top-stories entry keeps the length its first caller asked for: a
      minute after a cold call with count 2, a call with count 1 is answered
      with both stories. */
  lemma TopStoriesKeepsFirstCount(now: int)
    ensures var first := TopStoriesAction(map[], now, Example(), 2);
            first.value == OkStories([LinkA, LinkC]) &&
            TopStoriesAction(first.entries, now + 60, Example(), 1).value == OkStories([LinkA, LinkC])
  {
  }

  /** Counts 0 and 101 are refused before the service runs: the cache is
      left as it was. */
  lemma TopStoriesCountBounds(entries: map<string, Entry>, now: int, up: Upstream)
    ensures TopStoriesAction(entries, now, up, 0) == Step(BadRequest(CountError), entries)
    ensures TopStoriesAction(entries, now, up, 101) == Step(BadRequest(CountError), entries)
  {
  }

  /** GetTopStories_ReturnsOkResult: with the default count of 10, the list
      the service hands out is the answer as it is. */
  lemma TopStoriesDefaultCount(entries: map<string, Entry>, now: int, up: Upstream, stories: seq<Story>)
    requires Lookup(entries, now, TopStoriesKey) == Some(StoryList(stories))
    ensures TopStoriesAction(entries, now, up, 10) == Step(OkStories(stories), entries)
  {
  }

  /** The id list is served from the cache for five minutes: a request 299
      seconds after the first gets the stored ids even though upstream has
      changed, and one made at 300 seconds fetches again. */
  method IdListLivesFiveMinutes() returns (first: Result<seq<int>>, cached: Result<seq<int>>, refetched: Result<seq<int>>)
    ensures first == Ok([1, 2]) && cached == Ok([1, 2]) && refetched == Ok([3])
  {
    var cache := new Cache(0);
    var service := new HackerNewsService(cache);
    var before := Upstream(Ok([1, 2]), _ => Ok(None));
    var after := Upstream(Ok([3]), _ => Ok(None));
    first := service.GetNewStoryIds(before);
    cache.Advance(299);
    cached := service.GetNewStoryIds(after);
    cache.Advance(1);
    refetched := service.GetNewStoryIds(after);
  }
}
