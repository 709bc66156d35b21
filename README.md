# HackerNewsApi: the story pipeline and its cache, in Dafny

HackerNewsApi is a thin HTTP facade over the Hacker News API. This project models the two pieces of logic under its plumbing:

- **The story-selection pipeline.** The upstream id list is capped at 200. Each id is fetched, and entries that are null or have a null or empty `Url` are dropped, keeping input order. `/top` takes the first `count` survivors. `/new` pages the id list with `Skip((page-1)*pageSize).Take(pageSize)` and then filters. `/search` filters first (link plus a title containing the query, ignoring case) and pages the matches. `/top` accepts only a `count` in 1..100.
- **Cache-or-fetch orchestration.** The `IMemoryCache` is modelled as a class holding a map from key to (value, absolute expiry) plus an explicit clock in seconds. The keys are `"NewStoryIds"`, `"Story_{id}"` and `"TopStoriesResponse"`, all with a five-minute time-to-live.

Layout, one module per file:

- `wrappers.dfy`: `Option` (C# null) and `Result` (a value or an escaping exception).
- `story.dfy`: `Story`, the link test, and `Upstream`. `Upstream` is a snapshot of the remote API: the reply to `newstories.json` and the reply to `item/{id}.json` for every id.
- `linq.dfy`: `Take`, `Skip`, unchecked 32-bit `int` arithmetic, and pagination.
- `text.dfy`: ordinal case-insensitive `Contains`, and the decimal rendering of an `int` inside `$"Story_{id}"`.
- `cache.dfy`: the cache class (`TryGetValue`, `Set`, clock) and its lookup/store functions.
- `service.dfy`: `HackerNewsService`. Each operation is a method on the service object that reads and writes the shared cache. Each method is proved equal to a step function that returns both the result and the cache entries left behind. Lemmas about those functions state the hit/miss behaviour, the invariant the cache keeps, and what a repeated call sees.
- `controller.dfy`: `StoriesController`. `GetNewStories` and `SearchStories` are loops proved against an accumulator function. A lemma then shows the loop's answer equals "resolve every id against the cache as it stood when the loop started, then filter"; the cache the loop leaves is given by the accumulator function. That holds because a story cached during the loop is the one the loop fetched, and per-story keys never collide.
- `scenarios.dfy`: the controller tests' fixtures and a few worked examples, stated as lemmas.

Three behaviours of the code are easy to miss:

- **The top-stories entry is not per count.** `GetTopStoriesAsync` stores `stories.Take(count)` for the `count` of whichever call fills the entry. Every call in the next five minutes receives that list, whatever `count` it passes (HackerNewsApi/Services/HackerNewsService.cs:54-61). So "at most `count` stories" holds only for the call that filled the entry. `TopStoriesRepeat` states this in general, and `TopStoriesKeepsFirstCount` shows a call with count 1 answered with two stories.
- **Single-story errors are not swallowed on the cached path.** `GetStoryByIdAsync`, which `/new` and `/search` use, does not catch fetch or deserialization errors: they propagate out of the action. Only the uncached batch path (`GetStoryAsync`, used by `/top`) turns a failure into null.
- **The shared cap applies to `/search` too.** `/search` scans the id list returned by `GetNewStoryIdsAsync`, so it sees at most 200 ids, not the full upstream list.

## Model

| member | source | states |
|---|---|---|
| `StoryModel.HasLink` | HackerNewsApi/Services/HackerNewsService.cs:35 | `s != null && !string.IsNullOrEmpty(s.Url)`: true exactly when the story exists and its `Url` is present and non-empty; the same test is at StoriesController.cs lines 31 and 49 |
| `Linq.Take` | HackerNewsApi/Services/HackerNewsService.cs:78 | `Take(n)` is a prefix of its input, of length 0 for `n <= 0` and otherwise the smaller of `n` and the input length |
| `Linq.Skip` | HackerNewsApi/Controllers/StoriesController.cs:25 | `Skip(n)` is the suffix left after dropping `max(n, 0)` elements; it is empty when that count reaches past the end |
| `Linq.Wrap32` | HackerNewsApi/Controllers/StoriesController.cs:25 | unchecked `int` arithmetic: the result is a 32-bit value congruent to the exact one modulo 2^32, and equal to it when it fits |
| `Linq.PageOffset` | HackerNewsApi/Controllers/StoriesController.cs:25 | `(page - 1) * pageSize` in `int`: always a 32-bit value, and the exact product whenever that fits |
| `Linq.Paginate` | HackerNewsApi/Controllers/StoriesController.cs:25 | a page holds at most `max(pageSize, 0)` elements and no more than the input |
| `Linq.PageIsSlice` | HackerNewsApi/Controllers/StoriesController.cs:25 | without overflow, page `p` of size `n` is the contiguous slice starting at `(p-1)*n` with up to `n` elements |
| `Linq.FirstPageIsPrefix` | HackerNewsApi/Controllers/StoriesController.cs:55 | page 1 is `Take(pageSize)`, a prefix of the whole list |
| `Text.FoldCase` | HackerNewsApi/Controllers/StoriesController.cs:49 | ordinal case folding on ASCII: capitals map to their lower-case letter, every other character to itself |
| `Text.ContainsIgnoreCase` | HackerNewsApi/Controllers/StoriesController.cs:49 | `Title.Contains(query, OrdinalIgnoreCase)`: the empty query matches every title, a match needs a title at least as long as the query, and a title that starts with the query matches. `ContainsIgnoreCaseAt` proves it equals "some offset starts with the query" |
| `Text.ContainsIgnoreCaseAt` | HackerNewsApi/Controllers/StoriesController.cs:49 | `Contains(value, OrdinalIgnoreCase)` holds exactly when some offset of the text starts with `value` under folding (both directions) |
| `Text.ContainsIgnoresQueryCase` | HackerNewsApi/Controllers/StoriesController.cs:49 | folding the query first never changes whether it matches |
| `Text.ContainsIgnoresTextCase` | HackerNewsApi/Controllers/StoriesController.cs:49 | folding the title first never changes whether the query matches |
| `Text.NatToDecimal` | HackerNewsApi/Services/HackerNewsService.cs:89 | the rendering of a natural number is non-empty, all digits, with no leading zero |
| `Text.IntToDecimal` | HackerNewsApi/Services/HackerNewsService.cs:89 | the rendering of an `int` is non-empty and starts with '-' exactly for negatives |
| `Text.NatToDecimalInjective` | HackerNewsApi/Services/HackerNewsService.cs:89 | different naturals render differently |
| `Text.IntToDecimalInjective` | HackerNewsApi/Services/HackerNewsService.cs:89 | different integers render differently |
| `MemoryCache.Lookup` | HackerNewsApi/Services/HackerNewsService.cs:74 | a lookup returns the stored value only if the entry's absolute expiry is after `now`, and returns nothing otherwise; an expired entry is never returned |
| `MemoryCache.Store` | HackerNewsApi/Services/HackerNewsService.cs:81 | `Set` adds or replaces one key and leaves every other key as it was |
| `MemoryCache.StoreThenLookup` | HackerNewsApi/Services/HackerNewsService.cs:81 | a value set with a time-to-live is read back until the time-to-live elapses and not after; other keys read as before |
| `MemoryCache.Cache.constructor` | HackerNewsApi/Services/HackerNewsService.cs:17 | a new cache is empty, with its clock at the given time |
| `MemoryCache.Cache.TryGetValue` | HackerNewsApi/Services/HackerNewsService.cs:92 | `TryGetValue` returns the live value under the key and changes nothing |
| `MemoryCache.Cache.Set` | HackerNewsApi/Services/HackerNewsService.cs:99 | `Set` writes the key with expiry `now + ttl`; the clock does not move |
| `MemoryCache.Cache.Advance` | HackerNewsApi/Services/HackerNewsService.cs:80-81 | time passes between requests, which is what makes a five-minute entry lapse; only the clock changes |
| `Service.StoryKey` | HackerNewsApi/Services/HackerNewsService.cs:89 | a story key never equals `"NewStoryIds"` or `"TopStoriesResponse"` |
| `Service.StoryKeyInjective` | HackerNewsApi/Services/HackerNewsService.cs:89 | distinct ids get distinct `"Story_{id}"` keys |
| `Service.GetStory` | HackerNewsApi/Services/HackerNewsService.cs:37-49 | `GetStoryAsync` returns exactly what upstream returned for the id (a story or null), and null when the fetch fails |
| `Service.KeepLinked` | HackerNewsApi/Services/HackerNewsService.cs:35 | every story kept by the `Where` has a non-empty `Url`; no more stories come out than went in |
| `Service.KeepLinkedAppend` | HackerNewsApi/Services/HackerNewsService.cs:35 | the filter distributes over concatenation, so it keeps input order |
| `Service.KeepLinkedMembership` | HackerNewsApi/Services/HackerNewsService.cs:35 | a story survives exactly when it was fetched and has a non-empty `Url` |
| `Service.FetchEach` | HackerNewsApi/Services/HackerNewsService.cs:33-34 | `Task.WhenAll` over the selected tasks gives one result per id, the i-th being `GetStoryAsync` of the i-th id, whatever the completion order |
| `Service.GetStoriesBatch` | HackerNewsApi/Services/HackerNewsService.cs:31-36 | every story of the batch has a non-empty `Url`, and there are at most as many as ids |
| `Service.BatchAppend` | HackerNewsApi/Services/HackerNewsService.cs:31-36 | the batch over `a + b` is the batch over `a` followed by the batch over `b`: results follow input-id order, not completion order |
| `Service.BatchDropsUnlinked` | HackerNewsApi/Services/HackerNewsService.cs:31-48 | an id whose fetch throws, finds nothing, or finds a story without a `Url` is dropped and does not abort the batch |
| `Service.BatchMembership` | HackerNewsApi/Services/HackerNewsService.cs:31-36 | a story is in the batch exactly when it has a non-empty `Url` and some id's fetch returned it |
| `Service.CachedIds` | HackerNewsApi/Services/HackerNewsService.cs:74 | the typed `TryGetValue` for the id list: a hit exactly when the entry is live and holds an id list; a live value of another type reads as a miss |
| `Service.CachedStory` | HackerNewsApi/Services/HackerNewsService.cs:92 | the typed `TryGetValue` for a story key: a hit exactly when the entry is live and holds a story item, a stored null included |
| `Service.NewStoryIdsStep` | HackerNewsApi/Services/HackerNewsService.cs:70-85 | on a hit, returns the cached list and leaves the cache unchanged. On a miss, returns the first `min(200, n)` upstream ids, stores that same list with expiry `now + 300`, and reads back that value. A failed fetch throws and stores nothing. No other key changes |
| `Service.StoryByIdStep` | HackerNewsApi/Services/HackerNewsService.cs:87-103 | on a hit, returns the cached story (null included) and leaves the cache unchanged. On a miss, returns exactly what upstream returned, so a fetch error propagates and nothing is stored; otherwise the story is stored with expiry `now + 300`. Only `"Story_{id}"` can change |
| `Service.TopStoriesStep` | HackerNewsApi/Services/HackerNewsService.cs:50-69 | on a hit, returns the stored list whatever `count` is and leaves the cache unchanged. On a miss, succeeds exactly when the id-list step succeeds. It then returns exactly min(`count`, batch length) stories (none when `count` <= 0), all with a `Url`, as a prefix of the batch over the first 200 ids, stored with expiry `now + 300`. Apart from that key the cache is what the nested id-list step left. A throw leaves the cache as it was |
| `Service.SameOutside` | HackerNewsApi/Services/HackerNewsService.cs:81 | two entry maps equal outside a set of keys agree on every key outside it |
| `Service.NewStoryIdsKeepsInvariant` | HackerNewsApi/Services/HackerNewsService.cs:70-85 | `GetNewStoryIdsAsync` keeps the cache invariant (id list of at most 200, linked top list, story keys hold stories) |
| `Service.StoryByIdKeepsInvariant` | HackerNewsApi/Services/HackerNewsService.cs:87-103 | `GetStoryByIdAsync` keeps the cache invariant |
| `Service.TopStoriesKeepsInvariant` | HackerNewsApi/Services/HackerNewsService.cs:50-69 | `GetTopStoriesAsync` keeps the cache invariant |
| `Service.NewStoryIdsAtMost200` | HackerNewsApi/Services/HackerNewsService.cs:77-78 | with the invariant, every id list handed out, cached or fresh, holds at most 200 ids |
| `Service.TopStoriesAlwaysLinked` | HackerNewsApi/Services/HackerNewsService.cs:54-68 | with the invariant, every top story handed out, cached or fresh, has a non-empty `Url`. The call throws only on a miss whose id-list fetch fails, which is then rethrown |
| `Service.NewStoryIdsRepeat` | HackerNewsApi/Services/HackerNewsService.cs:74-84 | a second call before the entry expires returns the same list and changes nothing, whatever upstream says by then |
| `Service.TopStoriesRepeat` | HackerNewsApi/Services/HackerNewsService.cs:54-61 | a second call before the entry expires returns the first call's list and changes nothing, whatever `count` it passes |
| `Service.StoryByIdKeepsResolution` | HackerNewsApi/Services/HackerNewsService.cs:89-102 | fetching one story never changes what another id resolves to, and re-fetching the same id returns the same result |
| `Service.HackerNewsService.constructor` | HackerNewsApi/Services/HackerNewsService.cs:23-30 | the service holds the injected cache |
| `Service.HackerNewsService.GetNewStoryIds` | HackerNewsApi/Services/HackerNewsService.cs:70-85 | the result and the new cache entries are those of `NewStoryIdsStep`; the clock does not move |
| `Service.HackerNewsService.GetStoryById` | HackerNewsApi/Services/HackerNewsService.cs:87-103 | the result and the new cache entries are those of `StoryByIdStep` |
| `Service.HackerNewsService.GetTopStories` | HackerNewsApi/Services/HackerNewsService.cs:50-69 | the result and the new cache entries are those of `TopStoriesStep` |
| `Controller.Admits` | HackerNewsApi/Controllers/StoriesController.cs:49 | the loop condition is false for a null or unlinked story. For `/new` it is true for every linked story. For search on a linked story with a title, it is exactly whether the title contains the query ignoring case. It throws exactly when search meets a linked story with a null `Title` |
| `Controller.CollectFrom` | HackerNewsApi/Controllers/StoriesController.cs:28-35 | the `foreach` of either listing with the stories kept so far: on success the result extends them, adds at most one story per id, and every added story is linked. `CollectFromIsCollected` proves its answer equals resolve-then-filter on the starting cache (the loop at lines 46-53 is the same with the search condition) |
| `Controller.CollectFromNext` | HackerNewsApi/Controllers/StoriesController.cs:46-53 | one pass of a listing loop: when the lookup succeeds and the condition answers, the story is added exactly when the condition holds, and the loop goes on from the cache the lookup left |
| `Controller.CollectFromStops` | HackerNewsApi/Controllers/StoriesController.cs:46-53 | a listing loop ends with an exception as soon as a lookup or the condition throws, with the cache that lookup left |
| `Controller.ResolveAll` | HackerNewsApi/Controllers/StoriesController.cs:46-48 | resolving a list gives one result per id; `ResolveAllLookups` and `ResolveAllThrows` state what each result is and when it throws |
| `Controller.ResolveAllLookups` | HackerNewsApi/Controllers/StoriesController.cs:46-48 | a successful resolution holds, at each position, what `GetStoryByIdAsync` returns for the id at that position |
| `Controller.ResolveAllThrows` | HackerNewsApi/Controllers/StoriesController.cs:46-48 | resolving a list throws exactly when `GetStoryByIdAsync` throws for one of its ids |
| `Controller.FilterStories` | HackerNewsApi/Controllers/StoriesController.cs:49-52 | the survivors are at most the inputs, all linked, and for search all have a title containing the query ignoring case. Order, completeness and the throw condition are in `FilterAppend`, `SearchFilterMembership` and `SearchFilterThrows` |
| `Controller.FilterAppend` | HackerNewsApi/Controllers/StoriesController.cs:46-53 | the listing loop keeps input order: filtering a concatenation gives the survivors of the first part followed by those of the second, and an exception in the first part comes first |
| `Controller.SearchFilterMembership` | HackerNewsApi/Controllers/StoriesController.cs:49-52 | a story is in the search result if and only if it was fetched, has a non-empty `Url` and has a title containing the query ignoring case |
| `Controller.SearchFilterThrows` | HackerNewsApi/Controllers/StoriesController.cs:49 | the search condition throws if and only if some fetched story has a non-empty `Url` and a null `Title` |
| `Controller.LinkFilterIsKeepLinked` | HackerNewsApi/Controllers/StoriesController.cs:31 | the `/new` condition is the batch's `Where`: it never throws and keeps exactly the linked stories |
| `Controller.PrependPrepend` | HackerNewsApi/Controllers/StoriesController.cs:33 | adding to the list in two steps is adding the concatenation |
| `Controller.CollectedCons` | HackerNewsApi/Controllers/StoriesController.cs:46-53 | resolving and filtering a non-empty list: the first id decides an exception or its own contribution, and the rest follow |
| `Controller.CollectFromIsCollected` | HackerNewsApi/Controllers/StoriesController.cs:46-53 | the loop that fills the cache as it goes computes the same as resolving every id against its starting cache and then filtering |
| `Controller.CollectFromStart` | HackerNewsApi/Controllers/StoriesController.cs:27-35 | the same, for a loop started with an empty `stories` list |
| `Controller.TopStoriesAction` | HackerNewsApi/Controllers/StoriesController.cs:62-79 | a `count` outside 1..100 answers BadRequest with the cache untouched, so the service is not called. Otherwise the answer is Ok with exactly the service's list, or status 500 when the service throws |
| `Controller.NewStoriesAction` | HackerNewsApi/Controllers/StoriesController.cs:22-38 | `/new` answers with stories or lets an exception escape, never anything else; a failed id-list fetch escapes with the cache untouched; every story answered is linked. `NewStoriesPagesThenFilters` and `NewStoriesBounded` state the rest |
| `Controller.SearchAction` | HackerNewsApi/Controllers/StoriesController.cs:41-57 | `/search` answers with stories or lets an exception escape; a failed id-list fetch escapes with the cache untouched. `SearchFiltersThenPages` and `SearchFindsEveryMatch` state the rest |
| `Controller.NewStoriesPagesThenFilters` | HackerNewsApi/Controllers/StoriesController.cs:22-38 | `/new` answers Ok exactly when the id list and every id on the page resolve. The answer is then the linked stories among the page's ids, in page order. Otherwise the exception escapes |
| `Controller.NewStoriesBounded` | HackerNewsApi/Controllers/StoriesController.cs:25-35 | every story `/new` returns has a non-empty `Url`, and there are at most `max(pageSize, 0)` |
| `Controller.SearchFiltersThenPages` | HackerNewsApi/Controllers/StoriesController.cs:41-57 | `/search` answers with the requested page of the full ordered match list. Every match has a non-empty `Url` and a title containing the query ignoring case. The page holds at most `max(pageSize, 0)` |
| `Controller.SearchFindsEveryMatch` | HackerNewsApi/Controllers/StoriesController.cs:41-57 | once the id list is read, `/search` throws exactly when a story fetch throws or a linked story has a null `Title`. Otherwise the list it pages holds every fetched matching story and nothing else |
| `Controller.SearchFirstPageIsPrefix` | HackerNewsApi/Controllers/StoriesController.cs:55-56 | page 1 of a search is a prefix of all the matches |
| `Controller.StoriesController.constructor` | HackerNewsApi/Controllers/StoriesController.cs:15-19 | the controller holds the injected service |
| `Controller.StoriesController.GetNewStories` | HackerNewsApi/Controllers/StoriesController.cs:22-38 | the loop's answer and the cache it leaves are those of `NewStoriesAction` |
| `Controller.StoriesController.SearchStories` | HackerNewsApi/Controllers/StoriesController.cs:41-57 | the loop's answer and the cache it leaves are those of `SearchAction` |
| `Controller.StoriesController.GetTopStories` | HackerNewsApi/Controllers/StoriesController.cs:62-79 | the answer and the cache it leaves are those of `TopStoriesAction` |
| `Scenarios.FixtureResolves` | HackerNewsApi/Classes/StoriesControllerTests.cs:48-56 | on a cold cache the fixture's ids [1, 2, 3] resolve to story 1, story 2 and null |
| `Scenarios.ResolveCons` | HackerNewsApi/Controllers/StoriesController.cs:46-48 | resolving one more id in front adds its result in front |
| `Scenarios.NewStoriesFixture` | HackerNewsApi/Classes/StoriesControllerTests.cs:45-64 | `/new` with the default page over ids [1, 2, 3], where only stories 1 and 2 exist, answers with those two stories in order |
| `Scenarios.FixtureFirstPage` | HackerNewsApi/Classes/StoriesControllerTests.cs:45-64 | the default page (page 1 of 10) of the fixture's ids [1, 2, 3] is all three ids |
| `Scenarios.FixtureKeepsLinked` | HackerNewsApi/Classes/StoriesControllerTests.cs:45-64 | filtering the fixture's resolved stories keeps stories 1 and 2 and drops the missing third |
| `Scenarios.FixtureTitlesMatch` | HackerNewsApi/Classes/StoriesControllerTests.cs:74-82 | "Story 1" and "Story 2" both pass the search condition for "Story" |
| `Scenarios.FixtureMatches` | HackerNewsApi/Classes/StoriesControllerTests.cs:71-82 | filtering the fixture's resolved stories for "Story" keeps stories 1 and 2 |
| `Scenarios.SearchFixture` | HackerNewsApi/Classes/StoriesControllerTests.cs:68-87 | searching "Story" over the fixture answers with stories 1 and 2 |
| `Scenarios.HelloWorldMatchesHello` | HackerNewsApi/Controllers/StoriesController.cs:49 | "Hello World" contains "hello" ignoring case |
| `Scenarios.SecondPageOfTen` | HackerNewsApi/Controllers/StoriesController.cs:25 | page 2 of size 10 is elements 11 to 20 |
| `Scenarios.TopStoriesSkipsEmptyUrl` | HackerNewsApi/Services/HackerNewsService.cs:54-61 | over ids [1, 2, 3] where story 2 has an empty `Url`, a cold call with count 2 returns stories 1 and 3 in that order |
| `Scenarios.TopStoriesKeepsFirstCount` | HackerNewsApi/Services/HackerNewsService.cs:54-61 | a minute after a cold call with count 2, a call with count 1 is answered with the same two stories |
| `Scenarios.TopStoriesCountBounds` | HackerNewsApi/Controllers/StoriesController.cs:66-69 | counts 0 and 101 are refused and the cache is left as it was |
| `Scenarios.TopStoriesDefaultCount` | HackerNewsApi/Classes/StoriesControllerTests.cs:24-43 | with the default count, the service's list is the answer as it is |
| `Scenarios.IdListLivesFiveMinutes` | HackerNewsApi/Services/HackerNewsService.cs:74-84 | on the service object over a real cache: a second request 299 seconds later gets the stored ids though upstream changed, and one at 300 seconds fetches afresh |

## Left out

- HTTP, URLs and JSON are left out. `HttpClient`, `BaseAddress` and Newtonsoft deserialization are replaced by the `Upstream` snapshot. A null `newstories.json` body makes `.Take` throw, so it is folded into `Exception`.
- Upstream is one fixed snapshot for the whole of one request. The real API may change between the individual fetches of a loop.
- Concurrency is left out. `Task.WhenAll` is a sequential, order-preserving map. Concurrent requests that miss on the same key and race to fill it are not modelled.
- Exception types are not distinguished. Every escaping exception is `Exception`, and in the controller `Unhandled`. Which status the host then sends is framework behaviour.
- `IMemoryCache` internals are left out: removal of expired entries on access, size limits, priorities and eviction. An expired entry stays in the map but is never returned. `GetOrCreateAsync` is assumed to store nothing when its factory throws. Linked-entry expiry propagation is left out too: with Microsoft.Extensions.Caching.Memory before 7.0, or with `TrackLinkedCacheEntries` set, an id-list hit inside the top-stories factory would pass the id list's remaining lifetime to the top-stories entry, which the model instead always stores for 300 seconds.
- The clock is in whole seconds and does not move during a request.
- Logging, the `[ResponseCache]` attribute, routing and query binding are left out. `page` and `pageSize` are required to be 32-bit values, as binding produces. `query` is taken to be non-null.
- Case folding is ASCII only. `OrdinalIgnoreCase` also folds non-ASCII letters.
- `$"Story_{id}"` is rendered with the invariant culture's minus sign.
- Story fields other than `Id`, `Title` and `Url` are left out. The source never inspects them.
- The test harness is left out: Moq, xUnit, and the test class constructor's use of the never-assigned `_mockLogger`. Its fixtures appear only as the scenarios above. The tests mock the service; the scenarios run the real service on a cold cache.
