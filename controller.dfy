/** StoriesController: the three endpoints over the service. `/new` pages
    the id list and then filters; `/search` filters and then pages; `/top`
    validates `count` and maps the service's exception to status 500. */
module Controller {
  import opened Wrappers
  import opened StoryModel
  import opened Linq
  import opened Text
  import opened MemoryCache
  import opened Service

  /** The `IActionResult` values the actions produce. `Unhandled` is an
      exception that escapes the action (the host, not the controller, then
      answers). */
  datatype ActionResult =
    | OkStories(stories: seq<Story>)
    | BadRequest(message: string)
    | StatusCode(code: int, message: string)
    | Unhandled

  /** The condition each listing loop tests before `stories.Add(story)`. */
  datatype Filter = LinkOnly | LinkAndTitle(query: string)

  /** A story the search listing is after: it has a non-empty Url and a
      title that contains the query ignoring case. */
  predicate Matches(query: string, s: Story) {
    Linked(s) && s.title.Some? && ContainsIgnoreCase(s.title.value, query)
  }

  /** Evaluate a listing's condition on one fetched story, left to right as
      `&&` does: `story != null`, then a non-empty Url, then (for search)
      `story.Title.Contains(query, OrdinalIgnoreCase)`, which throws on a
      null Title. */
  function Admits(f: Filter, s: Option<Story>): (r: Result<bool>)
    ensures r == Ok(true) ==> HasLink(s)
    ensures f.LinkOnly? ==> r == Ok(HasLink(s))
    ensures f.LinkAndTitle? && r == Ok(true) ==>
              s.value.title.Some? && ContainsIgnoreCase(s.value.title.value, f.query)
    ensures r.Exception? <==> f.LinkAndTitle? && HasLink(s) && s.value.title.None?
    ensures f.LinkAndTitle? && HasLink(s) && s.value.title.Some? ==>
              r == Ok(ContainsIgnoreCase(s.value.title.value, f.query))
  {
    if !HasLink(s) then Ok(false)
    else
      match f
      case LinkOnly => Ok(true)
      case LinkAndTitle(query) =>
        match s.value.title
        case None => Exception
        case Some(title) => Ok(ContainsIgnoreCase(title, query))
  }

  // ---------------------------------------------------------------------
  // What the listing loops compute, one id at a time
  // ---------------------------------------------------------------------

  /** The `foreach` over `ids` with `stories` collected so far: each id is
      fetched through the cache (GetStoryByIdAsync), in order, and an
      exception from the fetch or the condition ends the loop. */
  function CollectFrom(f: Filter, ids: seq<int>, acc: seq<Story>, entries: map<string, Entry>, now: int, up: Upstream)
    : (r: Step<Result<seq<Story>>>)
    ensures r.value.Ok? ==> acc <= r.value.value && |r.value.value| <= |acc| + |ids|
    ensures r.value.Ok? ==> forall i :: |acc| <= i < |r.value.value| ==> Linked(r.value.value[i])
    decreases |ids|
  {
    if ids == [] then Step(Ok(acc), entries)
    else
      var fetched := StoryByIdStep(entries, now, up, ids[0]);
      match fetched.value
      case Exception => Step(Exception, fetched.entries)
      case Ok(story) =>
        match Admits(f, story)
        case Exception => Step(Exception, fetched.entries)
        case Ok(keep) =>
          CollectFrom(f, ids[1..], if keep then acc + [story.value] else acc, fetched.entries, now, up)
  }

  /** One iteration of the listing loop: the first id resolves, the
      condition answers, and the rest of the loop carries on from there. */
  lemma CollectFromNext(f: Filter, ids: seq<int>, acc: seq<Story>, entries: map<string, Entry>, now: int, up: Upstream,
                        story: Option<Story>, keep: bool)
    requires ids != []
    requires StoryByIdStep(entries, now, up, ids[0]).value == Ok(story)
    requires Admits(f, story) == Ok(keep)
    ensures keep ==> story.Some?
    ensures CollectFrom(f, ids, acc, entries, now, up) ==
            CollectFrom(f, ids[1..], if keep then acc + [story.value] else acc,
                        StoryByIdStep(entries, now, up, ids[0]).entries, now, up)
  {
  }

  /** The listing loop ends with an exception as soon as the first id's
      lookup or the condition on its story throws, leaving the cache as that
      lookup left it. */
  lemma CollectFromStops(f: Filter, ids: seq<int>, acc: seq<Story>, entries: map<string, Entry>, now: int, up: Upstream)
    requires ids != []
    requires var fetched := StoryByIdStep(entries, now, up, ids[0]).value;
             fetched.Exception? || Admits(f, fetched.value).Exception?
    ensures CollectFrom(f, ids, acc, entries, now, up) == Step(Exception, StoryByIdStep(entries, now, up, ids[0]).entries)
  {
  }

  // ---------------------------------------------------------------------
  // The same, stated without the loop: resolve every id, then filter
  // ---------------------------------------------------------------------

  /** Every id looked up against one fixed cache state; an exception for any
      id is an exception for all. */
  function ResolveAll(ids: seq<int>, entries: map<string, Entry>, now: int, up: Upstream): (r: Result<seq<Option<Story>>>)
    ensures r.Ok? ==> |r.value| == |ids|
    decreases |ids|
  {
    if ids == [] then Ok([])
    else
      match StoryByIdStep(entries, now, up, ids[0]).value
      case Exception => Exception
      case Ok(story) =>
        match ResolveAll(ids[1..], entries, now, up)
        case Exception => Exception
        case Ok(rest) => Ok([story] + rest)
  }

  /** A successful resolution holds, at each position, what the lookup of
      the id at that position returns. */
  lemma {:induction false} ResolveAllLookups(ids: seq<int>, entries: map<string, Entry>, now: int, up: Upstream)
    requires ResolveAll(ids, entries, now, up).Ok?
    ensures forall i :: 0 <= i < |ids| ==>
              StoryByIdStep(entries, now, up, ids[i]).value == Ok(ResolveAll(ids, entries, now, up).value[i])
    decreases |ids|
  {
    if ids != [] {
      ResolveAllLookups(ids[1..], entries, now, up);
      var rest := ResolveAll(ids[1..], entries, now, up).value;
      assert ResolveAll(ids, entries, now, up).value == [StoryByIdStep(entries, now, up, ids[0]).value.value] + rest;
      forall i | 0 < i < |ids|
        ensures StoryByIdStep(entries, now, up, ids[i]).value == Ok(ResolveAll(ids, entries, now, up).value[i])
      {
        assert ids[1..][i - 1] == ids[i];
      }
    }
  }

  /** Resolving fails exactly when the lookup of one of the ids throws. */
  lemma {:induction false} ResolveAllThrows(ids: seq<int>, entries: map<string, Entry>, now: int, up: Upstream)
    ensures ResolveAll(ids, entries, now, up).Exception? <==>
            exists i :: 0 <= i < |ids| && StoryByIdStep(entries, now, up, ids[i]).value.Exception?
    decreases |ids|
  {
    if ids != [] {
      ResolveAllThrows(ids[1..], entries, now, up);
      if exists i :: 0 <= i < |ids| && StoryByIdStep(entries, now, up, ids[i]).value.Exception? {
        var i :| 0 <= i < |ids| && StoryByIdStep(entries, now, up, ids[i]).value.Exception?;
        if i > 0 {
          assert ids[1..][i - 1] == ids[i];
        }
      }
      if exists j :: 0 <= j < |ids[1..]| && StoryByIdStep(entries, now, up, ids[1..][j]).value.Exception? {
        var j :| 0 <= j < |ids[1..]| && StoryByIdStep(entries, now, up, ids[1..][j]).value.Exception?;
        assert ids[j + 1] == ids[1..][j];
      }
    }
  }

  /** The listing condition applied to resolved stories in order. The
      survivors all have a non-empty Url and, for search, a title that
      contains the query ignoring case. */
  function FilterStories(f: Filter, xs: seq<Option<Story>>): (r: Result<seq<Story>>)
    ensures r.Ok? ==> |r.value| <= |xs|
    ensures r.Ok? ==> forall i :: 0 <= i < |r.value| ==> Linked(r.value[i])
    ensures r.Ok? && f.LinkAndTitle? ==>
              forall i :: 0 <= i < |r.value| ==>
                r.value[i].title.Some? && ContainsIgnoreCase(r.value[i].title.value, f.query)
    decreases |xs|
  {
    if xs == [] then Ok([])
    else
      match Admits(f, xs[0])
      case Exception => Exception
      case Ok(keep) =>
        match FilterStories(f, xs[1..])
        case Exception => Exception
        case Ok(rest) => Ok(if keep then [xs[0].value] + rest else rest)
  }

  /** Filtering keeps input order: the survivors of `xs + ys` are those of
      `xs` followed by those of `ys`, and an exception in `xs` comes first. */
  lemma {:induction false} FilterAppend(f: Filter, xs: seq<Option<Story>>, ys: seq<Option<Story>>)
    ensures FilterStories(f, xs + ys) ==
            match FilterStories(f, xs)
            case Exception => Exception
            case Ok(a) => Prepend(a, FilterStories(f, ys))
    decreases |xs|
  {
    if xs == [] {
      assert xs + ys == ys;
      match FilterStories(f, ys)
      case Exception =>
      case Ok(b) => assert [] + b == b;
    } else {
      assert (xs + ys)[0] == xs[0];
      assert (xs + ys)[1..] == xs[1..] + ys;
      FilterAppend(f, xs[1..], ys);
      match FilterStories(f, xs[1..])
      case Exception =>
      case Ok(rest) =>
        match FilterStories(f, ys)
        case Exception =>
        case Ok(b) =>
          if Admits(f, xs[0]) == Ok(true) {
            var head := [xs[0].value];
            assert head + (rest + b) == (head + rest) + b;
          }
    }
  }

  /** The search condition keeps exactly the matching stories: a story is
      in the result if and only if it was fetched and matches. */
  lemma {:induction false} SearchFilterMembership(query: string, xs: seq<Option<Story>>, s: Story)
    requires FilterStories(LinkAndTitle(query), xs).Ok?
    ensures s in FilterStories(LinkAndTitle(query), xs).value <==> Some(s) in xs && Matches(query, s)
    decreases |xs|
  {
    if xs != [] {
      SearchFilterMembership(query, xs[1..], s);
      assert xs == [xs[0]] + xs[1..];
    }
  }

  /** The search condition throws exactly when some fetched story has a
      non-empty Url and a null Title. */
  lemma {:induction false} SearchFilterThrows(query: string, xs: seq<Option<Story>>)
    ensures FilterStories(LinkAndTitle(query), xs).Exception? <==>
            exists i :: 0 <= i < |xs| && HasLink(xs[i]) && xs[i].value.title.None?
    decreases |xs|
  {
    if xs != [] {
      SearchFilterThrows(query, xs[1..]);
      if exists i :: 0 <= i < |xs| && HasLink(xs[i]) && xs[i].value.title.None? {
        var i :| 0 <= i < |xs| && HasLink(xs[i]) && xs[i].value.title.None?;
        if i > 0 {
          assert xs[1..][i - 1] == xs[i];
        }
      }
      if exists j :: 0 <= j < |xs[1..]| && HasLink(xs[1..][j]) && xs[1..][j].value.title.None? {
        var j :| 0 <= j < |xs[1..]| && HasLink(xs[1..][j]) && xs[1..][j].value.title.None?;
        assert xs[j + 1] == xs[1..][j];
      }
    }
  }

  /** With the Url test alone, filtering is the batch's `Where`: it never
      throws and keeps exactly the linked stories. */
  lemma {:induction false} LinkFilterIsKeepLinked(xs: seq<Option<Story>>)
    ensures FilterStories(LinkOnly, xs) == Ok(KeepLinked(xs))
    decreases |xs|
  {
    if xs != [] {
      LinkFilterIsKeepLinked(xs[1..]);
    }
  }

  /** Resolve against `entries`, then filter. */
  function Collected(f: Filter, ids: seq<int>, entries: map<string, Entry>, now: int, up: Upstream): Result<seq<Story>> {
    match ResolveAll(ids, entries, now, up)
    case Exception => Exception
    case Ok(xs) => FilterStories(f, xs)
  }

  /** `acc` in front of a result. */
  function Prepend(acc: seq<Story>, r: Result<seq<Story>>): Result<seq<Story>> {
    match r
    case Exception => Exception
    case Ok(rest) => Ok(acc + rest)
  }

  /** Two cache states under which every id resolves alike. */
  ghost predicate SameResolution(entries: map<string, Entry>, entries0: map<string, Entry>, now: int, up: Upstream) {
    forall id :: StoryByIdStep(entries, now, up, id).value == StoryByIdStep(entries0, now, up, id).value
  }

  /** The first id's contribution to `acc`, if the listing keeps it. */
  function Kept(keep: bool, story: Option<Story>): seq<Story>
    requires keep ==> story.Some?
  {
    if keep then [story.value] else []
  }

  lemma PrependPrepend(acc: seq<Story>, x: seq<Story>, r: Result<seq<Story>>)
    ensures Prepend(acc, Prepend(x, r)) == Prepend(acc + x, r)
  {
    match r
    case Exception =>
    case Ok(rest) =>
      assert acc + (x + rest) == (acc + x) + rest;
  }

  /** Resolving and filtering a non-empty list: the first id decides an
      exception or its own contribution, the rest follow. */
  lemma CollectedCons(f: Filter, ids: seq<int>, entries0: map<string, Entry>, now: int, up: Upstream)
    requires ids != []
    ensures var first := StoryByIdStep(entries0, now, up, ids[0]).value;
            Collected(f, ids, entries0, now, up) ==
              if first.Exception? then Exception
              else if Admits(f, first.value).Exception? then Exception
              else Prepend(Kept(Admits(f, first.value).value, first.value), Collected(f, ids[1..], entries0, now, up))
  {
    var first := StoryByIdStep(entries0, now, up, ids[0]).value;
    if first.Ok? {
      var story := first.value;
      match ResolveAll(ids[1..], entries0, now, up)
      case Exception =>
        assert ResolveAll(ids, entries0, now, up) == Exception;
      case Ok(rest) =>
        assert ResolveAll(ids, entries0, now, up) == Ok([story] + rest);
        assert ([story] + rest)[0] == story;
        assert ([story] + rest)[1..] == rest;
        assert Collected(f, ids[1..], entries0, now, up) == FilterStories(f, rest);
        match FilterStories(f, rest)
        case Exception =>
        case Ok(kept) =>
          assert [] + kept == kept;
    }
  }

  /** The loop, which fetches through a cache it keeps filling, computes the
      same as resolving every id against the cache it started from and then
      filtering: a story cached during the loop is the story the loop
      fetched, and per-story keys never collide. */
  lemma {:induction false} CollectFromIsCollected(f: Filter, ids: seq<int>, acc: seq<Story>,
                                                  entries: map<string, Entry>, entries0: map<string, Entry>,
                                                  now: int, up: Upstream)
    requires SameResolution(entries, entries0, now, up)
    ensures CollectFrom(f, ids, acc, entries, now, up).value == Prepend(acc, Collected(f, ids, entries0, now, up))
    decreases |ids|
  {
    if ids == [] {
      assert acc + [] == acc;
    } else {
      CollectedCons(f, ids, entries0, now, up);
      var fetched := StoryByIdStep(entries, now, up, ids[0]);
      assert fetched.value == StoryByIdStep(entries0, now, up, ids[0]).value;
      if fetched.value.Ok? && Admits(f, fetched.value.value).Ok? {
        var story := fetched.value.value;
        var keep := Admits(f, story).value;
        forall id
          ensures StoryByIdStep(fetched.entries, now, up, id).value == StoryByIdStep(entries0, now, up, id).value
        {
          StoryByIdKeepsResolution(entries, now, up, ids[0], id);
        }
        var next := if keep then acc + [story.value] else acc;
        assert next == acc + Kept(keep, story);
        CollectFromIsCollected(f, ids[1..], next, fetched.entries, entries0, now, up);
        PrependPrepend(acc, Kept(keep, story), Collected(f, ids[1..], entries0, now, up));
      }
    }
  }

  /** What a listing loop started on `entries` returns. */
  lemma CollectFromStart(f: Filter, ids: seq<int>, entries: map<string, Entry>, now: int, up: Upstream)
    ensures CollectFrom(f, ids, [], entries, now, up).value == Collected(f, ids, entries, now, up)
  {
    CollectFromIsCollected(f, ids, [], entries, entries, now, up);
    match Collected(f, ids, entries, now, up)
    case Exception =>
    case Ok(r) =>
      assert [] + r == r;
  }

  // ---------------------------------------------------------------------
  // The three actions as step functions
  // ---------------------------------------------------------------------

  /** The answer a listing gives once its stories are in hand. */
  function Respond(r: Result<seq<Story>>): ActionResult {
    match r
    case Ok(stories) => OkStories(stories)
    case Exception => Unhandled
  }

  /** GetNewStories: the id list, the page `Skip((page - 1) * pageSize)
      .Take(pageSize)` of it, then each id on the page fetched through the
      cache and kept if linked. */
  function NewStoriesAction(entries: map<string, Entry>, now: int, up: Upstream, page: int, pageSize: int): (a: Step<ActionResult>)
    requires IsInt32(page) && IsInt32(pageSize)
    ensures a.value.OkStories? || a.value.Unhandled?
    ensures NewStoryIdsStep(entries, now, up).value.Exception? ==> a == Step(Unhandled, entries)
    ensures a.value.OkStories? ==> forall i :: 0 <= i < |a.value.stories| ==> Linked(a.value.stories[i])
  {
    var ids := NewStoryIdsStep(entries, now, up);
    match ids.value
    case Exception => Step(Unhandled, ids.entries)
    case Ok(all) =>
      var collected := CollectFrom(LinkOnly, Paginate(all, page, pageSize), [], ids.entries, now, up);
      Step(Respond(collected.value), collected.entries)
  }

  /** SearchStories: every id of the list fetched through the cache and kept
      if linked and its title contains `query` ignoring case; the matches
      are then paged. */
  function SearchAction(entries: map<string, Entry>, now: int, up: Upstream, query: string, page: int, pageSize: int)
    : (a: Step<ActionResult>)
    requires IsInt32(page) && IsInt32(pageSize)
    ensures a.value.OkStories? || a.value.Unhandled?
    ensures NewStoryIdsStep(entries, now, up).value.Exception? ==> a == Step(Unhandled, entries)
  {
    var ids := NewStoryIdsStep(entries, now, up);
    match ids.value
    case Exception => Step(Unhandled, ids.entries)
    case Ok(all) =>
      var collected := CollectFrom(LinkAndTitle(query), all, [], ids.entries, now, up);
      match collected.value
      case Exception => Step(Unhandled, collected.entries)
      case Ok(matches) => Step(OkStories(Paginate(matches, page, pageSize)), collected.entries)
  }

  const CountError: string := "Count must be between 1 and 100"
  const ServerError: string := "Internal server error"

  /** GetTopStories: a `count` outside 1..100 is a bad request and the
      service is never called, so the cache is untouched; otherwise the
      service's list is the answer and its exception is status 500. */
  function TopStoriesAction(entries: map<string, Entry>, now: int, up: Upstream, count: int): (a: Step<ActionResult>)
    ensures count <= 0 || count > 100 ==> a == Step(BadRequest(CountError), entries)
    ensures 1 <= count <= 100 ==>
              var s := TopStoriesStep(entries, now, up, count);
              a.entries == s.entries &&
              (a.value.OkStories? <==> s.value.Ok?) &&
              (s.value.Ok? ==> a.value.stories == s.value.value) &&
              (s.value.Exception? ==> a.value == StatusCode(500, ServerError))
  {
    if count <= 0 || count > 100 then
      Step(BadRequest(CountError), entries)
    else
      var s := TopStoriesStep(entries, now, up, count);
      match s.value
      case Ok(stories) => Step(OkStories(stories), s.entries)
      case Exception => Step(StatusCode(500, ServerError), s.entries)
  }

  // ---------------------------------------------------------------------
  // What the actions promise
  // ---------------------------------------------------------------------

  /** `/new` pages first and filters after: it answers with the linked
      stories among the ids of the page, in page order, resolved against the
      cache as it stood after the id list was read. It throws exactly when
      the id list or one of the page's story fetches throws. */
  lemma NewStoriesPagesThenFilters(entries: map<string, Entry>, now: int, up: Upstream, page: int, pageSize: int)
    requires IsInt32(page) && IsInt32(pageSize)
    ensures var a := NewStoriesAction(entries, now, up, page, pageSize);
            var ids := NewStoryIdsStep(entries, now, up);
            (a.value.OkStories? <==>
               ids.value.Ok? && ResolveAll(Paginate(ids.value.value, page, pageSize), ids.entries, now, up).Ok?) &&
            (a.value.OkStories? ==>
               a.value.stories == KeepLinked(ResolveAll(Paginate(ids.value.value, page, pageSize), ids.entries, now, up).value))
    ensures NewStoriesAction(entries, now, up, page, pageSize).value.OkStories? || NewStoriesAction(entries, now, up, page, pageSize).value.Unhandled?
  {
    var ids := NewStoryIdsStep(entries, now, up);
    if ids.value.Ok? {
      var pageIds := Paginate(ids.value.value, page, pageSize);
      CollectFromStart(LinkOnly, pageIds, ids.entries, now, up);
      match ResolveAll(pageIds, ids.entries, now, up)
      case Exception =>
      case Ok(xs) => LinkFilterIsKeepLinked(xs);
    }
  }

  /** Every story `/new` answers with has a non-empty Url, and there are at
      most `pageSize` of them (none for a non-positive `pageSize`). */
  lemma NewStoriesBounded(entries: map<string, Entry>, now: int, up: Upstream, page: int, pageSize: int)
    requires IsInt32(page) && IsInt32(pageSize)
    ensures var a := NewStoriesAction(entries, now, up, page, pageSize);
            a.value.OkStories? ==>
              |a.value.stories| <= Max(pageSize, 0) &&
              forall i :: 0 <= i < |a.value.stories| ==> Linked(a.value.stories[i])
  {
    NewStoriesPagesThenFilters(entries, now, up, page, pageSize);
  }

  /** `/search` filters first and pages after: it answers with the page of
      the full ordered list of matches, each of which has a non-empty Url
      and a title containing the query ignoring case. */
  lemma SearchFiltersThenPages(entries: map<string, Entry>, now: int, up: Upstream, query: string, page: int, pageSize: int)
    requires IsInt32(page) && IsInt32(pageSize)
    ensures var a := SearchAction(entries, now, up, query, page, pageSize);
            var ids := NewStoryIdsStep(entries, now, up);
            (a.value.OkStories? <==>
               ids.value.Ok? && Collected(LinkAndTitle(query), ids.value.value, ids.entries, now, up).Ok?) &&
            (a.value.OkStories? ==>
               var matches := Collected(LinkAndTitle(query), ids.value.value, ids.entries, now, up).value;
               a.value.stories == Paginate(matches, page, pageSize) &&
               |a.value.stories| <= Max(pageSize, 0) &&
               (forall i :: 0 <= i < |matches| ==>
                  Linked(matches[i]) && ContainsIgnoreCase(matches[i].title.value, query)))
    ensures SearchAction(entries, now, up, query, page, pageSize).value.OkStories? || SearchAction(entries, now, up, query, page, pageSize).value.Unhandled?
  {
    var ids := NewStoryIdsStep(entries, now, up);
    if ids.value.Ok? {
      CollectFromStart(LinkAndTitle(query), ids.value.value, ids.entries, now, up);
    }
  }

  /** `/search` finds every match and throws for exactly one reason besides
      a failed fetch: once the id list is read, it throws exactly when a
      story fetch throws or a fetched story with a non-empty Url has a null
      Title; otherwise the list it pages holds every fetched story that
      matches, and nothing else. */
  lemma SearchFindsEveryMatch(entries: map<string, Entry>, now: int, up: Upstream, query: string, page: int, pageSize: int)
    requires IsInt32(page) && IsInt32(pageSize)
    ensures var ids := NewStoryIdsStep(entries, now, up);
            var a := SearchAction(entries, now, up, query, page, pageSize);
            ids.value.Ok? ==>
              var resolved := ResolveAll(ids.value.value, ids.entries, now, up);
              (a.value.Unhandled? <==>
                 resolved.Exception? ||
                 exists i :: 0 <= i < |resolved.value| && HasLink(resolved.value[i]) && resolved.value[i].value.title.None?) &&
              (a.value.OkStories? ==>
                 Collected(LinkAndTitle(query), ids.value.value, ids.entries, now, up).Ok? &&
                 forall s :: s in Collected(LinkAndTitle(query), ids.value.value, ids.entries, now, up).value <==>
                   Some(s) in resolved.value && Matches(query, s))
  {
    SearchFiltersThenPages(entries, now, up, query, page, pageSize);
    var ids := NewStoryIdsStep(entries, now, up);
    if ids.value.Ok? {
      var resolved := ResolveAll(ids.value.value, ids.entries, now, up);
      if resolved.Ok? {
        SearchFilterThrows(query, resolved.value);
        if FilterStories(LinkAndTitle(query), resolved.value).Ok? {
          forall s {
            SearchFilterMembership(query, resolved.value, s);
          }
        }
      }
    }
  }

  /** The first page of a search is a prefix of all the matches. */
  lemma SearchFirstPageIsPrefix(entries: map<string, Entry>, now: int, up: Upstream, query: string, pageSize: int)
    requires IsInt32(pageSize)
    ensures var a := SearchAction(entries, now, up, query, 1, pageSize);
            var ids := NewStoryIdsStep(entries, now, up);
            a.value.OkStories? ==>
              ids.value.Ok? && Collected(LinkAndTitle(query), ids.value.value, ids.entries, now, up).Ok? &&
              a.value.stories <= Collected(LinkAndTitle(query), ids.value.value, ids.entries, now, up).value
  {
    SearchFiltersThenPages(entries, now, up, query, 1, pageSize);
    var ids := NewStoryIdsStep(entries, now, up);
    if ids.value.Ok? && Collected(LinkAndTitle(query), ids.value.value, ids.entries, now, up).Ok? {
      FirstPageIsPrefix(Collected(LinkAndTitle(query), ids.value.value, ids.entries, now, up).value, pageSize);
    }
  }

  // ---------------------------------------------------------------------
  // The controller object
  // ---------------------------------------------------------------------

  class StoriesController {
    const service: HackerNewsService

    constructor (service: HackerNewsService)
      ensures this.service == service
    {
      this.service := service;
    }

    method GetNewStories(up: Upstream, page: int, pageSize: int) returns (r: ActionResult)
      requires IsInt32(page) && IsInt32(pageSize)
      modifies service.cache`entries
      ensures Step(r, service.cache.entries) ==
              NewStoriesAction(old(service.cache.entries), service.cache.now, up, page, pageSize)
    {
      var storyIds := service.GetNewStoryIds(up);
      if storyIds.Exception? {
        return Unhandled;
      }
      var paginatedIds := Paginate(storyIds.value, page, pageSize);
      ghost var start := service.cache.entries;
      var stories: seq<Story> := [];
      var i := 0;
      while i < |paginatedIds|
        invariant 0 <= i <= |paginatedIds|
        invariant CollectFrom(LinkOnly, paginatedIds[i..], stories, service.cache.entries, service.cache.now, up) ==
                  CollectFrom(LinkOnly, paginatedIds, [], start, service.cache.now, up)
      {
        assert paginatedIds[i..][1..] == paginatedIds[i + 1..];
        ghost var before := service.cache.entries;
        var story := service.GetStoryById(up, paginatedIds[i]);
        if story.Exception? {
          CollectFromStops(LinkOnly, paginatedIds[i..], stories, before, service.cache.now, up);
          return Unhandled;
        }
        CollectFromNext(LinkOnly, paginatedIds[i..], stories, before, service.cache.now, up, story.value, HasLink(story.value));
        if HasLink(story.value) {
          stories := stories + [story.value.value];
        }
        i := i + 1;
      }
      assert paginatedIds[i..] == [];
      r := OkStories(stories);
    }

    method SearchStories(up: Upstream, query: string, page: int, pageSize: int) returns (r: ActionResult)
      requires IsInt32(page) && IsInt32(pageSize)
      modifies service.cache`entries
      ensures Step(r, service.cache.entries) ==
              SearchAction(old(service.cache.entries), service.cache.now, up, query, page, pageSize)
    {
      var storyIds := service.GetNewStoryIds(up);
      if storyIds.Exception? {
        return Unhandled;
      }
      var ids := storyIds.value;
      ghost var start := service.cache.entries;
      var stories: seq<Story> := [];
      var i := 0;
      while i < |ids|
        invariant 0 <= i <= |ids|
        invariant CollectFrom(LinkAndTitle(query), ids[i..], stories, service.cache.entries, service.cache.now, up) ==
                  CollectFrom(LinkAndTitle(query), ids, [], start, service.cache.now, up)
      {
        assert ids[i..][1..] == ids[i + 1..];
        ghost var before := service.cache.entries;
        var story := service.GetStoryById(up, ids[i]);
        if story.Exception? {
          CollectFromStops(LinkAndTitle(query), ids[i..], stories, before, service.cache.now, up);
          return Unhandled;
        }
        // story != null && Url non-empty && Title.Contains(query): a null
        // Title makes Contains throw a NullReferenceException
        var admitted := Admits(LinkAndTitle(query), story.value);
        if admitted.Exception? {
          CollectFromStops(LinkAndTitle(query), ids[i..], stories, before, service.cache.now, up);
          return Unhandled;
        }
        CollectFromNext(LinkAndTitle(query), ids[i..], stories, before, service.cache.now, up, story.value, admitted.value);
        if admitted.value {
          stories := stories + [story.value.value];
        }
        i := i + 1;
      }
      assert ids[i..] == [];
      r := OkStories(Paginate(stories, page, pageSize));
    }

    method GetTopStories(up: Upstream, count: int) returns (r: ActionResult)
      modifies service.cache`entries
      ensures Step(r, service.cache.entries) == TopStoriesAction(old(service.cache.entries), service.cache.now, up, count)
    {
      if count <= 0 || count > 100 {
        return BadRequest(CountError);
      }
      var stories := service.GetTopStories(up, count);
      match stories
      case Ok(list) =>
        r := OkStories(list);
      case Exception =>
        r := StatusCode(500, ServerError);
    }
  }
}
