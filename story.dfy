/** The Story record and the upstream Hacker News API it comes from. */
module StoryModel {
  import opened Wrappers

  /** A Hacker News item as deserialized from `item/{id}.json`.
      Title and Url are nullable strings. The other upstream fields (score,
      author, time, comment ids) are carried opaquely by the source and never
      inspected, so they are left out. */
  datatype Story = Story(id: int, title: Option<string>, url: Option<string>)

  /** `!string.IsNullOrEmpty(story.Url)` */
  predicate Linked(s: Story) {
    s.url.Some? && |s.url.value| > 0
  }

  /** `s != null && !string.IsNullOrEmpty(s.Url)`: the test every listing
      applies before it keeps a story. */
  predicate HasLink(s: Option<Story>): (r: bool)
    ensures r ==> s.Some? && s.value.url.Some? && s.value.url.value != ""
    ensures !r ==> s.None? || s.value.url.None? || s.value.url.value == ""
  {
    s.Some? && Linked(s.value)
  }

  /** The upstream API as one snapshot: the reply to `newstories.json` and the
      reply to `item/{id}.json` for every id. `Ok(None)` is a body that
      deserializes to null (the item does not exist); `Exception` is a
      transport or deserialization failure. */
  datatype Upstream = Upstream(newStories: Result<seq<int>>, item: int -> Result<Option<Story>>)
}
