/** The records the formatters read, with only the fields they use. Go's `*Parent`
    pointer becomes an `Option` of the parent's id. */
module Types {
  import opened Wrappers
  import opened Bytes

  /** A bookmark. */
  datatype Raindrop = Raindrop(
    id: int,
    title: Bytes,
    link: Bytes,
    excerpt: Bytes,
    note: Bytes,
    created: Bytes,
    tags: seq<Bytes>)

  /** One page of search results; `count` is the server's total, not the page length. */
  datatype RaindropsResponse = RaindropsResponse(items: seq<Raindrop>, count: int)

  datatype Collection = Collection(
    fullId: int,
    title: Bytes,
    count: int,
    isPublic: bool,
    parent: Option<int>)

  datatype Tag = Tag(name: Bytes, count: int)

  datatype Highlight = Highlight(id: Bytes, text: Bytes, note: Bytes, color: Bytes)

  datatype User = User(
    id: int,
    email: Bytes,
    fullName: Bytes,
    pro: bool,
    proExpire: Bytes,
    registered: Bytes)

  /** The formatters treat a collection as nested when it names a parent with a positive id. */
  predicate IsChild(c: Collection) {
    c.parent.Some? && c.parent.value > 0
  }
}
