/** The REST endpoints the client addresses, relative to https://api.raindrop.io/rest/v1.
    `Render` writes a route the way the client's `fmt.Sprintf` formats do; `Parse` reads a
    request path back into the route, so a builder's contract can say which resource it
    addresses, independently of how the path was assembled. */
module Endpoints {
  import opened Wrappers
  import opened Bytes
  import Url

  datatype Route =
    | Raindrop                                  // /raindrop
    | RaindropById(id: int)                     // /raindrop/{id}
    | HighlightsOf(raindrop: int)               // /raindrop/{id}/highlights
    | HighlightOf(raindrop: int, hid: Bytes)    // /raindrop/{id}/highlight/{hid}
    | Raindrops(collection: int)                // /raindrops/{collection}
    | Collection                                // /collection
    | CollectionById(id: int)                   // /collection/{id}
    | Collections                               // /collections
    | ChildCollections                          // /collections/childrens
    | CollectionsMerge                          // /collections/merge
    | Tags                                      // /tags
    | TagsIn(collection: int)                   // /tags/{collection}
    | TagsMerge                                 // /tags/merge
    | TagsMergeIn(collection: int)              // /tags/{collection}/merge
    | TagSuggest                                // /tags/suggest
    | Highlights                                // /highlights
    | Highlight                                 // /highlight
    | Filters(collection: int)                  // /filters/{collection}
    | User                                      // /user

  const RAINDROP: Bytes := Text("raindrop")
  const RAINDROPS: Bytes := Text("raindrops")
  const HIGHLIGHT: Bytes := Text("highlight")
  const HIGHLIGHTS: Bytes := Text("highlights")
  const COLLECTION: Bytes := Text("collection")
  const COLLECTIONS: Bytes := Text("collections")
  const CHILDRENS: Bytes := Text("childrens")
  const MERGE: Bytes := Text("merge")
  const TAGS: Bytes := Text("tags")
  const SUGGEST: Bytes := Text("suggest")
  const FILTERS: Bytes := Text("filters")
  const USER: Bytes := Text("user")

  /** A path segment made of lower-case letters only. */
  predicate Word(s: Bytes) {
    |s| > 0 && forall i | 0 <= i < |s| :: 97 <= s[i] <= 122
  }

  /** Every fixed segment the client writes is a word. */
  lemma Words()
    ensures Word(RAINDROP) && Word(RAINDROPS) && Word(HIGHLIGHT) && Word(HIGHLIGHTS)
    ensures Word(COLLECTION) && Word(COLLECTIONS) && Word(CHILDRENS) && Word(MERGE)
    ensures Word(TAGS) && Word(SUGGEST) && Word(FILTERS) && Word(USER)
  {
    TextWord("raindrop");
    TextWord("raindrops");
    TextWord("highlight");
    TextWord("highlights");
    TextWord("collection");
    TextWord("collections");
    TextWord("childrens");
    TextWord("merge");
    TextWord("tags");
    TextWord("suggest");
    TextWord("filters");
    TextWord("user");
  }

  lemma TextWord(s: string)
    requires |s| > 0 && forall i | 0 <= i < |s| :: 'a' <= s[i] <= 'z'
    ensures IsAscii(s) && Word(Text(s))
  {
  }

  /** A highlight id that survives being spliced into a path unescaped. */
  predicate SegmentSafe(s: Bytes) {
    Free(s, SLASH) && Free(s, QUESTION) && Free(s, HASH)
  }

  predicate WellFormed(r: Route) {
    r.HighlightOf? ==> SegmentSafe(r.hid)
  }

  function Segments(r: Route): (segs: seq<Bytes>)
    ensures |segs| > 0
  {
    match r
    case Raindrop => [RAINDROP]
    case RaindropById(id) => [RAINDROP, Dec(id)]
    case HighlightsOf(id) => [RAINDROP, Dec(id), HIGHLIGHTS]
    case HighlightOf(id, hid) => [RAINDROP, Dec(id), HIGHLIGHT, hid]
    case Raindrops(c) => [RAINDROPS, Dec(c)]
    case Collection => [COLLECTION]
    case CollectionById(id) => [COLLECTION, Dec(id)]
    case Collections => [COLLECTIONS]
    case ChildCollections => [COLLECTIONS, CHILDRENS]
    case CollectionsMerge => [COLLECTIONS, MERGE]
    case Tags => [TAGS]
    case TagsIn(c) => [TAGS, Dec(c)]
    case TagsMerge => [TAGS, MERGE]
    case TagsMergeIn(c) => [TAGS, Dec(c), MERGE]
    case TagSuggest => [TAGS, SUGGEST]
    case Highlights => [HIGHLIGHTS]
    case Highlight => [HIGHLIGHT]
    case Filters(c) => [FILTERS, Dec(c)]
    case User => [USER]
  }

  /** The path the client writes for a route: '/' before every segment. */
  function Render(r: Route): Bytes {
    [SLASH] + Join(Segments(r), [SLASH])
  }

  /** Reads the segments of a path back into the route they name. */
  function FromSegments(segs: seq<Bytes>): Option<Route> {
    if |segs| == 1 then
      var a := segs[0];
      if a == RAINDROP then Some(Raindrop)
      else if a == COLLECTION then Some(Collection)
      else if a == COLLECTIONS then Some(Collections)
      else if a == TAGS then Some(Tags)
      else if a == HIGHLIGHTS then Some(Highlights)
      else if a == HIGHLIGHT then Some(Highlight)
      else if a == USER then Some(User)
      else None
    else if |segs| == 2 then
      var a := segs[0];
      var b := segs[1];
      match ParseInt(b)
      case Some(n) =>
        if a == RAINDROP then Some(RaindropById(n))
        else if a == RAINDROPS then Some(Raindrops(n))
        else if a == COLLECTION then Some(CollectionById(n))
        else if a == TAGS then Some(TagsIn(n))
        else if a == FILTERS then Some(Filters(n))
        else None
      case None =>
        if a == COLLECTIONS && b == CHILDRENS then Some(ChildCollections)
        else if a == COLLECTIONS && b == MERGE then Some(CollectionsMerge)
        else if a == TAGS && b == MERGE then Some(TagsMerge)
        else if a == TAGS && b == SUGGEST then Some(TagSuggest)
        else None
    else if |segs| == 3 then
      match ParseInt(segs[1])
      case Some(n) =>
        if segs[0] == RAINDROP && segs[2] == HIGHLIGHTS then Some(HighlightsOf(n))
        else if segs[0] == TAGS && segs[2] == MERGE then Some(TagsMergeIn(n))
        else None
      case None => None
    else if |segs| == 4 then
      match ParseInt(segs[1])
      case Some(n) =>
        if segs[0] == RAINDROP && segs[2] == HIGHLIGHT then Some(HighlightOf(n, segs[3])) else None
      case None => None
    else None
  }

  /** Reads a request path ('/'-separated segments) into a route. */
  function Parse(path: Bytes): Option<Route> {
    if |path| > 0 && path[0] == SLASH then FromSegments(Url.Split(path[1..], SLASH)) else None
  }

  /** The request target `endpoint` addresses `r`. */
  predicate Addresses(endpoint: Bytes, r: Route) {
    Parse(Url.PathPart(endpoint)) == Some(r)
  }

  lemma {:induction false} SplitJoin(parts: seq<Bytes>, c: byte)
    requires |parts| > 0
    requires forall i | 0 <= i < |parts| :: Free(parts[i], c)
    ensures Url.Split(Join(parts, [c]), c) == parts
    decreases |parts|
  {
    if |parts| == 1 {
      Url.SplitFree(parts[0], c);
    } else {
      assert Join(parts, [c]) == parts[0] + [c] + Join(parts[1..], [c]);
      Url.SplitCons(parts[0], c, Join(parts[1..], [c]));
      SplitJoin(parts[1..], c);
      assert [parts[0]] + parts[1..] == parts;
    }
  }

  lemma {:induction false} JoinFree(parts: seq<Bytes>, sep: Bytes, c: byte)
    requires Free(sep, c)
    requires forall i | 0 <= i < |parts| :: Free(parts[i], c)
    ensures Free(Join(parts, sep), c)
    decreases |parts|
  {
    if |parts| > 1 {
      JoinFree(parts[1..], sep, c);
      FreeAppend(parts[0], sep, c);
      FreeAppend(parts[0] + sep, Join(parts[1..], sep), c);
    }
  }

  lemma WordFree(w: Bytes, c: byte)
    requires Word(w) && !(97 <= c <= 122)
    ensures Free(w, c)
  {
  }

  lemma SegmentsFree(r: Route, c: byte)
    requires WellFormed(r)
    requires c == SLASH || c == QUESTION || c == HASH
    ensures forall i | 0 <= i < |Segments(r)| :: Free(Segments(r)[i], c)
  {
    Words();
    forall n: int ensures Free(Dec(n), c) {
      DecFree(n, c);
    }
    forall w | Word(w) ensures Free(w, c) {
      WordFree(w, c);
    }
  }

  /** A rendered path holds no '?' or '#', so the server reads it whole as the path. */
  lemma RenderFree(r: Route)
    requires WellFormed(r)
    ensures Free(Render(r), QUESTION) && Free(Render(r), HASH)
  {
    SegmentsFree(r, QUESTION);
    SegmentsFree(r, HASH);
    JoinFree(Segments(r), [SLASH], QUESTION);
    JoinFree(Segments(r), [SLASH], HASH);
    FreeAppend([SLASH], Join(Segments(r), [SLASH]), QUESTION);
    FreeAppend([SLASH], Join(Segments(r), [SLASH]), HASH);
  }

  lemma WordNotInt(w: Bytes)
    requires Word(w)
    ensures ParseInt(w) == None
  {
  }

  lemma FromSegmentsOfRoute(r: Route)
    requires WellFormed(r)
    ensures FromSegments(Segments(r)) == Some(r)
  {
    match r
    case RaindropById(id) => FromSegmentsNumbered(r, id);
    case HighlightsOf(id) => FromSegmentsNumbered(r, id);
    case HighlightOf(id, _) => FromSegmentsNumbered(r, id);
    case Raindrops(c) => FromSegmentsNumbered(r, c);
    case CollectionById(id) => FromSegmentsNumbered(r, id);
    case TagsIn(c) => FromSegmentsNumbered(r, c);
    case TagsMergeIn(c) => FromSegmentsNumbered(r, c);
    case Filters(c) => FromSegmentsNumbered(r, c);
    case _ => FromSegmentsFixed(r);
  }

  /** The routes that carry a number read back with that number. */
  lemma FromSegmentsNumbered(r: Route, n: int)
    requires r.RaindropById? || r.HighlightsOf? || r.HighlightOf? || r.Raindrops?
          || r.CollectionById? || r.TagsIn? || r.TagsMergeIn? || r.Filters?
    requires n == match r
      case RaindropById(id) => id
      case HighlightsOf(id) => id
      case HighlightOf(id, _) => id
      case Raindrops(c) => c
      case CollectionById(id) => id
      case TagsIn(c) => c
      case TagsMergeIn(c) => c
      case Filters(c) => c
      case _ => 0
    ensures FromSegments(Segments(r)) == Some(r)
  {
    DecRoundTrip(n);
    assert |RAINDROP| == 8 && |RAINDROPS| == 9 && |COLLECTION| == 10 && |TAGS| == 4 && |FILTERS| == 7;
    assert |HIGHLIGHTS| == 10 && |MERGE| == 5 && |HIGHLIGHT| == 9;
  }

  /** The routes without a number read back as themselves. */
  lemma FromSegmentsFixed(r: Route)
    requires !(r.RaindropById? || r.HighlightsOf? || r.HighlightOf? || r.Raindrops?
          || r.CollectionById? || r.TagsIn? || r.TagsMergeIn? || r.Filters?)
    ensures FromSegments(Segments(r)) == Some(r)
  {
    Words();
    WordNotInt(CHILDRENS);
    WordNotInt(MERGE);
    WordNotInt(SUGGEST);
    assert HIGHLIGHTS[0] != COLLECTION[0] && USER[0] != TAGS[0];
  }

  /** Reading a rendered route gives back that route: distinct routes have distinct paths. */
  lemma RenderParse(r: Route)
    requires WellFormed(r)
    ensures Parse(Render(r)) == Some(r)
  {
    var p := Render(r);
    assert p[1..] == Join(Segments(r), [SLASH]);
    SegmentsFree(r, SLASH);
    SplitJoin(Segments(r), SLASH);
    FromSegmentsOfRoute(r);
  }

  /** A request whose endpoint is a rendered route addresses that route. */
  lemma AddressesRendered(r: Route)
    requires WellFormed(r)
    ensures Addresses(Render(r), r)
  {
    RenderFree(r);
    Url.TargetPlain(Render(r));
    RenderParse(r);
  }

  /** A rendered route followed by '?' and any text addresses that route whatever the text
      holds; the query the server reads is the text up to its first '#'. */
  lemma AddressesThenText(r: Route, text: Bytes)
    requires WellFormed(r)
    ensures Addresses(Render(r) + [QUESTION] + text, r)
    ensures Url.QueryPart(Render(r) + [QUESTION] + text) == Url.WithoutFragment(text)
  {
    RenderFree(r);
    Url.TargetThenText(Render(r), text);
    RenderParse(r);
  }

  /** A rendered route followed by '?' and a query still addresses that route, and the
      server reads the query back as written. */
  lemma AddressesWithQuery(r: Route, query: Bytes)
    requires WellFormed(r) && Free(query, HASH)
    ensures Addresses(Render(r) + [QUESTION] + query, r)
    ensures Url.QueryPart(Render(r) + [QUESTION] + query) == query
  {
    RenderFree(r);
    Url.TargetWithQuery(Render(r), query);
    RenderParse(r);
  }
}
