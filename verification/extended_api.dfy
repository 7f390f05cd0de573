/** The client's tag, highlight, filter, user and suggestion calls (api/extended.go). */
module ExtendedApi {
  import opened Wrappers
  import opened Bytes
  import opened Body
  import Url
  import E = Endpoints
  import opened Api

  /** Where the tag calls send a collection id: the account-wide path for ids <= 0,
      the collection's own path for positive ids (GetTags, by contrast, tests `!= 0`). */
  function TagScope(collectionId: int): (route: E.Route)
    ensures collectionId > 0 <==> route == E.TagsIn(collectionId)
    ensures collectionId <= 0 <==> route == E.Tags
  {
    if collectionId > 0 then E.TagsIn(collectionId) else E.Tags
  }

  /** RenameTag: PUT to the tag scope with a one-element list `[{"old": …, "new": …}]`. */
  function RenameTag(collectionId: int, oldName: Bytes, newName: Bytes): (r: Request)
    ensures r.verb == Put && E.Addresses(r.endpoint, TagScope(collectionId))
    ensures r.body.Some? && r.body.value.JArray? && |r.body.value.items| == 1
    ensures var item := r.body.value.items[0];
      item.JObject? && item.members.Keys == {Old, New}
      && item.members[Old] == JString(oldName) && item.members[New] == JString(newName)
  {
    var route := TagScope(collectionId);
    E.AddressesRendered(route);
    var m := Field(Field(map[], Old, GoString(oldName), Always), New, GoString(newName), Always);
    Request(Put, E.Render(route), Some(JArray([JObject(m)])))
  }

  /** DeleteTags: DELETE to the tag scope with body `{"tags": [...]}`. */
  function DeleteTags(collectionId: int, tags: seq<Bytes>): (r: Request)
    ensures r.verb == Delete && E.Addresses(r.endpoint, TagScope(collectionId))
    ensures ObjectWith(r.body, {Tags}) && MemberOf(r.body, Tags) == Strings(tags)
  {
    var route := TagScope(collectionId);
    E.AddressesRendered(route);
    Request(Delete, E.Render(route), Some(JObject(map[Tags := Strings(tags)])))
  }

  /** Where MergeTags sends a collection id: /tags/merge for ids <= 0, /tags/{id}/merge
      for positive ids. */
  function MergeScope(collectionId: int): (route: E.Route)
    ensures collectionId > 0 <==> route == E.TagsMergeIn(collectionId)
    ensures collectionId <= 0 <==> route == E.TagsMerge
  {
    if collectionId > 0 then E.TagsMergeIn(collectionId) else E.TagsMerge
  }

  /** MergeTags: PUT to the merge scope with body `{"tags": [...]}` (MergeTagsRequest). */
  function MergeTags(collectionId: int, tags: seq<Bytes>): (r: Request)
    ensures r.verb == Put && E.Addresses(r.endpoint, MergeScope(collectionId))
    ensures ObjectWith(r.body, {Tags}) && MemberOf(r.body, Tags) == Strings(tags)
  {
    var route := MergeScope(collectionId);
    E.AddressesRendered(route);
    Request(Put, E.Render(route), Some(JObject(Field(map[], Tags, GoStrings(tags), Always))))
  }

  /** GetHighlights: every highlight for raindrop 0, one bookmark's highlights otherwise. */
  function GetHighlights(raindropId: int): (r: Request)
    ensures r.verb == Get && r.body == None
    ensures raindropId == 0 ==> E.Addresses(r.endpoint, E.Highlights)
    ensures raindropId != 0 ==> E.Addresses(r.endpoint, E.HighlightsOf(raindropId))
  {
    var route := if raindropId == 0 then E.Highlights else E.HighlightsOf(raindropId);
    E.AddressesRendered(route);
    Request(Get, E.Render(route), None)
  }

  /** CreateHighlight: POST /highlight with raindrop and text always, note and colour only
      when non-empty (CreateHighlightRequest tags them `omitempty`). */
  function CreateHighlight(raindropId: int, text: Bytes, note: Bytes, color: Bytes): (r: Request)
    ensures r.verb == Post && E.Addresses(r.endpoint, E.Highlight)
    ensures ObjectWith(r.body, {Raindrop, Passage} + When(note != [], Note) + When(color != [], Color))
    ensures MemberOf(r.body, Raindrop) == JInt(raindropId) && MemberOf(r.body, Passage) == JString(text)
    ensures note != [] ==> MemberOf(r.body, Note) == JString(note)
    ensures color != [] ==> MemberOf(r.body, Color) == JString(color)
  {
    E.AddressesRendered(E.Highlight);
    var m := CreateHighlightBody(raindropId, text, note, color);
    var r := Request(Post, E.Render(E.Highlight), Some(JObject(m)));
    assert Raindrop in m && Passage in m;
    assert MemberOf(r.body, Raindrop) == m[Raindrop];
    assert MemberOf(r.body, Passage) == m[Passage];
    assert note != [] ==> MemberOf(r.body, Note) == m[Note];
    assert color != [] ==> MemberOf(r.body, Color) == m[Color];
    r
  }

  /** The CreateHighlightRequest fields in declaration order. */
  function CreateHighlightBody(raindropId: int, text: Bytes, note: Bytes, color: Bytes): (m: map<Key, Json>)
    ensures m.Keys == {Raindrop, Passage} + When(note != [], Note) + When(color != [], Color)
    ensures m[Raindrop] == JInt(raindropId) && m[Passage] == JString(text)
    ensures note != [] ==> m[Note] == JString(note)
    ensures color != [] ==> m[Color] == JString(color)
  {
    var m1 := Field(map[], Raindrop, GoInt(raindropId), Always);
    var m2 := Field(m1, Passage, GoString(text), Always);
    assert m2.Keys == {Raindrop, Passage};
    var m3 := Field(m2, Note, GoString(note), OmitEmpty);
    assert m3.Keys == {Raindrop, Passage} + When(note != [], Note);
    Field(m3, Color, GoString(color), OmitEmpty)
  }

  /** DeleteHighlight: DELETE /raindrop/{rid}/highlight/{hid}, the highlight id spliced in
      as given. */
  function DeleteHighlight(raindropId: int, highlightId: Bytes): (r: Request)
    ensures r.verb == Delete && r.body == None
    ensures E.SegmentSafe(highlightId) ==> E.Addresses(r.endpoint, E.HighlightOf(raindropId, highlightId))
  {
    HighlightAddressed(raindropId, highlightId);
    Request(Delete, E.Render(E.HighlightOf(raindropId, highlightId)), None)
  }

  lemma HighlightAddressed(raindropId: int, highlightId: Bytes)
    ensures E.SegmentSafe(highlightId) ==>
      E.Addresses(E.Render(E.HighlightOf(raindropId, highlightId)), E.HighlightOf(raindropId, highlightId))
  {
    if E.SegmentSafe(highlightId) {
      E.AddressesRendered(E.HighlightOf(raindropId, highlightId));
    }
  }

  function GetFilters(collectionId: int): (r: Request)
    ensures r.verb == Get && r.body == None && E.Addresses(r.endpoint, E.Filters(collectionId))
  {
    E.AddressesRendered(E.Filters(collectionId));
    Request(Get, E.Render(E.Filters(collectionId)), None)
  }

  function GetUser(): (r: Request)
    ensures r.verb == Get && r.body == None && E.Addresses(r.endpoint, E.User)
  {
    E.AddressesRendered(E.User);
    Request(Get, E.Render(E.User), None)
  }

  // ---------------------------------------------------------------------------
  // Tag suggestions

  const URL_KEY: Bytes := Text("url")
  const URL_PREFIX: Bytes := Text("url=")

  /** SuggestTags as written: the URL is spliced after `?url=` without escaping, so the
      server reads whatever query the URL's own bytes spell. */
  function SuggestTagsAsWritten(url: Bytes): (r: Request)
    ensures r.verb == Get && r.body == None
    ensures E.Addresses(r.endpoint, E.TagSuggest)
    ensures Url.QueryPart(r.endpoint) == Url.WithoutFragment(URL_PREFIX + url)
  {
    E.AddressesThenText(E.TagSuggest, URL_PREFIX + url);
    Request(Get, E.Render(E.TagSuggest) + [QUESTION] + (URL_PREFIX + url), None)
  }

  /** Every byte of `s` is unreserved: letters, digits, '-', '.', '_' and '~'. */
  predicate Plain(s: Bytes) {
    forall i | 0 <= i < |s| :: Url.Unreserved(s[i])
  }

  lemma PlainFree(s: Bytes, c: byte)
    requires Plain(s) && !Url.Unreserved(c)
    ensures Free(s, c)
  {
  }

  /** Unreserved bytes unescape to themselves. */
  lemma UnescapePlain(s: Bytes)
    requires Plain(s)
    ensures Url.Unescape(s) == Some(s)
  {
    Url.EscapePlain(s);
    Url.UnescapeEscape(s);
  }

  /** For a URL "x&y" made of unreserved bytes, the server reads two parameters, `url=x`
      and `y=`: the suggestion is asked for "x", not for the URL given. */
  lemma SuggestTagsSplitsUrl(x: Bytes, y: Bytes)
    requires Plain(x) && Plain(y) && |y| > 0
    ensures var url := x + [AMP] + y;
      Url.ParseQuery(Url.QueryPart(SuggestTagsAsWritten(url).endpoint)) == [(URL_KEY, x), (y, [])]
      && Url.Get(Url.ParseQuery(Url.QueryPart(SuggestTagsAsWritten(url).endpoint)), URL_KEY) != url
  {
    var url := x + [AMP] + y;
    QuerySplitsAtAmp(x, y);
    ReadBothFields(x, y);
    var ps := [(URL_KEY, x), (y, [])];
    assert Url.ParseQuery(Url.QueryPart(SuggestTagsAsWritten(url).endpoint)) == ps;
    assert Url.Get(ps, URL_KEY) == x;
    assert |x| != |url|;
  }

  /** The fields "url=x" and "y" read as two parameters, in that order. */
  lemma ReadBothFields(x: Bytes, y: Bytes)
    requires Plain(x) && Plain(y) && |y| > 0
    ensures Url.ReadFields([URL_PREFIX + x, y]) == [(URL_KEY, x), (y, [])]
  {
    ReadUrlField(x);
    ReadBareField(y);
    var fs := [URL_PREFIX + x, y];
    assert fs[1..] == [y] && [y][1..] == [];
    assert Url.ReadFields([y]) == [(y, [])];
  }

  /** The query the as-written request carries for "x&y" is cut at the '&' into the
      fields "url=x" and "y". */
  lemma QuerySplitsAtAmp(x: Bytes, y: Bytes)
    requires Plain(x) && Plain(y)
    ensures Url.Split(Url.QueryPart(SuggestTagsAsWritten(x + [AMP] + y).endpoint), AMP)
      == [URL_PREFIX + x, y]
  {
    WholeQuery(x + [AMP] + y);
    SplitAtAmp(x, y);
  }

  /** A URL with no '#' reaches the server whole as the query. */
  lemma WholeQuery(url: Bytes)
    requires Free(url, HASH)
    ensures Url.QueryPart(SuggestTagsAsWritten(url).endpoint) == URL_PREFIX + url
  {
    var q := URL_PREFIX + url;
    assert Free(URL_PREFIX, HASH);
    FreeAppend(URL_PREFIX, url, HASH);
    Url.IndexOfFree(q, HASH);
    assert Url.WithoutFragment(q) == q;
  }

  lemma SplitAtAmp(x: Bytes, y: Bytes)
    requires Plain(x) && Plain(y)
    ensures Free(x + [AMP] + y, HASH)
    ensures Url.Split(URL_PREFIX + (x + [AMP] + y), AMP) == [URL_PREFIX + x, y]
  {
    var first := URL_PREFIX + x;
    assert URL_PREFIX + (x + [AMP] + y) == first + [AMP] + y;
    PlainFree(x, HASH);
    PlainFree(y, HASH);
    FreeAppend(x + [AMP], y, HASH);
    PrefixFree(x, AMP);
    PlainFree(y, AMP);
    Url.SplitCons(first, AMP, y);
    Url.SplitFree(y, AMP);
  }

  /** "url=" followed by unreserved bytes holds none of '&', '#' and ';'. */
  lemma PrefixFree(x: Bytes, c: byte)
    requires Plain(x) && (c == AMP || c == HASH || c == SEMICOLON)
    ensures Free(URL_PREFIX + x, c)
  {
    assert Free(URL_PREFIX, c);
    PlainFree(x, c);
    FreeAppend(URL_PREFIX, x, c);
  }

  /** The field "url=x" reads as the parameter url with the value x. */
  lemma ReadUrlField(x: Bytes)
    requires Plain(x)
    ensures Url.ReadField(URL_PREFIX + x) == [(URL_KEY, x)]
  {
    var first := URL_PREFIX + x;
    assert first == URL_KEY + [EQUALS] + x;
    assert Free(URL_KEY, EQUALS);
    PrefixFree(x, SEMICOLON);
    Url.IndexOfAfter(URL_KEY, EQUALS, x);
    assert first[..3] == URL_KEY && first[4..] == x;
    assert Plain(URL_KEY);
    UnescapePlain(URL_KEY);
    UnescapePlain(x);
  }

  /** A field with no '=' reads as a parameter with the empty value. */
  lemma ReadBareField(y: Bytes)
    requires Plain(y) && |y| > 0
    ensures Url.ReadField(y) == [(y, [])]
  {
    UnescapePlain(y);
    PlainFree(y, EQUALS);
    PlainFree(y, SEMICOLON);
    Url.IndexOfFree(y, EQUALS);
    assert y[..|y|] == y;
    assert Url.Unescape([]) == Some([]);
  }

  /** SuggestTags with the URL query-escaped: the server reads back exactly one parameter,
      `url`, holding the URL given, whatever bytes it contains. */
  function SuggestTags(url: Bytes): (r: Request)
    ensures r.verb == Get && r.body == None
    ensures E.Addresses(r.endpoint, E.TagSuggest)
    ensures Url.ParseQuery(Url.QueryPart(r.endpoint)) == [(URL_KEY, url)]
    ensures Url.Get(Url.ParseQuery(Url.QueryPart(r.endpoint)), URL_KEY) == url
  {
    var ps := [(URL_KEY, url)];
    WithQuery(E.TagSuggest, ps);
    Url.ParseEncode(ps);
    Request(Get, E.Render(E.TagSuggest) + [QUESTION] + Url.Encode(ps), None)
  }
}
