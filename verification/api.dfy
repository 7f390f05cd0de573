/** The REST client's request core (api/raindrop.go): how a request is sent and its reply
    classified, and the bookmark, search, collection-list and tag-list calls. Each client
    call is modelled by the `Request` it hands to makeRequest; the reply it receives is
    a parameter (the transport outcome and, for calls that decode, the decoded record). */
module Api {
  import opened Wrappers
  import opened Bytes
  import opened Body
  import Url
  import E = Endpoints

  datatype Method = Get | Post | Put | Delete

  /** What a client call hands to makeRequest: method, endpoint (path and query, relative
      to the base URL) and the body to marshal, if any. */
  datatype Request = Request(verb: Method, endpoint: Bytes, body: Option<Json>)

  const BASE_URL: Bytes := Text("https://api.raindrop.io/rest/v1")
  const BEARER: Bytes := Text("Bearer ")
  const APPLICATION_JSON: Bytes := Text("application/json")

  /** The HTTP request put on the wire. */
  datatype HttpRequest = HttpRequest(
    verb: Method,
    url: Bytes,
    headers: map<string, Bytes>,
    body: Option<Json>)

  /** The credentials of an `Authorization` header value, as the server reads a bearer
      token (section 2.1 of RFC 6750). */
  function BearerCredentials(value: Bytes): Option<Bytes> {
    if StartsWith(value, BEARER) then Some(value[|BEARER|..]) else None
  }

  /** makeRequest up to sending: the body travels iff one is given, the URL is the base URL
      followed by the endpoint, and every request carries the bearer token and a JSON
      content type. */
  function Prepare(token: Bytes, req: Request): (h: HttpRequest)
    ensures h.verb == req.verb && h.body == req.body
    ensures StartsWith(h.url, BASE_URL) && h.url[|BASE_URL|..] == req.endpoint
    ensures h.headers.Keys == {"Authorization", "Content-Type"}
    ensures BearerCredentials(h.headers["Authorization"]) == Some(token)
    ensures h.headers["Content-Type"] == APPLICATION_JSON
  {
    var auth := BEARER + token;
    assert auth[..|BEARER|] == BEARER && auth[|BEARER|..] == token;
    var url := BASE_URL + req.endpoint;
    assert url[..|BASE_URL|] == BASE_URL && url[|BASE_URL|..] == req.endpoint;
    HttpRequest(req.verb, url, map["Authorization" := auth, "Content-Type" := APPLICATION_JSON], req.body)
  }

  /** What the HTTP exchange produced. */
  datatype Transport =
    | Unreachable                        // httpClient.Do failed
    | Unreadable                         // reading the response body failed
    | Received(status: int, body: Bytes) // status and (size-capped) body

  datatype ApiError =
    | RequestFailed                      // "request failed: ..."
    | ReadFailed                         // "failed to read response: ..."
    | StatusError(status: int, body: Bytes) // "API error (status N): body"
    | ParseFailed                        // "failed to parse response: ..."

  /** makeRequest's reply classification: a status of 400 or more is an error carrying the
      status and body; any other status yields the body. */
  function MakeRequest(t: Transport): (r: Result<Bytes, ApiError>)
    ensures r.Success? <==> t.Received? && t.status < 400
    ensures r.Success? ==> r.value == t.body
    ensures t.Received? && t.status >= 400 ==> r == Failure(StatusError(t.status, t.body))
    ensures t.Unreachable? ==> r == Failure(RequestFailed)
    ensures t.Unreadable? ==> r == Failure(ReadFailed)
  {
    match t
    case Unreachable => Failure(RequestFailed)
    case Unreadable => Failure(ReadFailed)
    case Received(status, body) =>
      if status >= 400 then Failure(StatusError(status, body)) else Success(body)
  }

  /** A call that decodes its reply: `decoded` is what json.Unmarshal made of the body
      (None when it failed). */
  function Decode<T>(t: Transport, decoded: Option<T>): (r: Result<T, ApiError>)
    ensures r.Success? <==> MakeRequest(t).Success? && decoded.Some?
    ensures r.Success? ==> r.value == decoded.value
    ensures MakeRequest(t).Failure? ==> r == Failure(MakeRequest(t).error)
    ensures MakeRequest(t).Success? && decoded.None? ==> r == Failure(ParseFailed)
  {
    match MakeRequest(t)
    case Failure(e) => Failure(e)
    case Success(_) => if decoded.Some? then Success(decoded.value) else Failure(ParseFailed)
  }

  /** A call that only reports an error: the reply body is discarded. */
  function Discard(t: Transport): (r: Outcome<ApiError>)
    ensures r.Pass? <==> t.Received? && t.status < 400
    ensures r.Fail? ==> r.error == MakeRequest(t).error
  {
    match MakeRequest(t)
    case Failure(e) => Fail(e)
    case Success(_) => Pass
  }

  // ---------------------------------------------------------------------------
  // Bookmarks

  /** The CreateRaindropRequest body as the client writes it. `pleaseParse` is set to an
      empty map, but its field is tagged `omitempty`, and encoding/json omits an empty map,
      so `pleaseParse` is never sent. */
  function CreateRaindropAsWritten(link: Bytes, title: Bytes, tags: seq<Bytes>, collectionId: int): (r: Request)
    ensures r.verb == Post && E.Addresses(r.endpoint, E.Raindrop)
    ensures ObjectWith(r.body, {Link} + When(title != [], Title) + When(|tags| > 0, Tags)
                                + When(collectionId != 0, Collection))
  {
    E.AddressesRendered(E.Raindrop);
    Request(Post, E.Render(E.Raindrop), Some(CreateRaindropBody(link, title, tags, collectionId, OmitEmpty)))
  }

  /** Whatever the arguments, the as-written create request has no `pleaseParse` member. */
  lemma PleaseParseDropped(link: Bytes, title: Bytes, tags: seq<Bytes>, collectionId: int)
    ensures var body := CreateRaindropAsWritten(link, title, tags, collectionId).body;
      body.Some? && body.value.JObject? && PleaseParse !in body.value.members
  {
    var keys := {Link} + When(title != [], Title) + When(|tags| > 0, Tags) + When(collectionId != 0, Collection);
    assert PleaseParse !in keys;
  }

  /** The CreateRaindropRequest fields in declaration order; `pleaseTag` is the tag the
      `pleaseParse` field carries. */
  function CreateRaindropBody(link: Bytes, title: Bytes, tags: seq<Bytes>, collectionId: int, pleaseTag: Tag): (j: Json)
    ensures j.JObject?
    ensures j.members.Keys == {Link} + When(title != [], Title) + When(|tags| > 0, Tags)
                              + When(collectionId != 0, Collection) + When(pleaseTag.Always?, PleaseParse)
    ensures j.members[Link] == JString(link)
    ensures pleaseTag.Always? ==> j.members[PleaseParse] == JObject(map[])
    ensures title != [] ==> j.members[Title] == JString(title)
    ensures |tags| > 0 ==> j.members[Tags] == Strings(tags)
    ensures collectionId != 0 ==> j.members[Collection] == Ref(collectionId)
  {
    var m7 := CreateRaindropFields(link, title, tags, collectionId);
    var m8 := Field(m7, PleaseParse, GoEmptyMap, pleaseTag);
    assert m8[Link] == m7[Link];
    JObject(m8)
  }

  /** The CreateRaindropRequest fields before `pleaseParse`. */
  function CreateRaindropFields(link: Bytes, title: Bytes, tags: seq<Bytes>, collectionId: int): (m: map<Key, Json>)
    ensures m.Keys == {Link} + When(title != [], Title) + When(|tags| > 0, Tags) + When(collectionId != 0, Collection)
    ensures m[Link] == JString(link)
    ensures title != [] ==> m[Title] == JString(title)
    ensures |tags| > 0 ==> m[Tags] == Strings(tags)
    ensures collectionId != 0 ==> m[Collection] == Ref(collectionId)
  {
    var m4 := LinkAndTitle(link, title);
    var m5 := Field(m4, Tags, GoStrings(tags), OmitEmpty);
    assert m5.Keys == {Link} + When(title != [], Title) + When(|tags| > 0, Tags);
    assert m5[Link] == m4[Link] && (title != [] ==> m5[Title] == m4[Title]);
    var m6 := Field(m5, Important, GoBool(false), OmitEmpty);
    assert m6 == m5;
    Field(m6, Collection, GoRefPointer(if collectionId != 0 then Some(collectionId) else None), OmitEmpty)
  }

  /** The first four CreateRaindropRequest fields: the link, the title when given, and the
      excerpt and note, which the client leaves empty and so never sends. */
  function LinkAndTitle(link: Bytes, title: Bytes): (m: map<Key, Json>)
    ensures m.Keys == {Link} + When(title != [], Title)
    ensures m[Link] == JString(link)
    ensures title != [] ==> m[Title] == JString(title)
  {
    var m1 := Field(map[], Link, GoString(link), Always);
    assert m1.Keys == {Link};
    var m2 := Field(m1, Title, GoString(title), OmitEmpty);
    var m3 := Field(m2, Excerpt, GoString([]), OmitEmpty);
    assert m3 == m2;
    Field(m3, Note, GoString([]), OmitEmpty)
  }

  /** CreateRaindrop: POST /raindrop with the link, the title and tags when given, the
      collection reference iff the collection id is non-zero, and always `pleaseParse: {}`
      so that the server fetches the page's metadata. */
  function CreateRaindrop(link: Bytes, title: Bytes, tags: seq<Bytes>, collectionId: int): (r: Request)
    ensures r.verb == Post && E.Addresses(r.endpoint, E.Raindrop)
    ensures ObjectWith(r.body, {Link} + When(title != [], Title) + When(|tags| > 0, Tags)
                                + When(collectionId != 0, Collection) + {PleaseParse})
    ensures MemberOf(r.body, Link) == JString(link)
    ensures MemberOf(r.body, PleaseParse) == JObject(map[])
    ensures title != [] ==> MemberOf(r.body, Title) == JString(title)
    ensures |tags| > 0 ==> MemberOf(r.body, Tags) == Strings(tags)
    ensures collectionId != 0 ==> MemberOf(r.body, Collection) == Ref(collectionId)
  {
    E.AddressesRendered(E.Raindrop);
    var j := CreateRaindropBody(link, title, tags, collectionId, Always);
    var r := Request(Post, E.Render(E.Raindrop), Some(j));
    assert MemberOf(r.body, Link) == j.members[Link];
    assert MemberOf(r.body, PleaseParse) == j.members[PleaseParse];
    assert title != [] ==> MemberOf(r.body, Title) == j.members[Title];
    assert |tags| > 0 ==> MemberOf(r.body, Tags) == j.members[Tags];
    assert collectionId != 0 ==> MemberOf(r.body, Collection) == j.members[Collection];
    r
  }

  function GetRaindrop(id: int): (r: Request)
    ensures r.verb == Get && r.body == None && E.Addresses(r.endpoint, E.RaindropById(id))
  {
    E.AddressesRendered(E.RaindropById(id));
    Request(Get, E.Render(E.RaindropById(id)), None)
  }

  /** UpdateRaindrop: PUT /raindrop/{id} carrying only what changes: title and note when
      non-empty, tags when non-empty, the collection reference when one is given. */
  function UpdateRaindrop(id: int, title: Bytes, note: Bytes, tags: seq<Bytes>, collection: Option<int>): (r: Request)
    ensures r.verb == Put && E.Addresses(r.endpoint, E.RaindropById(id))
    ensures ObjectWith(r.body, When(title != [], Title) + When(note != [], Note)
                                + When(|tags| > 0, Tags) + When(collection.Some?, Collection))
    ensures title != [] ==> MemberOf(r.body, Title) == JString(title)
    ensures note != [] ==> MemberOf(r.body, Note) == JString(note)
    ensures |tags| > 0 ==> MemberOf(r.body, Tags) == Strings(tags)
    ensures collection.Some? ==> MemberOf(r.body, Collection) == Ref(collection.value)
  {
    E.AddressesRendered(E.RaindropById(id));
    var m := UpdateRaindropBody(title, note, tags, collection);
    var r := Request(Put, E.Render(E.RaindropById(id)), Some(JObject(m)));
    assert title != [] ==> MemberOf(r.body, Title) == m[Title];
    assert note != [] ==> MemberOf(r.body, Note) == m[Note];
    assert |tags| > 0 ==> MemberOf(r.body, Tags) == m[Tags];
    assert collection.Some? ==> MemberOf(r.body, Collection) == m[Collection];
    r
  }

  /** The UpdateRaindropRequest fields in declaration order. */
  function UpdateRaindropBody(title: Bytes, note: Bytes, tags: seq<Bytes>, collection: Option<int>): (m: map<Key, Json>)
    ensures m.Keys == When(title != [], Title) + When(note != [], Note) + When(|tags| > 0, Tags)
                      + When(collection.Some?, Collection)
    ensures title != [] ==> m[Title] == JString(title)
    ensures note != [] ==> m[Note] == JString(note)
    ensures |tags| > 0 ==> m[Tags] == Strings(tags)
    ensures collection.Some? ==> m[Collection] == Ref(collection.value)
  {
    var m1 := Field(map[], Link, GoString([]), OmitEmpty);
    var m2 := Field(m1, Title, GoString(title), OmitEmpty);
    assert m2.Keys == When(title != [], Title);
    var m3 := Field(m2, Excerpt, GoString([]), OmitEmpty);
    var m4 := Field(m3, Note, GoString(note), OmitEmpty);
    assert m4.Keys == When(title != [], Title) + When(note != [], Note);
    var m5 := Field(m4, Tags, GoStrings(tags), OmitEmpty);
    assert m5.Keys == When(title != [], Title) + When(note != [], Note) + When(|tags| > 0, Tags);
    var m6 := Field(m5, Important, GoBoolPointer(None), OmitEmpty);
    var m7 := Field(m6, Collection, GoRefPointer(collection), OmitEmpty);
    m7
  }

  function DeleteRaindrop(id: int): (r: Request)
    ensures r.verb == Delete && r.body == None && E.Addresses(r.endpoint, E.RaindropById(id))
  {
    E.AddressesRendered(E.RaindropById(id));
    Request(Delete, E.Render(E.RaindropById(id)), None)
  }

  // ---------------------------------------------------------------------------
  // Search

  const PAGE: Bytes := Text("page")
  const PERPAGE: Bytes := Text("perpage")
  const SEARCH: Bytes := Text("search")

  /** The parameters the search sets, in the ascending key order url.Values.Encode writes. */
  function SearchParams(query: Bytes, page: int, perPage: int): seq<Url.Param> {
    (if page > 0 then [(PAGE, Dec(page))] else [])
    + (if perPage > 0 then [(PERPAGE, Dec(perPage))] else [])
    + (if query != [] then [(SEARCH, query)] else [])
  }

  /** The search sets `page` iff page > 0, `perpage` iff perPage > 0 and `search` iff the
      query is non-empty, each once, and nothing else; Values.Get reads each back. */
  lemma SearchParamsMeaning(query: Bytes, page: int, perPage: int)
    ensures var ps := SearchParams(query, page, perPage);
      && |ps| == (if page > 0 then 1 else 0) + (if perPage > 0 then 1 else 0) + (if query != [] then 1 else 0)
      && (forall i | 0 <= i < |ps| :: ps[i].0 == PAGE || ps[i].0 == PERPAGE || ps[i].0 == SEARCH)
      && Url.Get(ps, SEARCH) == query
      && Url.Get(ps, PAGE) == (if page > 0 then Dec(page) else [])
      && Url.Get(ps, PERPAGE) == (if perPage > 0 then Dec(perPage) else [])
  {
    assert PAGE[1] != PERPAGE[1] && PAGE[0] != SEARCH[0] && PERPAGE[0] != SEARCH[0];
    var a: seq<Url.Param> := if page > 0 then [(PAGE, Dec(page))] else [];
    var b: seq<Url.Param> := if perPage > 0 then [(PERPAGE, Dec(perPage))] else [];
    var c: seq<Url.Param> := if query != [] then [(SEARCH, query)] else [];
    assert SearchParams(query, page, perPage) == a + (b + c);
    GetAppend(a, b + c, SEARCH);
    GetAppend(b, c, SEARCH);
    GetAppend(a, b + c, PERPAGE);
    if page <= 0 {
      GetAppend(b, c, PAGE);
    }
  }

  lemma {:induction false} GetAppend(a: seq<Url.Param>, b: seq<Url.Param>, key: Bytes)
    requires forall i | 0 <= i < |a| :: a[i].0 != key
    ensures Url.Get(a + b, key) == Url.Get(b, key)
    decreases |a|
  {
    if |a| == 0 {
      assert a + b == b;
    } else {
      assert (a + b)[1..] == a[1..] + b;
      GetAppend(a[1..], b, key);
    }
  }

  /** SearchRaindrops: GET /raindrops/{collection}, followed by '?' and the encoded
      parameters only when there are any; the server reads back exactly the parameters
      chosen by SearchParams. */
  function SearchRaindrops(query: Bytes, collectionId: int, page: int, perPage: int, tags: seq<Bytes>): (r: Request)
    ensures r.verb == Get && r.body == None
    ensures E.Addresses(r.endpoint, E.Raindrops(collectionId))
    ensures Url.HasQuery(r.endpoint) <==> (query != [] || page > 0 || perPage > 0)
    ensures Url.ParseQuery(Url.QueryPart(r.endpoint)) == SearchParams(query, page, perPage)
  {
    var path := E.Render(E.Raindrops(collectionId));
    var ps := SearchParams(query, page, perPage);
    SearchParamsMeaning(query, page, perPage);
    Url.ParseEncode(ps);
    if |ps| > 0 then
      WithQuery(E.Raindrops(collectionId), ps);
      Request(Get, path + [QUESTION] + Url.Encode(ps), None)
    else
      E.AddressesRendered(E.Raindrops(collectionId));
      E.RenderFree(E.Raindrops(collectionId));
      Url.TargetPlain(path);
      Request(Get, path, None)
  }

  lemma WithQuery(route: E.Route, ps: seq<Url.Param>)
    requires E.WellFormed(route)
    ensures var u := E.Render(route) + [QUESTION] + Url.Encode(ps);
      E.Addresses(u, route) && Url.HasQuery(u) && Url.QueryPart(u) == Url.Encode(ps)
  {
    Url.EncodeFree(ps, HASH);
    E.AddressesWithQuery(route, Url.Encode(ps));
    E.RenderFree(route);
    Url.TargetWithQuery(E.Render(route), Url.Encode(ps));
  }

  /** The `tags` argument of SearchRaindrops has no effect on the request. */
  lemma SearchIgnoresTags(query: Bytes, collectionId: int, page: int, perPage: int, tags: seq<Bytes>, other: seq<Bytes>)
    ensures SearchRaindrops(query, collectionId, page, perPage, tags) == SearchRaindrops(query, collectionId, page, perPage, other)
  {
  }

  // ---------------------------------------------------------------------------
  // Collection lists and tags

  function ListCollections(): (r: Request)
    ensures r.verb == Get && r.body == None && E.Addresses(r.endpoint, E.Collections)
  {
    E.AddressesRendered(E.Collections);
    Request(Get, E.Render(E.Collections), None)
  }

  function ListChildCollections(): (r: Request)
    ensures r.verb == Get && r.body == None && E.Addresses(r.endpoint, E.ChildCollections)
  {
    E.AddressesRendered(E.ChildCollections);
    Request(Get, E.Render(E.ChildCollections), None)
  }

  /** GetTags: /tags for collection 0, /tags/{id} for every other id, negative ones included. */
  function GetTags(collectionId: int): (r: Request)
    ensures r.verb == Get && r.body == None
    ensures collectionId == 0 ==> E.Addresses(r.endpoint, E.Tags)
    ensures collectionId != 0 ==> E.Addresses(r.endpoint, E.TagsIn(collectionId))
  {
    var route := if collectionId == 0 then E.Tags else E.TagsIn(collectionId);
    E.AddressesRendered(route);
    Request(Get, E.Render(route), None)
  }
}
