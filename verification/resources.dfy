/** The MCP resources (resources/resources.go): the collections, tags and user texts, and
    the bookmarks-in-a-collection template with its URI parsing. Each client call's result
    is a parameter; the requests a read makes are recorded in the order they are made. */
module Resources {
  import opened Wrappers
  import opened Bytes
  import opened Lines
  import opened Types
  import Url
  import Api
  import E = Endpoints
  import ExtendedApi

  /** A failed read: the client call's error, or a template URI that does not parse. */
  datatype ResourceError = CallFailed(cause: Api.ApiError) | InvalidUri

  /** A resource read: the requests it sent, in order, and its text or error. */
  datatype ResourceRead = ResourceRead(calls: seq<Api.Request>, result: Result<Bytes, ResourceError>)

  // ---------------------------------------------------------------------------
  // raindrop://collections

  const COLLECTIONS_HEADER: Bytes := Text("# Raindrop.io Collections") + [NEWLINE, NEWLINE]
  const INDENT: Bytes := Text("  ")
  const DASH: Bytes := Text("- ")

  /** One collection line: indented by two spaces exactly when the collection is nested,
      then "- title (ID: n, m bookmarks)". */
  function CollectionItem(c: Collection): (e: Bytes)
    ensures StartsWith(e, INDENT) <==> IsChild(c)
    ensures var rest := e[if IsChild(c) then |INDENT| else 0..];
      StartsWith(rest, DASH + c.title + Text(" (ID: ") + Dec(c.fullId))
    ensures var tail := Text(", ") + Dec(c.count) + Text(" bookmarks)") + [NEWLINE];
      |tail| <= |e| && e[|e| - |tail|..] == tail
    ensures e[|e| - 1] == NEWLINE
  {
    var indent := if IsChild(c) then INDENT else [];
    var lead := DASH + c.title + Text(" (ID: ") + Dec(c.fullId);
    var tail := Text(", ") + Dec(c.count) + Text(" bookmarks)") + [NEWLINE];
    var e := indent + lead + tail;
    ThreeParts(indent, lead, tail);
    assert e[|indent|] == DASH[0] != INDENT[0];
    e
  }

  /** Writes the header, then one line per collection, in order. */
  method CollectionsText(cs: seq<Collection>) returns (text: Bytes)
    ensures text == COLLECTIONS_HEADER + Each(cs, CollectionItem)
  {
    text := WriteEach(COLLECTIONS_HEADER, cs, CollectionItem);
  }

  /** raindrop://collections: the root collections are fetched first, and the child
      collections only when that succeeded; the text lists every root collection and then
      every child collection, in the server's order. */
  method ReadCollections(roots: Result<seq<Collection>, Api.ApiError>, children: Result<seq<Collection>, Api.ApiError>)
    returns (r: ResourceRead)
    ensures roots.Failure? ==> r == ResourceRead([Api.ListCollections()], Failure(CallFailed(roots.error)))
    ensures roots.Success? ==> r.calls == [Api.ListCollections(), Api.ListChildCollections()]
    ensures roots.Success? && children.Failure? ==> r.result == Failure(CallFailed(children.error))
    ensures roots.Success? && children.Success? ==>
      r.result == Success(COLLECTIONS_HEADER + Each(roots.value, CollectionItem) + Each(children.value, CollectionItem))
  {
    if roots.Failure? {
      return ResourceRead([Api.ListCollections()], Failure(CallFailed(roots.error)));
    }
    var calls := [Api.ListCollections(), Api.ListChildCollections()];
    if children.Failure? {
      return ResourceRead(calls, Failure(CallFailed(children.error)));
    }
    var text := CollectionsText(roots.value + children.value);
    EachAppendAfter(COLLECTIONS_HEADER, roots.value, children.value, CollectionItem);
    return ResourceRead(calls, Success(text));
  }

  // ---------------------------------------------------------------------------
  // raindrop://tags

  const TAGS_HEADER: Bytes := Text("# Raindrop.io Tags") + [NEWLINE, NEWLINE]

  /** One tag line, "- name (n bookmarks)". */
  function TagItem(t: Tag): (e: Bytes)
    ensures StartsWith(e, DASH + t.name + Text(" (") + Dec(t.count))
    ensures e[|e| - 1] == NEWLINE
  {
    var lead := DASH + t.name + Text(" (") + Dec(t.count);
    var e := lead + Text(" bookmarks)") + [NEWLINE];
    assert e[..|lead|] == lead;
    e
  }

  method TagsText(tags: seq<Tag>) returns (text: Bytes)
    ensures text == TAGS_HEADER + Each(tags, TagItem)
  {
    text := WriteEach(TAGS_HEADER, tags, TagItem);
  }

  /** raindrop://tags: the tags of every collection (GetTags with collection 0), one line
      per tag in the server's order. */
  method ReadTags(fetched: Result<seq<Tag>, Api.ApiError>) returns (r: ResourceRead)
    ensures r.calls == [Api.GetTags(0)]
    ensures fetched.Failure? ==> r.result == Failure(CallFailed(fetched.error))
    ensures fetched.Success? ==> r.result == Success(TAGS_HEADER + Each(fetched.value, TagItem))
    ensures E.Addresses(r.calls[0].endpoint, E.Tags)
  {
    if fetched.Failure? {
      return ResourceRead([Api.GetTags(0)], Failure(CallFailed(fetched.error)));
    }
    var text := TagsText(fetched.value);
    return ResourceRead([Api.GetTags(0)], Success(text));
  }

  // ---------------------------------------------------------------------------
  // raindrop://user

  const USER_HEADER: Bytes := Text("# Raindrop.io User") + [NEWLINE, NEWLINE]
  const ACCOUNT_PRO: Bytes := Text("Account: Pro")
  const ACCOUNT_FREE: Bytes := Text("Account: Free")

  datatype UserLine = NameLine | EmailLine | AccountLine

  /** The user's name, e-mail address and account kind, one line each: "Account: Pro"
      exactly for a Pro user and "Account: Free" otherwise. */
  function UserLines(u: User): (lines: seq<Line<UserLine>>)
    ensures |lines| == 3
    ensures Lookup(lines, NameLine) == Some(Text("Name: ") + u.fullName)
    ensures Lookup(lines, EmailLine) == Some(Text("Email: ") + u.email)
    ensures Lookup(lines, AccountLine) == Some(ACCOUNT_PRO) <==> u.pro
    ensures Lookup(lines, AccountLine) == Some(ACCOUNT_FREE) <==> !u.pro
  {
    var lines := [Line(NameLine, Text("Name: ") + u.fullName), Line(EmailLine, Text("Email: ") + u.email),
                  Line(AccountLine, if u.pro then ACCOUNT_PRO else ACCOUNT_FREE)];
    assert lines[1..][1..][1..] == [];
    assert Lookup(lines[1..][1..], AccountLine) == Some(lines[2].text);
    assert Lookup(lines, AccountLine) == Lookup(lines[1..][1..], AccountLine);
    assert |ACCOUNT_PRO| != |ACCOUNT_FREE|;
    lines
  }

  /** raindrop://user: the header, then the user's lines. */
  function ReadUser(fetched: Result<User, Api.ApiError>): (r: ResourceRead)
    ensures r.calls == [ExtendedApi.GetUser()]
    ensures fetched.Failure? ==> r.result == Failure(CallFailed(fetched.error))
    ensures fetched.Success? ==> r.result == Success(USER_HEADER + Show(UserLines(fetched.value)))
  {
    match fetched
    case Failure(e) => ResourceRead([ExtendedApi.GetUser()], Failure(CallFailed(e)))
    case Success(u) => ResourceRead([ExtendedApi.GetUser()], Success(USER_HEADER + Show(UserLines(u))))
  }

  // ---------------------------------------------------------------------------
  // raindrop://collection/{id}/bookmarks: fmt.Sscanf with "raindrop://collection/%d/bookmarks"

  const URI_PREFIX: Bytes := Text("raindrop://collection/")
  const URI_SUFFIX: Bytes := Text("/bookmarks")
  const UNDERSCORE: byte := 95

  /** Go's int is 64 bits wide; %d rejects a number outside its range. */
  const INT_MIN: int := -0x8000_0000_0000_0000
  const INT_MAX: int := 0x7fff_ffff_ffff_ffff

  /** The ASCII blanks %d skips before the number: tab, vertical tab, form feed, carriage
      return and space (a newline is not skipped and so ends the scan). */
  predicate IsBlank(b: byte) {
    b == 9 || b == 11 || b == 12 || b == 13 || b == SPACE
  }

  /** The number of leading blanks. */
  function BlankRun(s: Bytes): (n: nat)
    ensures n <= |s|
    ensures forall i | 0 <= i < n :: IsBlank(s[i])
    ensures n < |s| ==> !IsBlank(s[n])
  {
    if |s| > 0 && IsBlank(s[0]) then 1 + BlankRun(s[1..]) else 0
  }

  /** The number of leading bytes taken as the number's digits: decimal digits, and also
      underscores, which %d does not accept; taking them here only makes ParseInt refuse the
      token, and Go refuses the same input because the literal '/' does not match. */
  function DigitRun(s: Bytes): (n: nat)
    ensures n <= |s|
    ensures forall i | 0 <= i < n :: IsDigit(s[i]) || s[i] == UNDERSCORE
    ensures n < |s| ==> !IsDigit(s[n]) && s[n] != UNDERSCORE
  {
    if |s| > 0 && (IsDigit(s[0]) || s[0] == UNDERSCORE) then 1 + DigitRun(s[1..]) else 0
  }

  /** The length of the token %d reads from s (after the blanks): an optional sign and the
      digit run. */
  function TokenLength(s: Bytes): (n: nat)
    ensures n <= |s|
  {
    var sign := if |s| > 0 && (s[0] == PLUS || s[0] == MINUS) then 1 else 0;
    sign + DigitRun(s[sign..])
  }

  /** The collection id in a template URI: the literal prefix, then %d (blanks, an optional
      sign, at least one digit, no underscore, within Go's int range), then the literal
      "/bookmarks"; anything after that is ignored. */
  function ScanCollectionUri(uri: Bytes): (r: Option<int>)
    ensures r.Some? ==> StartsWith(uri, URI_PREFIX) && INT_MIN <= r.value <= INT_MAX
  {
    if !StartsWith(uri, URI_PREFIX) then None
    else
      var rest := uri[|URI_PREFIX|..];
      var number := rest[BlankRun(rest)..];
      var n := TokenLength(number);
      match ParseInt(number[..n])
      case None => None
      case Some(v) =>
        if v < INT_MIN || v > INT_MAX then None
        else if StartsWith(number[n..], URI_SUFFIX) then Some(v)
        else None
  }

  /** Reading a URI built from an id in Go's int range gives the id back, whatever
      follows the suffix. */
  lemma {:induction false} ScanRoundTrip(id: int, tail: Bytes)
    requires INT_MIN <= id <= INT_MAX
    ensures ScanCollectionUri(URI_PREFIX + Dec(id) + URI_SUFFIX + tail) == Some(id)
  {
    var uri := URI_PREFIX + Dec(id) + URI_SUFFIX + tail;
    ScanDec(uri, id, tail);
  }

  /** An id outside Go's int range is refused, even in a URI of the right shape. */
  lemma {:induction false} ScanRejectsOverflow(id: int, tail: Bytes)
    requires id < INT_MIN || id > INT_MAX
    ensures ScanCollectionUri(URI_PREFIX + Dec(id) + URI_SUFFIX + tail) == None
  {
    var uri := URI_PREFIX + Dec(id) + URI_SUFFIX + tail;
    ScanDec(uri, id, tail);
  }

  /** How the scan reads a URI made of the prefix, a printed id and the suffix. */
  lemma {:induction false} ScanDec(uri: Bytes, id: int, tail: Bytes)
    requires uri == URI_PREFIX + Dec(id) + URI_SUFFIX + tail
    ensures StartsWith(uri, URI_PREFIX)
    ensures var rest := uri[|URI_PREFIX|..];
      && BlankRun(rest) == 0
      && TokenLength(rest) == |Dec(id)|
      && rest[..|Dec(id)|] == Dec(id)
      && StartsWith(rest[|Dec(id)|..], URI_SUFFIX)
    ensures ScanCollectionUri(uri) == if INT_MIN <= id <= INT_MAX then Some(id) else None
  {
    var d := Dec(id);
    var rest := uri[|URI_PREFIX|..];
    assert uri[..|URI_PREFIX|] == URI_PREFIX;
    assert rest == d + (URI_SUFFIX + tail);
    assert rest[..|d|] == d;
    assert rest[|d|..] == URI_SUFFIX + tail;
    assert rest[|d|..][..|URI_SUFFIX|] == URI_SUFFIX;
    DecToken(id, URI_SUFFIX + tail);
    DecRoundTrip(id);
  }

  /** A printed id followed by '/' is one token with no blanks before it. */
  lemma {:induction false} DecToken(id: int, after: Bytes)
    requires |after| > 0 && after[0] == SLASH
    ensures BlankRun(Dec(id) + after) == 0
    ensures TokenLength(Dec(id) + after) == |Dec(id)|
  {
    var d := Dec(id);
    var s := d + after;
    assert s[0] == d[0];
    assert !IsBlank(s[0]) by { assert IsDigit(d[0]) || d[0] == MINUS; }
    var sign := if id < 0 then 1 else 0;
    assert sign == 1 <==> (s[0] == PLUS || s[0] == MINUS) by {
      if id >= 0 { assert IsDigit(d[0]); }
    }
    assert s[sign..][|d| - sign] == SLASH;
    DigitsThenSlash(s[sign..], |d| - sign);
  }

  /** A printed id must be followed by the literal "/bookmarks": the same id followed by
      any other path is refused. */
  lemma {:induction false} ScanNeedsSuffix(id: int, t: Bytes)
    requires |t| > 0 && t[0] == SLASH && !StartsWith(t, URI_SUFFIX)
    ensures ScanCollectionUri(URI_PREFIX + Dec(id) + t) == None
  {
    var uri := URI_PREFIX + Dec(id) + t;
    var d := Dec(id);
    var rest := uri[|URI_PREFIX|..];
    assert uri[..|URI_PREFIX|] == URI_PREFIX;
    assert rest == d + t;
    DecToken(id, t);
    assert rest[|d|..] == t;
  }

  /** Without a number right after the prefix (past any blanks) nothing is read: a byte
      that is neither a blank, a sign nor a digit gives no integer. A leading '_' is taken
      into the token, which then does not parse. */
  lemma {:induction false} ScanNeedsNumber(b: byte, rest: Bytes)
    requires !IsBlank(b) && b != PLUS && b != MINUS && !IsDigit(b)
    ensures ScanCollectionUri(URI_PREFIX + [b] + rest) == None
  {
    var uri := URI_PREFIX + [b] + rest;
    assert uri[..|URI_PREFIX|] == URI_PREFIX;
    var tail := uri[|URI_PREFIX|..];
    assert tail == [b] + rest;
    assert BlankRun(tail) == 0;
    if b == UNDERSCORE {
      var n := TokenLength(tail);
      assert n > 0 && tail[..n][0] == UNDERSCORE;
      assert !AllDigits(tail[..n]);
    } else {
      assert DigitRun(tail) == 0;
      assert TokenLength(tail) == 0;
    }
  }

  /** A newline after the prefix is refused, as Sscanf's "unexpected newline". */
  lemma ScanRefusesNewline(rest: Bytes)
    ensures ScanCollectionUri(URI_PREFIX + [NEWLINE] + rest) == None
  {
    ScanNeedsNumber(NEWLINE, rest);
  }

  /** A run of digits followed by '/' is taken whole. */
  lemma {:induction false} DigitsThenSlash(s: Bytes, k: nat)
    requires k < |s| && s[k] == SLASH
    requires forall i | 0 <= i < k :: IsDigit(s[i])
    ensures DigitRun(s) == k
    decreases k
  {
    if k > 0 {
      DigitsThenSlash(s[1..], k - 1);
    }
  }

  /** Blanks between the prefix and the number do not change the id read. */
  lemma {:induction false} ScanSkipsBlank(b: byte, rest: Bytes)
    requires IsBlank(b)
    ensures ScanCollectionUri(URI_PREFIX + [b] + rest) == ScanCollectionUri(URI_PREFIX + rest)
  {
    var u1 := URI_PREFIX + [b] + rest;
    var u2 := URI_PREFIX + rest;
    assert u1[..|URI_PREFIX|] == URI_PREFIX && u2[..|URI_PREFIX|] == URI_PREFIX;
    assert u1[|URI_PREFIX|..] == [b] + rest && u2[|URI_PREFIX|..] == rest;
    assert ([b] + rest)[1..] == rest;
    var r1 := ([b] + rest)[BlankRun([b] + rest)..];
    assert r1 == rest[BlankRun(rest)..];
  }

  // The bookmarks text.

  const BOOKMARKS_PER_PAGE: int := 25
  const BOLD: Bytes := Text("**")
  const COMMA_SPACE: Bytes := Text(", ")
  const TAGS_LABEL: Bytes := Text("  Tags: ")

  /** The request the template sends: a search of the collection with no query, page 0
      and 25 per page, so the query string is exactly perpage=25. */
  function BookmarksRequest(id: int): (r: Api.Request)
    ensures r.verb == Api.Get && r.body == None
    ensures E.Addresses(r.endpoint, E.Raindrops(id))
    ensures Url.HasQuery(r.endpoint)
    ensures Url.ParseQuery(Url.QueryPart(r.endpoint)) == [(Api.PERPAGE, Text("25"))]
  {
    assert Dec(BOOKMARKS_PER_PAGE) == Text("25") by {
      assert NatDigits(2) == [DigitByte(2)];
    }
    assert Api.SearchParams([], 0, BOOKMARKS_PER_PAGE) == [(Api.PERPAGE, Dec(BOOKMARKS_PER_PAGE))];
    Api.SearchRaindrops([], id, 0, BOOKMARKS_PER_PAGE, [])
  }

  function BookmarksHeader(id: int, count: int): Bytes {
    Text("# Bookmarks in Collection ") + Dec(id) + [NEWLINE, NEWLINE]
    + Text("Total: ") + Dec(count) + Text(" bookmarks") + [NEWLINE, NEWLINE]
  }

  datatype BookmarkLine = BookmarkTitle | BookmarkUrl | BookmarkTags | BookmarkGap

  /** One bookmark: its bold title, its URL, its tags joined by ", " only when it has any,
      then a blank line. */
  function BookmarkLines(r: Raindrop): (lines: seq<Line<BookmarkLine>>)
    ensures |lines| == if |r.tags| > 0 then 4 else 3
    ensures lines[0] == Line(BookmarkTitle, DASH + BOLD + r.title + BOLD)
    ensures lines[1] == Line(BookmarkUrl, Text("  URL: ") + r.link)
    ensures Lookup(lines, BookmarkTags) == if |r.tags| > 0 then Some(TAGS_LABEL + Join(r.tags, COMMA_SPACE)) else None
    ensures lines[|lines| - 1] == Line(BookmarkGap, [])
  {
    var head := [Line(BookmarkTitle, DASH + BOLD + r.title + BOLD), Line(BookmarkUrl, Text("  URL: ") + r.link)];
    var tags := If(|r.tags| > 0, BookmarkTags, TAGS_LABEL + Join(r.tags, COMMA_SPACE));
    var gap := [Line(BookmarkGap, [])];
    LookupAppend(head + tags, gap, BookmarkTags);
    LookupAppend(head, tags, BookmarkTags);
    LookupIf(|r.tags| > 0, BookmarkTags, TAGS_LABEL + Join(r.tags, COMMA_SPACE), BookmarkTags);
    assert head[1..][1..] == [] && gap[1..] == [];
    head + tags + gap
  }

  function BookmarkEntry(r: Raindrop): Bytes {
    Show(BookmarkLines(r))
  }

  method BookmarksText(id: int, resp: RaindropsResponse) returns (text: Bytes)
    ensures text == BookmarksHeader(id, resp.count) + Each(resp.items, BookmarkEntry)
  {
    text := WriteEach(BookmarksHeader(id, resp.count), resp.items, BookmarkEntry);
  }

  /** raindrop://collection/{id}/bookmarks: a URI that does not scan is an error before any
      request; otherwise one search of that collection, and its text names the id read from
      the URI, the server's total, and one entry per bookmark returned. */
  method ReadBookmarks(uri: Bytes, fetched: Result<RaindropsResponse, Api.ApiError>) returns (r: ResourceRead)
    ensures ScanCollectionUri(uri).None? ==> r == ResourceRead([], Failure(InvalidUri))
    ensures ScanCollectionUri(uri).Some? ==> r.calls == [BookmarksRequest(ScanCollectionUri(uri).value)]
    ensures ScanCollectionUri(uri).Some? && fetched.Failure? ==> r.result == Failure(CallFailed(fetched.error))
    ensures ScanCollectionUri(uri).Some? && fetched.Success? ==>
      r.result == Success(BookmarksHeader(ScanCollectionUri(uri).value, fetched.value.count)
        + Each(fetched.value.items, BookmarkEntry))
  {
    var id := ScanCollectionUri(uri);
    if id.None? {
      return ResourceRead([], Failure(InvalidUri));
    }
    var call := BookmarksRequest(id.value);
    if fetched.Failure? {
      return ResourceRead([call], Failure(CallFailed(fetched.error)));
    }
    var text := BookmarksText(id.value, fetched.value);
    return ResourceRead([call], Success(text));
  }
}
