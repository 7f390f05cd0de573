/** The bookmark tools' text output and argument mapping (tools/tools.go). Every formatter
    writes into a strings.Builder; the list formatters are written here as the same loops,
    each proved equal to a closed form built from one entry per item. */
module Tools {
  import opened Wrappers
  import opened Bytes
  import opened Lines
  import opened Types
  import Body
  import Api

  const COMMA_SPACE: Bytes := Text(", ")
  const BOLD: Bytes := Text("**")

  // ---------------------------------------------------------------------------
  // formatRaindrop

  /** The lines formatRaindrop can print. */
  datatype RaindropLine = TitleLine | IdLine | UrlLine | TagsLine | ExcerptLine | NoteLine | CreatedLine

  const ID_LABEL: Bytes := Text("ID: ")
  const URL_LABEL: Bytes := Text("URL: ")
  const TAGS_LABEL: Bytes := Text("Tags: ")
  const EXCERPT_LABEL: Bytes := Text("Excerpt: ")
  const NOTE_LABEL: Bytes := Text("Note: ")
  const CREATED_LABEL: Bytes := Text("Created: ")

  /** formatRaindrop's lines: title, ID, URL and creation time always; tags, excerpt and
      note only when there is something to show; the title first and the creation time last. */
  function RaindropLines(r: Raindrop): (lines: seq<Line<RaindropLine>>)
    ensures |lines| == 4 + (if |r.tags| > 0 then 1 else 0) + (if r.excerpt != [] then 1 else 0) + (if r.note != [] then 1 else 0)
    ensures lines[0] == Line(TitleLine, BOLD + r.title + BOLD)
    ensures lines[|lines| - 1] == Line(CreatedLine, CREATED_LABEL + r.created)
    ensures Lookup(lines, IdLine) == Some(ID_LABEL + Dec(r.id))
    ensures Lookup(lines, UrlLine) == Some(URL_LABEL + r.link)
    ensures Lookup(lines, TagsLine) == if |r.tags| > 0 then Some(TAGS_LABEL + Join(r.tags, COMMA_SPACE)) else None
    ensures Lookup(lines, ExcerptLine) == if r.excerpt != [] then Some(EXCERPT_LABEL + r.excerpt) else None
    ensures Lookup(lines, NoteLine) == if r.note != [] then Some(NOTE_LABEL + r.note) else None
    ensures Lookup(lines, CreatedLine) == Some(CREATED_LABEL + r.created)
  {
    var head := [Line(TitleLine, BOLD + r.title + BOLD), Line(IdLine, ID_LABEL + Dec(r.id)), Line(UrlLine, URL_LABEL + r.link)];
    var tags := If(|r.tags| > 0, TagsLine, TAGS_LABEL + Join(r.tags, COMMA_SPACE));
    var excerpt := If(r.excerpt != [], ExcerptLine, EXCERPT_LABEL + r.excerpt);
    var note := If(r.note != [], NoteLine, NOTE_LABEL + r.note);
    var created := [Line(CreatedLine, CREATED_LABEL + r.created)];
    var lines := head + tags + excerpt + note + created;
    assert |lines| == 3 + |tags| + |excerpt| + |note| + 1;
    assert lines[0] == head[0] && lines[|lines| - 1] == created[0];
    forall k: RaindropLine
      ensures Lookup(lines, k) ==
        if Lookup(head, k).Some? then Lookup(head, k)
        else if Lookup(tags, k).Some? then Lookup(tags, k)
        else if Lookup(excerpt, k).Some? then Lookup(excerpt, k)
        else if Lookup(note, k).Some? then Lookup(note, k)
        else Lookup(created, k)
    {
      LookupFive(head, tags, excerpt, note, created, k);
    }
    assert created[1..] == [];
    forall k: RaindropLine ensures Lookup(head, k) ==
      if k == TitleLine then Some(head[0].text) else if k == IdLine then Some(head[1].text)
      else if k == UrlLine then Some(head[2].text) else None
    {
      LookupThree(head[0], head[1], head[2], k);
    }
    LookupIf(|r.tags| > 0, TagsLine, TAGS_LABEL + Join(r.tags, COMMA_SPACE), TagsLine);
    LookupIf(r.excerpt != [], ExcerptLine, EXCERPT_LABEL + r.excerpt, ExcerptLine);
    LookupIf(r.note != [], NoteLine, NOTE_LABEL + r.note, NoteLine);
    forall k: RaindropLine | k != TagsLine ensures Lookup(tags, k) == None {
      LookupIf(|r.tags| > 0, TagsLine, TAGS_LABEL + Join(r.tags, COMMA_SPACE), k);
    }
    forall k: RaindropLine | k != ExcerptLine ensures Lookup(excerpt, k) == None {
      LookupIf(r.excerpt != [], ExcerptLine, EXCERPT_LABEL + r.excerpt, k);
    }
    forall k: RaindropLine | k != NoteLine ensures Lookup(note, k) == None {
      LookupIf(r.note != [], NoteLine, NOTE_LABEL + r.note, k);
    }
    lines
  }

  /** formatRaindrop: the lines above, each ended by a newline. */
  function FormatRaindrop(r: Raindrop): Bytes {
    Show(RaindropLines(r))
  }

  // ---------------------------------------------------------------------------
  // formatRaindrops

  const NO_BOOKMARKS: Bytes := Text("No bookmarks found.")
  const FOUND: Bytes := Text("Found ")
  const BOOKMARKS_TAIL: Bytes := Text(" bookmarks:")

  /** The lines of one search result. */
  datatype ResultLine = Heading | Locator | ResultTags | Gap

  const LOCATOR_ID: Bytes := Text("   ID: ")
  const LOCATOR_URL: Bytes := Text(" | URL: ")
  const RESULT_TAGS: Bytes := Text("   Tags: ")

  /** The entry for the n-th search result: number and title, ID and URL, the tags only
      when there are any, then a blank line. */
  function ResultLines(n: nat, r: Raindrop): (lines: seq<Line<ResultLine>>)
    ensures |lines| == if |r.tags| > 0 then 4 else 3
    ensures lines[0] == Line(Heading, Dec(n) + Text(". ") + BOLD + r.title + BOLD)
    ensures lines[1] == Line(Locator, LOCATOR_ID + Dec(r.id) + LOCATOR_URL + r.link)
    ensures Lookup(lines, ResultTags) == if |r.tags| > 0 then Some(RESULT_TAGS + Join(r.tags, COMMA_SPACE)) else None
    ensures lines[|lines| - 1] == Line(Gap, [])
  {
    var head := [Line(Heading, Dec(n) + Text(". ") + BOLD + r.title + BOLD), Line(Locator, LOCATOR_ID + Dec(r.id) + LOCATOR_URL + r.link)];
    var tags := If(|r.tags| > 0, ResultTags, RESULT_TAGS + Join(r.tags, COMMA_SPACE));
    var gap := [Line(Gap, [])];
    LookupAppend(head + tags, gap, ResultTags);
    LookupAppend(head, tags, ResultTags);
    LookupIf(|r.tags| > 0, ResultTags, RESULT_TAGS + Join(r.tags, COMMA_SPACE), ResultTags);
    assert head[1..][1..] == [] && gap[1..] == [];
    head + tags + gap
  }

  function ResultEntry(n: nat, r: Raindrop): Bytes {
    Show(ResultLines(n, r))
  }

  /** The header of a non-empty result page: the server's total, not the page length. */
  function ResultsHeader(count: int): Bytes {
    FOUND + Dec(count) + BOOKMARKS_TAIL + [NEWLINE, NEWLINE]
  }

  /** formatRaindrops: a fixed message for an empty page; otherwise the header and one
      numbered entry per result, in the order the server gave. */
  method FormatRaindrops(resp: RaindropsResponse) returns (text: Bytes)
    ensures |resp.items| == 0 ==> text == NO_BOOKMARKS
    ensures |resp.items| > 0 ==> text == ResultsHeader(resp.count) + Numbered(resp.items, ResultEntry)
  {
    if |resp.items| == 0 {
      return NO_BOOKMARKS;
    }
    text := WriteNumbered(ResultsHeader(resp.count), resp.items, ResultEntry);
  }

  /** The number in the header reads back as the server's total. */
  lemma ResultsHeaderCount(count: int)
    ensures StartsWith(ResultsHeader(count), FOUND)
    ensures ParseInt(ResultsHeader(count)[|FOUND|..|FOUND| + |Dec(count)|]) == Some(count)
  {
    var h := ResultsHeader(count);
    assert h[..|FOUND|] == FOUND;
    assert h[|FOUND|..|FOUND| + |Dec(count)|] == Dec(count);
    DecRoundTrip(count);
  }

  // ---------------------------------------------------------------------------
  // formatCollections

  const NO_COLLECTIONS: Bytes := Text("No collections found.")
  const COLLECTIONS_TAIL: Bytes := Text(" collections:")
  /** "  └─ ", with the box-drawing characters in UTF-8. */
  const BRANCH: Bytes := [SPACE, SPACE, 0xE2, 0x94, 0x94, 0xE2, 0x94, 0x80, SPACE]
  const ID_OPEN: Bytes := Text(" (ID: ")
  const CLOSE: Bytes := Text(")")
  const BOOKMARKS_SUFFIX: Bytes := Text(" bookmarks")

  /** One collection in the list: title and ID, then its bookmark count and a blank line,
      both lines prefixed by the branch mark exactly when the collection is nested. */
  function CollectionEntry(c: Collection): (e: Bytes)
    ensures StartsWith(e, BRANCH) <==> IsChild(c)
  {
    var indent := if IsChild(c) then BRANCH else [];
    var e := indent + BOLD + c.title + BOLD + ID_OPEN + Dec(c.fullId) + CLOSE + [NEWLINE]
      + indent + Text("   ") + Dec(c.count) + BOOKMARKS_SUFFIX + [NEWLINE, NEWLINE];
    assert !IsChild(c) ==> e[0] == BOLD[0];
    assert IsChild(c) ==> e[..|BRANCH|] == BRANCH;
    e
  }

  function CollectionsHeader(n: nat): Bytes {
    FOUND + Dec(n) + COLLECTIONS_TAIL + [NEWLINE, NEWLINE]
  }

  /** formatCollections: a fixed message for no collections; otherwise the header with the
      number of collections and one entry per collection, in order. */
  method FormatCollections(cs: seq<Collection>) returns (text: Bytes)
    ensures |cs| == 0 ==> text == NO_COLLECTIONS
    ensures |cs| > 0 ==> text == CollectionsHeader(|cs|) + Each(cs, CollectionEntry)
  {
    if |cs| == 0 {
      return NO_COLLECTIONS;
    }
    text := WriteEach(CollectionsHeader(|cs|), cs, CollectionEntry);
  }

  /** A tool failure: the API call's error, wrapped with the tool's message. */
  datatype ToolError = CallFailed(cause: Api.ApiError)

  /** list-collections: the root collections are fetched first and the child collections
      second; either failure is the tool's failure. */
  method ListCollectionsTool(roots: Result<seq<Collection>, Api.ApiError>, children: Result<seq<Collection>, Api.ApiError>)
    returns (r: Result<Bytes, ToolError>)
    ensures roots.Failure? ==> r == Failure(CallFailed(roots.error))
    ensures roots.Success? && children.Failure? ==> r == Failure(CallFailed(children.error))
    ensures roots.Success? && children.Success? && |roots.value + children.value| == 0 ==>
      r == Success(NO_COLLECTIONS)
    ensures roots.Success? && children.Success? && |roots.value + children.value| > 0 ==>
      r == Success(CollectionsHeader(|roots.value + children.value|)
        + Each(roots.value + children.value, CollectionEntry))
  {
    if roots.Failure? {
      return Failure(CallFailed(roots.error));
    }
    if children.Failure? {
      return Failure(CallFailed(children.error));
    }
    var text := FormatCollections(roots.value + children.value);
    return Success(text);
  }

  /** In the list-collections text every root collection's line comes before every child
      collection's line, under one header counting both. */
  lemma RootsBeforeChildren(rs: seq<Collection>, ks: seq<Collection>)
    ensures |rs + ks| == |rs| + |ks|
    ensures CollectionsHeader(|rs + ks|) + Each(rs + ks, CollectionEntry)
      == CollectionsHeader(|rs| + |ks|) + Each(rs, CollectionEntry) + Each(ks, CollectionEntry)
  {
    EachAppendAfter(CollectionsHeader(|rs| + |ks|), rs, ks, CollectionEntry);
  }

  // ---------------------------------------------------------------------------
  // formatTags

  const NO_TAGS: Bytes := Text("No tags found.")
  const TAGS_TAIL: Bytes := Text(" tags:")

  /** One tag line: "- **name** (count)". */
  function TagEntry(t: Tag): Bytes {
    Text("- ") + BOLD + t.name + BOLD + Text(" (") + Dec(t.count) + CLOSE + [NEWLINE]
  }

  function TagsHeader(n: nat): Bytes {
    FOUND + Dec(n) + TAGS_TAIL + [NEWLINE, NEWLINE]
  }

  /** formatTags: a fixed message for no tags; otherwise the header and one line per tag,
      in the order given. */
  method FormatTags(tags: seq<Tag>) returns (text: Bytes)
    ensures |tags| == 0 ==> text == NO_TAGS
    ensures |tags| > 0 ==> text == TagsHeader(|tags|) + Each(tags, TagEntry)
  {
    if |tags| == 0 {
      return NO_TAGS;
    }
    text := WriteEach(TagsHeader(|tags|), tags, TagEntry);
  }

  // ---------------------------------------------------------------------------
  // update-bookmark

  /** update-bookmark: a collection of 0 means "do not move", so no collection pointer is
      passed and the request body has no collection member. */
  function UpdateBookmark(id: int, title: Bytes, note: Bytes, tags: seq<Bytes>, collection: int): (r: Api.Request)
    ensures collection == 0 ==> Body.ObjectWith(r.body,
      Body.When(title != [], Body.Title) + Body.When(note != [], Body.Note) + Body.When(|tags| > 0, Body.Tags))
    ensures collection != 0 ==> Body.MemberOf(r.body, Body.Collection) == Body.Ref(collection)
    ensures r.verb == Api.Put && Api.E.Addresses(r.endpoint, Api.E.RaindropById(id))
  {
    Api.UpdateRaindrop(id, title, note, tags, if collection != 0 then Some(collection) else None)
  }
}
