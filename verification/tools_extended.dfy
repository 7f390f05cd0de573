/** The collection, tag, highlight and suggestion tools' text output and argument mapping
    (tools/extended.go). */
module ExtendedTools {
  import opened Wrappers
  import opened Bytes
  import opened Lines
  import opened Types
  import Body
  import Url
  import Api
  import ExtendedApi
  import CollectionsApi

  const ELLIPSIS: Bytes := Text("...")

  // ---------------------------------------------------------------------------
  // truncate

  /** truncate: strings of at most n bytes are kept; longer ones are cut to n - 3 bytes and
      given "...". Go panics on a cut below zero, so a string longer than n needs n >= 3. */
  function Truncate(s: Bytes, n: int): (r: Bytes)
    requires |s| <= n || n >= 3
    ensures r == s <==> |s| <= n
    ensures |r| <= n
    ensures |s| > n ==> |r| == n && r[..n - 3] == s[..n - 3] && r[n - 3..] == ELLIPSIS
  {
    if |s| <= n then s else s[..n - 3] + ELLIPSIS
  }

  /** Truncating twice is truncating once. */
  lemma TruncateIdempotent(s: Bytes, n: int)
    requires |s| <= n || n >= 3
    ensures Truncate(Truncate(s, n), n) == Truncate(s, n)
  {
  }

  /** A cut string shows nothing of the original past its first n - 3 bytes: two long
      strings that agree there truncate to the same text. */
  lemma TruncateShowsOnlyPrefix(s: Bytes, s': Bytes, n: int)
    requires |s| > n >= 3 && |s'| > n
    requires s[..n - 3] == s'[..n - 3]
    ensures Truncate(s, n) == Truncate(s', n)
  {
  }

  // ---------------------------------------------------------------------------
  // formatCollection

  datatype CollectionLine = HeadingLine | CountLine | PublicLine | ParentLine

  const BOLD: Bytes := Text("**")
  const PUBLIC_YES: Bytes := Text("Public: Yes")
  const PARENT_LABEL: Bytes := Text("Parent: ")

  /** formatCollection's lines: title and ID, bookmark count, then "Public: Yes" only for a
      public collection and the parent only for a nested one. */
  function CollectionLines(c: Collection): (lines: seq<Line<CollectionLine>>)
    ensures |lines| == 2 + (if c.isPublic then 1 else 0) + (if IsChild(c) then 1 else 0)
    ensures lines[0] == Line(HeadingLine, BOLD + c.title + BOLD + Text(" (ID: ") + Dec(c.fullId) + Text(")"))
    ensures lines[1] == Line(CountLine, Text("Bookmarks: ") + Dec(c.count))
    ensures Lookup(lines, PublicLine) == if c.isPublic then Some(PUBLIC_YES) else None
    ensures Lookup(lines, ParentLine) == if IsChild(c) then Some(PARENT_LABEL + Dec(c.parent.value)) else None
  {
    var head := [Line(HeadingLine, BOLD + c.title + BOLD + Text(" (ID: ") + Dec(c.fullId) + Text(")")),
                 Line(CountLine, Text("Bookmarks: ") + Dec(c.count))];
    var pub := If(c.isPublic, PublicLine, PUBLIC_YES);
    var parent := If(IsChild(c), ParentLine, PARENT_LABEL + (if c.parent.Some? then Dec(c.parent.value) else []));
    assert head[1..][1..] == [];
    LookupAppend(head + pub, parent, PublicLine);
    LookupAppend(head + pub, parent, ParentLine);
    LookupAppend(head, pub, PublicLine);
    LookupAppend(head, pub, ParentLine);
    LookupIf(c.isPublic, PublicLine, PUBLIC_YES, PublicLine);
    LookupIf(c.isPublic, PublicLine, PUBLIC_YES, ParentLine);
    LookupIf(IsChild(c), ParentLine, PARENT_LABEL + (if c.parent.Some? then Dec(c.parent.value) else []), ParentLine);
    head + pub + parent
  }

  function FormatCollection(c: Collection): Bytes {
    Show(CollectionLines(c))
  }

  // ---------------------------------------------------------------------------
  // formatHighlights

  const NO_HIGHLIGHTS: Bytes := Text("No highlights found.")
  const HIGHLIGHT_WIDTH: int := 100

  datatype HighlightLine = Quote | HighlightNote | HighlightId | Gap

  const NOTE_LABEL: Bytes := Text("   Note: ")
  const ID_LABEL: Bytes := Text("   ID: ")

  /** The n-th highlight: number and text cut to 100 bytes, its note only when there is one,
      its ID, then a blank line. */
  function HighlightLines(n: nat, h: Highlight): (lines: seq<Line<HighlightLine>>)
    ensures |lines| == if h.note != [] then 4 else 3
    ensures lines[0] == Line(Quote, Dec(n) + Text(". ") + BOLD + Truncate(h.text, HIGHLIGHT_WIDTH) + BOLD)
    ensures Lookup(lines, HighlightNote) == if h.note != [] then Some(NOTE_LABEL + h.note) else None
    ensures lines[|lines| - 2] == Line(HighlightId, ID_LABEL + h.id)
    ensures lines[|lines| - 1] == Line(Gap, [])
  {
    var quote := [Line(Quote, Dec(n) + Text(". ") + BOLD + Truncate(h.text, HIGHLIGHT_WIDTH) + BOLD)];
    var note := If(h.note != [], HighlightNote, NOTE_LABEL + h.note);
    var tail := [Line(HighlightId, ID_LABEL + h.id), Line(Gap, [])];
    LookupAppend(quote + note, tail, HighlightNote);
    LookupAppend(quote, note, HighlightNote);
    LookupIf(h.note != [], HighlightNote, NOTE_LABEL + h.note, HighlightNote);
    assert quote[1..] == [] && tail[1..][1..] == [];
    quote + note + tail
  }

  function HighlightEntry(n: nat, h: Highlight): Bytes {
    Show(HighlightLines(n, h))
  }

  function HighlightsHeader(n: nat): Bytes {
    Text("Found ") + Dec(n) + Text(" highlights:") + [NEWLINE, NEWLINE]
  }

  /** formatHighlights: a fixed message for no highlights; otherwise the header with their
      number and one numbered entry per highlight, in the order given. */
  method FormatHighlights(hs: seq<Highlight>) returns (text: Bytes)
    ensures |hs| == 0 ==> text == NO_HIGHLIGHTS
    ensures |hs| > 0 ==> text == HighlightsHeader(|hs|) + Numbered(hs, HighlightEntry)
  {
    if |hs| == 0 {
      return NO_HIGHLIGHTS;
    }
    text := WriteNumbered(HighlightsHeader(|hs|), hs, HighlightEntry);
  }

  // ---------------------------------------------------------------------------
  // Argument mapping and messages

  /** update-collection: the Public pointer is passed through as given, and a parent of 0
      means "leave the parent alone", so no parent member is sent. */
  function UpdateCollectionTool(id: int, title: Bytes, isPublic: Option<bool>, parent: int): (r: Api.Request)
    ensures r.verb == Api.Put && Api.E.Addresses(r.endpoint, Api.E.CollectionById(id))
    ensures Body.ObjectWith(r.body, Body.When(title != [], Body.Title) + Body.When(isPublic.Some?, Body.Public)
      + Body.When(parent != 0, Body.Parent))
    ensures isPublic.Some? ==> Body.MemberOf(r.body, Body.Public) == Body.JBool(isPublic.value)
    ensures parent != 0 ==> Body.MemberOf(r.body, Body.Parent) == Body.Ref(parent)
  {
    CollectionsApi.UpdateCollection(id, title, isPublic, if parent != 0 then Some(parent) else None)
  }

  const NO_SUGGESTIONS: Bytes := Text("No tag suggestions available for this URL")
  const SUGGESTED: Bytes := Text("Suggested tags: ")
  const COMMA_SPACE: Bytes := Text(", ")

  /** suggest-tags' text: a fixed message when there are no suggestions, otherwise the tags
      joined by ", " after a fixed lead. */
  function SuggestionsText(tags: seq<Bytes>): (text: Bytes)
    ensures |tags| == 0 ==> text == NO_SUGGESTIONS
    ensures |tags| > 0 ==> StartsWith(text, SUGGESTED) && text[|SUGGESTED|..] == Join(tags, COMMA_SPACE)
  {
    if |tags| == 0 then NO_SUGGESTIONS
    else
      var text := SUGGESTED + Join(tags, COMMA_SPACE);
      assert text[..|SUGGESTED|] == SUGGESTED;
      text
  }

  /** suggest-tags as written: one request to the suggestion endpoint with the URL spliced
      in unescaped; an API or decoding failure is the tool's failure, and otherwise the
      suggestions are listed. */
  function SuggestTagsTool(url: Bytes, t: Api.Transport, decoded: Option<seq<Bytes>>): (run: ToolRun)
    ensures run.call == Some(ExtendedApi.SuggestTagsAsWritten(url))
    ensures Api.Decode(t, decoded).Failure? ==> run.outcome == Failed(Api.Decode(t, decoded).error)
    ensures Api.Decode(t, decoded).Success? ==> run.outcome == Said(SuggestionsText(decoded.value))
  {
    Suggesting(ExtendedApi.SuggestTagsAsWritten(url), t, decoded)
  }

  /** As written, the tool asks for suggestions for "x", not for the URL "x&y" it was given. */
  lemma SuggestTagsToolLosesUrl(x: Bytes, y: Bytes, t: Api.Transport, decoded: Option<seq<Bytes>>)
    requires ExtendedApi.Plain(x) && ExtendedApi.Plain(y) && |y| > 0
    ensures var run := SuggestTagsTool(x + [AMP] + y, t, decoded);
      Url.Get(Url.ParseQuery(Url.QueryPart(run.call.value.endpoint)), ExtendedApi.URL_KEY) == x
  {
    ExtendedApi.SuggestTagsSplitsUrl(x, y);
  }

  /** suggest-tags with the URL query-escaped: the same outcomes, and the one request
      carries the URL so that the server reads it back unchanged. */
  function SuggestTagsToolEscaped(url: Bytes, t: Api.Transport, decoded: Option<seq<Bytes>>): (run: ToolRun)
    ensures run.call == Some(ExtendedApi.SuggestTags(url))
    ensures Url.Get(Url.ParseQuery(Url.QueryPart(run.call.value.endpoint)), ExtendedApi.URL_KEY) == url
    ensures run.outcome == SuggestTagsTool(url, t, decoded).outcome
  {
    Suggesting(ExtendedApi.SuggestTags(url), t, decoded)
  }

  /** The suggestion tool's outcome once its request is chosen. */
  function Suggesting(call: Api.Request, t: Api.Transport, decoded: Option<seq<Bytes>>): (run: ToolRun)
    ensures run.call == Some(call)
    ensures Api.Decode(t, decoded).Failure? ==> run.outcome == Failed(Api.Decode(t, decoded).error)
    ensures Api.Decode(t, decoded).Success? ==> run.outcome == Said(SuggestionsText(decoded.value))
  {
    match Api.Decode(t, decoded)
    case Failure(e) => ToolRun(Some(call), Failed(e))
    case Success(tags) => ToolRun(Some(call), Said(SuggestionsText(tags)))
  }

  /** What a tool returns: its text, the API error it wraps, or a runtime panic. */
  datatype ToolOutcome = Said(text: Bytes) | Failed(cause: Api.ApiError) | Panicked | Refused(reason: Bytes)

  /** A tool run: the API request it made, if any, and its outcome. */
  datatype ToolRun = ToolRun(call: Option<Api.Request>, outcome: ToolOutcome)

  const MERGED_INTO: Bytes := Text("Merged tags into '")
  const QUOTE: Bytes := Text("'")

  /** merge-tags as written: the request is sent first, and the success text reads the
      first tag, which an empty list does not have. */
  function MergeTagsToolAsWritten(collectionId: int, tags: seq<Bytes>, t: Api.Transport): (run: ToolRun)
    ensures run.call == Some(ExtendedApi.MergeTags(collectionId, tags))
    ensures Api.Discard(t).Fail? ==> run.outcome == Failed(Api.Discard(t).error)
    ensures Api.Discard(t).Pass? && |tags| > 0 ==> run.outcome == Said(MERGED_INTO + tags[0] + QUOTE)
    ensures Api.Discard(t).Pass? && |tags| == 0 ==> run.outcome.Panicked?
  {
    var call := Some(ExtendedApi.MergeTags(collectionId, tags));
    match Api.Discard(t)
    case Fail(e) => ToolRun(call, Failed(e))
    case Pass => ToolRun(call, if |tags| == 0 then Panicked else Said(MERGED_INTO + tags[0] + QUOTE))
  }

  /** The server accepting a merge of no tags makes the tool panic after the merge was sent. */
  lemma MergeTagsPanics(collectionId: int)
    ensures MergeTagsToolAsWritten(collectionId, [], Api.Received(200, [])).outcome == Panicked
    ensures MergeTagsToolAsWritten(collectionId, [], Api.Received(200, [])).call.Some?
  {
  }

  const NEED_TAGS: Bytes := Text("at least one tag is required")

  /** merge-tags with the empty list refused before any request: it never panics, sends a
      request only for a non-empty list, and names the first tag on success. */
  function MergeTagsTool(collectionId: int, tags: seq<Bytes>, t: Api.Transport): (run: ToolRun)
    ensures !run.outcome.Panicked?
    ensures |tags| == 0 ==> run == ToolRun(None, Refused(NEED_TAGS))
    ensures |tags| > 0 ==> run.call == Some(ExtendedApi.MergeTags(collectionId, tags))
    ensures |tags| > 0 && Api.Discard(t).Fail? ==> run.outcome == Failed(Api.Discard(t).error)
    ensures |tags| > 0 && Api.Discard(t).Pass? ==> run.outcome == Said(MERGED_INTO + tags[0] + QUOTE)
  {
    if |tags| == 0 then ToolRun(None, Refused(NEED_TAGS))
    else MergeTagsToolAsWritten(collectionId, tags, t)
  }
}
