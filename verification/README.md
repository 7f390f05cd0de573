# Raindrop MCP server: a Dafny model of its decisions

The Raindrop MCP server connects an MCP client to the Raindrop.io bookmark service. It
does three things, and this project models each of them as pure functions over
immutable values:

- **Authentication.** It picks an access token at startup. The order is a direct token
  from the environment, then a saved OAuth token, then a refresh of that token, then a
  new interactive OAuth flow. The token store and the flow are modelled too: the
  callback classification, the four outcomes of the wait, the token-endpoint reply
  check, and the two grant bodies.
- **Requests.** The REST client turns each call into a request: method, endpoint
  (path and query) and JSON body. The model decides which body members are sent,
  following encoding/json's `omitempty` rule. It also models query-string encoding,
  and reads a query back with Go's `url.ParseQuery` ("the server reads" in the table
  below means this reading).
- **Text.** The MCP tools and resources turn the replies into text: fixed messages for
  empty lists, the lines printed only under a condition, numbering, ordering and
  truncation.

Go strings are byte strings (`Bytes.Bytes`). Every outside value is a parameter: the
clock, the environment, the disk, HTTP outcomes and decoded replies. A formatter's
printed lines are labelled (`Lines.Line`). This lets a contract say which lines appear
without spelling out each one.

Three behaviours of the code are easy to miss, and the model keeps them:
- The token-endpoint bodies are JSON, not form-encoded (auth/oauth.go:156).
- SaveToken writes the file in place (auth/token.go:57). A write that fails part-way can
  leave a file that does not parse, and the model keeps that outcome.
- CreateCollection drops `public: false`, because the field is `public,omitempty`
  (types/extended.go:97).

Modules, in dependency order:
`Wrappers`, `Bytes`, `Url` (query escaping and parsing), `Endpoints` (API routes and
their paths), `Body` (JSON bodies and `omitempty`), `Types`, `Api`, `ExtendedApi`,
`CollectionsApi`, `Token`, `OAuth`, `Startup`, `Lines`, `Tools`, `ExtendedTools`,
`Resources`.

## Model

| member | source | states |
|---|---|---|
| Token.ExpiryMonotone | auth/token.go:19-23 | A token is expired from 300 s before `ExpiresAt` on, and stays expired as time passes. At `ExpiresAt - 301` it is not expired; at `ExpiresAt - 300` it is. |
| Token.ValidityIgnoresExpiry | auth/token.go:25-28 | Validity depends only on the two tokens being present. Changing the expiry time or the token type never changes it. |
| Token.TokenPath | auth/token.go:30-43 | The token path can be resolved exactly when the home directory is known and the config directory can be created. Otherwise the error names which of the two failed. |
| Token.Save | auth/token.go:45-62 | A save stores the token exactly when the path resolves and the write succeeds. A failed path or a failed open leaves the disk as it was. A write that fails after the open leaves an unreadable file. |
| Token.Load | auth/token.go:64-85 | A missing file means no token and no error. An unreadable or unparsable file is an error with no token. A path failure is an error without touching the file. |
| Token.Delete | auth/token.go:87-99 | Deleting a missing file succeeds. Otherwise the file is removed, or the removal error is returned and the disk is left as it was. |
| Token.SaveThenLoad | auth/token.go:45-85 | After a successful save, the next load returns the saved token, equal in every field. |
| Token.DeleteThenLoad | auth/token.go:64-99 | After a successful delete, the next load finds no token and reports no error. |
| Token.SaveOverwrites | auth/token.go:45-62 | A second save replaces the first: saving t and then u leaves the same disk as saving u alone. |
| OAuth.CheckReply | auth/oauth.go:154-192 | The reply's `error` is checked before its access token, so an error fails even when a token is present. An empty access token fails. On success the token fields are copied and `expires_at = now + expires_in`. |
| OAuth.FreshTokenLifetime | auth/oauth.go:186-191 | A freshly issued token counts as expired at once exactly when its lifetime is 300 s or less. It stays unexpired until 300 s before its lifetime ends. |
| OAuth.NoRefreshTokenNotValid | auth/oauth.go:186-191 | A reply with no refresh token yields a token that is not valid, so a later startup will not reuse it. |
| OAuth.AuthCodeBody | auth/oauth.go:129-140 | The code-exchange body has exactly five members: `grant_type=authorization_code`, the code, both client credentials and the redirect URI. |
| OAuth.RefreshBody | auth/oauth.go:142-152 | The refresh body has exactly four members: `grant_type=refresh_token`, the refresh token and both client credentials. It has no redirect URI. |
| OAuth.GrantsDiffer | auth/oauth.go:129-152 | The two grant types differ. Only the code exchange sends `code` and `redirect_uri`, and only the refresh sends `refresh_token`. |
| OAuth.CallbackUri | auth/oauth.go:46-47 | The redirect URI is `http://127.0.0.1:`, then the port in decimal, then `/callback`. Reading the middle part back gives the port. |
| OAuth.AuthorizeParamsGet | auth/oauth.go:93-96 | The authorization parameters map `client_id`, `redirect_uri` and `response_type` to the client id, the redirect URI and `code`. |
| OAuth.AuthorizationUrl | auth/oauth.go:92-97 | The browser URL is the authorize endpoint followed by a query. The server reads that query back as exactly the three authorization parameters. |
| OAuth.Classify | auth/oauth.go:56-81 | A callback with an `error` parameter is a denial carrying that reason, even when a code is also present. Otherwise an empty code is "no code", and a non-empty code is delivered as is. |
| OAuth.ClassifyCode | auth/oauth.go:74-80 | A redirect whose query is `code=<c>`, with c non-empty, delivers exactly c. |
| OAuth.ClassifyDenied | auth/oauth.go:60-65 | A redirect carrying both an error and a code is a denial with that error. |
| OAuth.Waited | auth/oauth.go:106-120 | Of the four ways the wait can end, only a callback that delivered a code continues the flow. A denial, a missing code, a server error, the timeout and cancellation each end it with their own error. |
| OAuth.StartFlow | auth/oauth.go:40-127 | If the listener cannot start, the flow fails and does nothing else. Otherwise the browser is sent to the authorization URL for the callback URI, the server is shut down exactly once, and the code is exchanged only when the wait produced one. That exchange sends the authorization-code body for that code with `redirect_uri` equal to the callback URI, and its checked reply is the flow's result. |
| OAuth.Served | auth/oauth.go:102-127 | Once the listener is up, the actions are the browser, then one shutdown, then at most one exchange. The exchange happens exactly when a code arrived, and it sends the authorization-code body for that code and the given redirect URI. |
| Startup.SavedToken | main.go:82-86 | A load error is only a warning: it counts as no saved token. |
| Startup.GetAccessToken | main.go:56-73 | A non-empty direct token is returned as is, with no load, refresh or flow. Without one, OAuth needs both client id and secret; if either is missing the result is a configuration error. |
| Startup.GetOAuthToken | main.go:76-124 | A valid, unexpired saved token is returned with nothing else done. A valid expired one is refreshed exactly once, with the refresh body carrying its own refresh token. A successful refresh is saved and returned. Every other case runs the flow once, and the steps are exactly: load, the refresh attempt if one was made, the flow, and a save only when the flow succeeded. A failed save is only a warning. |
| Startup.Interactive | main.go:110-124 | A failed flow is an error and saves nothing. A successful flow's token is saved, and its access token is returned even when the save fails. |
| Startup.RestartUsesSaved | main.go:88-124 | A token saved at one startup is used as is at the next, without refresh or flow, while it is still unexpired. |
| Startup.SavedAfterRun | main.go:98-123 | When a run ends by saving token t, it returned t's access token and left exactly the disk that save produced. |
| Url.UnescapeEscape | api/extended.go:136-137 | Query unescaping undoes query escaping for every byte string. This is the encoding the corrected SuggestTags relies on. |
| Url.ParseEncode | api/raindrop.go:152-166 | Parsing an encoded parameter list gives back exactly the parameters encoded, in order. |
| Endpoints.RenderParse | api/raindrop.go:100-216 | Every well-formed route's path (a highlight id being one path segment) reads back as that route, so distinct well-formed routes have distinct paths. |
| Endpoints.AddressesWithQuery | api/raindrop.go:163-166 | A route's path followed by `?` and a query still addresses that route, and the server reads exactly that query. |
| Api.Prepare | api/raindrop.go:38-54 | The request goes to the base URL followed by the endpoint. A body travels exactly when one is given. The headers are exactly `Authorization: Bearer <token>` and `Content-Type: application/json`. |
| Api.MakeRequest | api/raindrop.go:56-71 | A reply succeeds exactly when a status below 400 was received, and then yields its body. A status of 400 or more is an error carrying the status and the body. A transport or read failure is its own error. |
| Api.Decode | api/raindrop.go:86-96 | A decoding call succeeds exactly when the request succeeded and the body decoded. Request errors pass through unchanged, and an undecodable body is a parse error. |
| Api.Discard | api/raindrop.go:145-148 | A call whose reply is ignored succeeds exactly when a status below 400 was received. |
| Api.CreateRaindropAsWritten | api/raindrop.go:75-86 | As written, the create body has the link always, the title and tags when given, and the collection when its id is not 0. It never has `pleaseParse`. |
| Api.PleaseParseDropped | api/raindrop.go:80 | For every argument list, the as-written create request carries no `pleaseParse` member. |
| Api.CreateRaindrop | api/raindrop.go:75-86 | POST /raindrop. The link and `pleaseParse: {}` are always sent, the title and tags when non-empty, and the collection reference iff the collection id is not 0. |
| Api.GetRaindrop | api/raindrop.go:100-101 | GET /raindrop/{id} with no body. |
| Api.UpdateRaindrop | api/raindrop.go:115-131 | PUT /raindrop/{id}. The body has the title and note only when non-empty, the tags only when there are some, and the collection only when one is given. Nothing else is sent. |
| Api.DeleteRaindrop | api/raindrop.go:145-146 | DELETE /raindrop/{id} with no body. |
| Api.SearchParamsMeaning | api/raindrop.go:152-161 | The search sets `search` iff the query is non-empty, `page` iff page > 0 and `perpage` iff perPage > 0. Each is set once with its value, and nothing else is set. |
| Api.SearchRaindrops | api/raindrop.go:151-168 | GET /raindrops/{collection}. A query string is added exactly when some parameter is set, and the server reads back exactly those parameters. |
| Api.SearchIgnoresTags | api/raindrop.go:151-168 | The `tags` argument has no effect on the request. |
| Api.ListCollections | api/raindrop.go:182-183 | GET /collections with no body. |
| Api.ListChildCollections | api/raindrop.go:197-198 | GET /collections/childrens with no body. |
| Api.GetTags | api/raindrop.go:212-218 | GET /tags iff the collection id is 0, and /tags/{id} for every other id, negative ones included. |
| ExtendedApi.TagScope | api/extended.go:15-19 | The tag calls use /tags for ids <= 0 and /tags/{id} for ids > 0. This differs from GetTags, which tests `!= 0`. |
| ExtendedApi.RenameTag | api/extended.go:11-22 | PUT to the tag scope. The body is a one-element list whose item has `old` and `new` set to the two names. |
| ExtendedApi.DeleteTags | api/extended.go:26-37 | DELETE to the tag scope. The body is exactly `{"tags": [...]}` with the tags in order. |
| ExtendedApi.MergeScope | api/extended.go:45-49 | Merging uses /tags/merge for ids <= 0 and /tags/{id}/merge for ids > 0. |
| ExtendedApi.MergeTags | api/extended.go:41-52 | PUT to the merge scope. The body is exactly `{"tags": [...]}`. |
| ExtendedApi.GetHighlights | api/extended.go:56-64 | GET /highlights iff the bookmark id is 0, and /raindrop/{id}/highlights otherwise. |
| ExtendedApi.CreateHighlight | api/extended.go:78-86 | POST /highlight. The bookmark id and the text are always sent; the note and colour only when non-empty. |
| ExtendedApi.DeleteHighlight | api/extended.go:100-101 | DELETE with no body. A highlight id that is a single path segment addresses /raindrop/{rid}/highlight/{hid}. |
| ExtendedApi.GetFilters | api/extended.go:106-107 | GET /filters/{collection} with no body. |
| ExtendedApi.GetUser | api/extended.go:121-122 | GET /user with no body. |
| ExtendedApi.SuggestTagsAsWritten | api/extended.go:136-137 | As written, the URL is spliced after `?url=` unescaped: the raw query the server sees is `url=` followed by the URL, up to any `#`. |
| ExtendedApi.SuggestTagsSplitsUrl | api/extended.go:137 | For any URL `x&y` whose parts hold only unreserved bytes (and `y` is not empty), the server reads two parameters, `url=x` and `y=`. The URL it reads is `x`, not `x&y`. |
| ExtendedApi.SuggestTags | api/extended.go:136-137 | With the URL escaped, GET /tags/suggest carries exactly one parameter, and the server reads back the URL unchanged. |
| CollectionsApi.CreateCollection | api/collections.go:11-20 | POST /collection. The title is always sent, `public` only when true (omitempty), and the parent reference iff the parent id is > 0. |
| CollectionsApi.GetCollection | api/collections.go:34-35 | GET /collection/{id} with no body. |
| CollectionsApi.UpdateCollection | api/collections.go:49-62 | PUT /collection/{id}. The title is sent only when non-empty; `public` and the parent only when given, with `public: false` kept. |
| CollectionsApi.DeleteCollection | api/collections.go:76-77 | DELETE /collection/{id} with no body. |
| CollectionsApi.MergeCollections | api/collections.go:82-87 | PUT /collections/merge. The body is exactly `{"to": target, "ids": [...]}` with the ids in order. |
| Lines.EachAppend | tools/tools.go:99 | Writing two lists one after the other gives each list's entries, in order: the text for roots followed by children is the roots' text followed by the children's text. |
| Tools.RaindropLines | tools/tools.go:155-171 | A bookmark always prints its title first, its ID and URL, and its creation time last. Tags (joined by ", "), excerpt and note are printed only when non-empty. |
| Tools.ResultLines | tools/tools.go:181-188 | Each search result prints its number and title, then ID and URL, then its tags only when it has some, then a blank line. |
| Tools.FormatRaindrops | tools/tools.go:173-191 | An empty page prints "No bookmarks found.". Otherwise the header reports the server's total rather than the page length, and the results follow numbered from 1 in order. |
| Tools.ResultsHeaderCount | tools/tools.go:179 | The number in the results header reads back as the server's total. |
| Tools.CollectionEntry | tools/tools.go:200-208 | A collection's entry starts with the "  └─ " branch exactly when its parent id is > 0. |
| Tools.FormatCollections | tools/tools.go:193-211 | No collections prints "No collections found.". Otherwise the header gives their number, followed by one entry per collection in order. |
| Tools.ListCollectionsTool | tools/tools.go:90-100 | A failure fetching the roots, then one fetching the children, is the tool's failure. Otherwise the text is the collection listing of the roots followed by the children. |
| Tools.RootsBeforeChildren | tools/tools.go:99 | In that listing, one header counts both lists, and every root collection's entry comes before every child collection's entry, both in server order. |
| Tools.FormatTags | tools/tools.go:213-226 | No tags prints "No tags found.". Otherwise the header gives their number, followed by one line per tag in order. |
| Tools.UpdateBookmark | tools/tools.go:49-54 | A collection of 0 means "do not move", so the body has no collection member. Any other value moves the bookmark to that collection. |
| ExtendedTools.Truncate | tools/extended.go:354-359 | The string is unchanged iff it fits in n bytes. A longer one becomes its first n-3 bytes followed by "...", exactly n bytes long. The result never exceeds n. |
| ExtendedTools.TruncateIdempotent | tools/extended.go:354-359 | Truncating twice is the same as truncating once. |
| ExtendedTools.TruncateShowsOnlyPrefix | tools/extended.go:354-359 | Two strings that are both over the limit and agree on their first limit-3 bytes truncate to the same text: nothing past that prefix shows. |
| ExtendedTools.CollectionLines | tools/extended.go:264-275 | A collection prints its title and ID, then its count. "Public: Yes" is printed iff it is public, and the parent line iff its parent id is > 0. |
| ExtendedTools.HighlightLines | tools/extended.go:298-304 | Each highlight prints its number and its text cut to 100 bytes. The note is printed only when non-empty, then the ID, then a blank line. |
| ExtendedTools.FormatHighlights | tools/extended.go:290-307 | No highlights prints "No highlights found.". Otherwise the header gives their number, followed by the highlights numbered from 1 in order. |
| ExtendedTools.UpdateCollectionTool | tools/extended.go:43-52 | A parent of 0 means "leave the parent alone", so no parent is sent. The Public choice is passed through unchanged, including an explicit false. |
| ExtendedTools.SuggestionsText | tools/extended.go:187-190 | No suggestions prints a fixed message. Otherwise the text is "Suggested tags: " followed by the tags joined by ", ". |
| ExtendedTools.SuggestTagsTool | tools/extended.go:182-190 | suggest-tags makes one suggestion request, built as written with the URL unescaped. An API or decoding error is the tool's error; otherwise the tool lists the suggestions. |
| ExtendedTools.SuggestTagsToolLosesUrl | tools/extended.go:183 | For a tool input `x&y` of unreserved bytes (with `y` not empty), the request the tool sends makes the server read the URL `x`. |
| ExtendedTools.SuggestTagsToolEscaped | tools/extended.go:182-190 | With the URL escaped, the tool's request carries the URL back whole, and the tool's outcome for each API reply is the same as for the as-written tool. |
| ExtendedTools.MergeTagsToolAsWritten | tools/extended.go:108-114 | As written, the merge request is always sent. On success the text names the first tag, and an empty tag list panics. |
| ExtendedTools.MergeTagsPanics | tools/extended.go:109-113 | With an empty tag list and a 200 reply, the tool panics after the merge request was sent. |
| ExtendedTools.MergeTagsTool | tools/extended.go:108-114 | It never panics. An empty list is refused before any request. Otherwise it sends the merge, passes on the API error, or names the first tag. |
| Resources.CollectionItem | resources/resources.go:36-40 | A collection line is indented by two spaces exactly when its parent id is > 0, then names the title and ID, and ends with the bookmark count: `, m bookmarks)` and a newline. |
| Resources.ReadCollections | resources/resources.go:21-41 | The roots are fetched first, and the children only if that succeeded. The text lists every root collection and then every child collection, in server order. |
| Resources.TagItem | resources/resources.go:67 | A tag line gives the tag's name and its bookmark count. |
| Resources.ReadTags | resources/resources.go:57-68 | One request for the tags of every collection. The text has one line per tag, in server order. |
| Resources.UserLines | resources/resources.go:91-98 | The user text prints the name and the e-mail address. It prints "Account: Pro" iff the user is Pro, and "Account: Free" otherwise. |
| Resources.ReadUser | resources/resources.go:84-98 | One request for the user. Its error is the read's error; otherwise the text is the header and the user lines. |
| Resources.ScanCollectionUri | resources/resources.go:116-121 | An id is read only from a URI with the `raindrop://collection/` prefix, and only when it fits Go's 64-bit int. |
| Resources.ScanNeedsSuffix | resources/resources.go:118-121 | A URI whose number is followed by a `/` that does not start `/bookmarks` is refused. |
| Resources.ScanNeedsNumber | resources/resources.go:118-121 | A URI whose text after the prefix does not start with a blank, a sign or a digit is refused. |
| Resources.ScanRefusesNewline | resources/resources.go:118-121 | A newline right after the prefix is refused: Sscanf does not skip newlines before a number. |
| Resources.ScanRoundTrip | resources/resources.go:116-121 | The URI built from any id in range reads back as that id, whatever follows `/bookmarks`. |
| Resources.ScanRejectsOverflow | resources/resources.go:116-121 | An id outside Go's int range is refused, even in a URI of the right shape. |
| Resources.ScanSkipsBlank | resources/resources.go:118 | Blanks between the prefix and the number do not change the id read. |
| Resources.BookmarksRequest | resources/resources.go:123 | The template searches collection {id} with no query, page 0 and 25 per page. The server reads the query as exactly `perpage=25`. |
| Resources.BookmarkLines | resources/resources.go:132-139 | A bookmark prints its title and its URL. Its tags, joined by ", ", are printed only when it has some, then a blank line. |
| Resources.BookmarksText | resources/resources.go:128-139 | The header names the collection id and the server's total, and one entry per bookmark follows, in order. |
| Resources.ReadBookmarks | resources/resources.go:114-139 | A URI that does not scan is an error before any request. Otherwise there is one search of the scanned collection, and its failure is the read's failure. The text names the scanned id and lists the returned bookmarks. |

## Left out

- How the Raindrop API server and the raindrop.io authorize endpoint read a query: both are outside this program, and the model reads their queries with Go's `url.ParseQuery`. Only the program's own callback server (auth/oauth.go:57-58) is known to use it. The queries in the lemmas use only unreserved bytes, `%XX` escapes, `=` and `&`, which any standard query parser reads the same way.
- HTTP transport, timeouts and `LimitReader` size caps: a reply is a `Transport` value. A body longer than the cap is seen already cut.
- json.Marshal and json.Unmarshal: bodies are `Json` values with member sets. A decoded reply is passed in, with `None` for a body that does not decode. Marshal failures cannot happen for these types and are not modelled.
- The difference between a nil and an empty Go slice. UpdateRaindrop's `tags` is `omitempty`, so both are omitted, as modelled. DeleteTags (a `map[string][]string`, api/extended.go:27-29) and MergeTags (`json:"tags"` without `omitempty`, types/extended.go:160) send `"tags": null` for a nil slice; the model always sends a list, `[]` when empty.
- http.NewRequest failing on an unparsable URL is not modelled.
- The goroutine, the channels, `net.Listen` and the race inside `select` in StartOAuthFlow: only the case that fired is modelled, as a `Wait` value. A second callback request is not modelled.
- openBrowser (an OS process) is recorded as an action; its failure only prints a message and is not modelled.
- `time.Now` and `time.After`: `now` is a parameter, and one value stands for every clock reading during startup. The timeout is one `Wait` case.
- The file system: the store is a `Disk` value with failure flags. A write that fails after the file was opened is modelled as an unreadable (corrupt) file.
- int64 overflow in `ExpiresAt - 300` and `now + expires_in`: integers are unbounded.
- makeTokenRequest never looks at the HTTP status; the model follows it.
- MCP registration, server start-up on stdio, and the tools' plain success messages: create-bookmark, get-bookmark, delete-bookmark, search-bookmarks, create-collection, get-collection, delete-collection, merge-collections, rename-tag, delete-tags, the highlight tools, get-filters and get-user are one client call plus a message.
- formatRaindrop's text (`Tools.FormatRaindrop`) is stated only through its labelled lines.
- formatHighlight, formatFilters and formatUser: they print fields and are not needed by any property here.
- ExtendedTools.Truncate: it cuts bytes, so it may split a multi-byte UTF-8 character, as the source does.
- ExtendedApi.DeleteHighlight: the route is proved only for highlight ids that are a single path segment. Go splices the id in unescaped, and the model keeps that.
- Resources.ScanCollectionUri: the Unicode spaces Sscanf also skips before a number (U+0085, U+00A0 and others) are not modelled; only the ASCII blanks are.
- Url.ParseQuery keeps parameters in the order they appear, which is what Values.Get's "first value" needs; a Go map does not keep order.

## Findings

| source | as written | input that shows it | evidently intended | confidence | as-written member | corrected member |
|---|---|---|---|---|---|---|
| api/raindrop.go:80 | `PleaseParse` is set to an empty map, but the field carries `omitempty`, so encoding/json never writes it. | Any call, e.g. CreateRaindrop("https://a.b", "", [], 0): the body has no `pleaseParse`. | `pleaseParse: {}` is sent so the server parses the page's metadata. | high, not executed | Api.CreateRaindropAsWritten, Api.PleaseParseDropped | Api.CreateRaindrop |
| api/extended.go:137 | The URL is spliced after `?url=` without query escaping. | SuggestTags("x&y"): the server reads `url=x` and a second parameter `y`. | The URL is sent escaped, so the server reads it back whole. | medium, not executed | ExtendedApi.SuggestTagsAsWritten, ExtendedApi.SuggestTagsSplitsUrl, ExtendedTools.SuggestTagsTool, ExtendedTools.SuggestTagsToolLosesUrl | ExtendedApi.SuggestTags, ExtendedTools.SuggestTagsToolEscaped |
| tools/extended.go:113 | The success text reads `input.Tags[0]` after the merge request was sent, and nothing checks the list is non-empty. | merge-tags with `tags = []` and a 200 reply: an index-out-of-range panic after the request. | An empty list is refused before any request, so the tool never panics. | medium, not executed | ExtendedTools.MergeTagsToolAsWritten, ExtendedTools.MergeTagsPanics | ExtendedTools.MergeTagsTool |
