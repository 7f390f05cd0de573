/** The pure decisions of the OAuth 2.0 authorization-code flow with refresh (sections
    4.1 and 6 of RFC 6749) as auth/oauth.go runs it against Raindrop.io. Raindrop takes the
    token request as a JSON object rather than a form. The loopback listener, the browser,
    the channels and the clock are not modelled: which outcome the wait produced, what the
    token endpoint answered and the current time are parameters. */
module OAuth {
  import opened Wrappers
  import opened Bytes
  import Url
  import opened Token

  const AUTH_URL: Bytes := Text("https://raindrop.io/oauth/authorize")
  const TOKEN_URL: Bytes := Text("https://raindrop.io/oauth/access_token")

  /** The application's credentials; the redirect URI is chosen once the port is known. */
  datatype Config = Config(clientId: Bytes, clientSecret: Bytes)

  // ---------------------------------------------------------------------------
  // The token endpoint

  /** What one POST to the token endpoint produced, already decoded. `Malformed` is a body
      that is not a JSON object of the expected shape. */
  datatype TokenReply =
    | PostFailed
    | Unreadable
    | Malformed
    | Decoded(accessToken: Bytes, refreshToken: Bytes, expiresIn: int, tokenType: Bytes, error: Bytes)

  datatype OAuthError =
    | RequestFailed            // "token request failed"
    | ResponseUnreadable       // "failed to read response"
    | ResponseMalformed        // "failed to parse token response"
    | TokenError(reason: Bytes)  // "token error: %s"
    | NoAccessToken            // "no access token in response"
    | ListenFailed             // "failed to start callback server"
    | Denied(reason: Bytes)    // "authorization denied: %s"
    | NoCode                   // "no authorization code received"
    | ServerFailed             // "callback server error"
    | TimedOut                 // "authorization timeout (5 minutes)"
    | Cancelled                // the context's error

  /** makeTokenRequest after the POST: the reply's `error` is looked at before its access
      token, and the expiry becomes an absolute time. The HTTP status is not looked at. */
  function CheckReply(reply: TokenReply, now: int): (r: Result<TokenData, OAuthError>)
    ensures reply.PostFailed? ==> r == Failure(RequestFailed)
    ensures reply.Unreadable? ==> r == Failure(ResponseUnreadable)
    ensures reply.Malformed? ==> r == Failure(ResponseMalformed)
    ensures reply.Decoded? && reply.error != [] ==> r == Failure(TokenError(reply.error))
    ensures reply.Decoded? && reply.error == [] && reply.accessToken == [] ==> r == Failure(NoAccessToken)
    ensures r.Success? <==> reply.Decoded? && reply.error == [] && reply.accessToken != []
    ensures r.Success? ==>
      && r.value.accessToken == reply.accessToken
      && r.value.refreshToken == reply.refreshToken
      && r.value.tokenType == reply.tokenType
      && r.value.expiresAt == now + reply.expiresIn
  {
    match reply
    case PostFailed => Failure(RequestFailed)
    case Unreadable => Failure(ResponseUnreadable)
    case Malformed => Failure(ResponseMalformed)
    case Decoded(access, refresh, expiresIn, tokenType, error) =>
      if error != [] then Failure(TokenError(error))
      else if access == [] then Failure(NoAccessToken)
      else Success(TokenData(access, refresh, now + expiresIn, tokenType))
  }

  /** A token just issued counts as expired at once exactly when its lifetime is within the
      refresh margin; otherwise it stays usable for its lifetime less the margin. */
  lemma FreshTokenLifetime(reply: TokenReply, now: int, later: int)
    requires CheckReply(reply, now).Success?
    ensures IsExpired(CheckReply(reply, now).value, now) <==> reply.expiresIn <= REFRESH_MARGIN
    ensures now <= later < now + reply.expiresIn - REFRESH_MARGIN ==> !IsExpired(CheckReply(reply, now).value, later)
  {
  }

  /** A reply without a refresh token yields a token that startup will not accept as saved. */
  lemma NoRefreshTokenNotValid(reply: TokenReply, now: int)
    requires CheckReply(reply, now).Success? && reply.refreshToken == []
    ensures !IsValid(CheckReply(reply, now).value)
  {
  }

  /** The members of a token request body. */
  datatype TokenParam = GrantType | Code | ClientId | ClientSecret | RedirectUri | RefreshToken

  function ParamName(p: TokenParam): string {
    match p
    case GrantType => "grant_type"
    case Code => "code"
    case ClientId => "client_id"
    case ClientSecret => "client_secret"
    case RedirectUri => "redirect_uri"
    case RefreshToken => "refresh_token"
  }

  const AUTHORIZATION_CODE: Bytes := Text("authorization_code")
  const REFRESH_GRANT: Bytes := Text("refresh_token")

  /** exchangeCodeForToken's body (section 4.1.3 of RFC 6749, sent as JSON). */
  function AuthCodeBody(config: Config, code: Bytes, redirectUri: Bytes): (b: map<TokenParam, Bytes>)
    ensures b.Keys == {GrantType, Code, ClientId, ClientSecret, RedirectUri}
    ensures b[GrantType] == AUTHORIZATION_CODE && b[Code] == code && b[RedirectUri] == redirectUri
    ensures b[ClientId] == config.clientId && b[ClientSecret] == config.clientSecret
  {
    map[GrantType := AUTHORIZATION_CODE, Code := code, ClientId := config.clientId,
        ClientSecret := config.clientSecret, RedirectUri := redirectUri]
  }

  /** RefreshToken's body (section 6 of RFC 6749, sent as JSON): no redirect URI. */
  function RefreshBody(config: Config, refreshToken: Bytes): (b: map<TokenParam, Bytes>)
    ensures b.Keys == {GrantType, RefreshToken, ClientId, ClientSecret}
    ensures b[GrantType] == REFRESH_GRANT && b[RefreshToken] == refreshToken
    ensures b[ClientId] == config.clientId && b[ClientSecret] == config.clientSecret
  {
    map[GrantType := REFRESH_GRANT, RefreshToken := refreshToken, ClientId := config.clientId,
        ClientSecret := config.clientSecret]
  }

  /** The two grants can never be confused: their grant types differ, and only the code
      grant names a code and a redirect URI. */
  lemma GrantsDiffer(config: Config, code: Bytes, redirectUri: Bytes, refreshToken: Bytes)
    ensures AuthCodeBody(config, code, redirectUri)[GrantType] != RefreshBody(config, refreshToken)[GrantType]
    ensures AuthCodeBody(config, code, redirectUri).Keys - RefreshBody(config, refreshToken).Keys == {Code, RedirectUri}
    ensures RefreshBody(config, refreshToken).Keys - AuthCodeBody(config, code, redirectUri).Keys == {RefreshToken}
  {
    assert |AUTHORIZATION_CODE| != |REFRESH_GRANT|;
  }

  // ---------------------------------------------------------------------------
  // The authorization request

  const CALLBACK_HOST: Bytes := Text("http://127.0.0.1:")
  const CALLBACK_PATH: Bytes := Text("/callback")

  /** The loopback redirect URI for the port the listener was given. */
  function CallbackUri(port: nat): (u: Bytes)
    ensures |u| > |CALLBACK_HOST| + |CALLBACK_PATH| && StartsWith(u, CALLBACK_HOST)
    ensures ParseInt(u[|CALLBACK_HOST|..|u| - |CALLBACK_PATH|]) == Some(port)
    ensures u[|u| - |CALLBACK_PATH|..] == CALLBACK_PATH
  {
    var u := CALLBACK_HOST + Dec(port) + CALLBACK_PATH;
    assert u[..|CALLBACK_HOST|] == CALLBACK_HOST;
    assert u[|CALLBACK_HOST|..|u| - |CALLBACK_PATH|] == Dec(port);
    assert u[|u| - |CALLBACK_PATH|..] == CALLBACK_PATH;
    DecRoundTrip(port);
    u
  }

  const CLIENT_ID_KEY: Bytes := Text("client_id")
  const REDIRECT_URI_KEY: Bytes := Text("redirect_uri")
  const RESPONSE_TYPE_KEY: Bytes := Text("response_type")
  const CODE: Bytes := Text("code")
  const ERROR_KEY: Bytes := Text("error")

  lemma AuthorizeUrlFree()
    ensures Free(AUTH_URL, QUESTION) && Free(AUTH_URL, HASH)
  {
  }

  /** The three authorization parameters, in the order url.Values.Encode sorts them. */
  function AuthorizeParams(config: Config, redirectUri: Bytes): seq<Url.Param> {
    [(CLIENT_ID_KEY, config.clientId), (REDIRECT_URI_KEY, redirectUri), (RESPONSE_TYPE_KEY, CODE)]
  }

  /** Each authorization parameter is found under its own key. */
  lemma AuthorizeParamsGet(config: Config, redirectUri: Bytes)
    ensures var ps := AuthorizeParams(config, redirectUri);
      Url.Get(ps, CLIENT_ID_KEY) == config.clientId && Url.Get(ps, REDIRECT_URI_KEY) == redirectUri
      && Url.Get(ps, RESPONSE_TYPE_KEY) == CODE
  {
    var ps := AuthorizeParams(config, redirectUri);
    assert |CLIENT_ID_KEY| == 9 && |REDIRECT_URI_KEY| == 12 && |RESPONSE_TYPE_KEY| == 13;
    assert ps[1..] == [(REDIRECT_URI_KEY, redirectUri), (RESPONSE_TYPE_KEY, CODE)];
    assert ps[1..][1..] == [(RESPONSE_TYPE_KEY, CODE)];
    assert Url.Get(ps, REDIRECT_URI_KEY) == Url.Get(ps[1..], REDIRECT_URI_KEY);
    assert Url.Get(ps, RESPONSE_TYPE_KEY) == Url.Get(ps[1..], RESPONSE_TYPE_KEY)
      == Url.Get(ps[1..][1..], RESPONSE_TYPE_KEY);
  }

  /** The URL the browser is sent to: the authorize endpoint with client_id, redirect_uri
      and response_type=code. Whatever bytes the client id and redirect URI hold, the
      server reads them back under their keys. */
  function AuthorizationUrl(config: Config, redirectUri: Bytes): (u: Bytes)
    ensures Url.PathPart(u) == AUTH_URL && Url.HasQuery(u)
    ensures Url.ParseQuery(Url.QueryPart(u)) == AuthorizeParams(config, redirectUri)
    ensures var q := Url.ParseQuery(Url.QueryPart(u));
      Url.Get(q, CLIENT_ID_KEY) == config.clientId && Url.Get(q, REDIRECT_URI_KEY) == redirectUri
      && Url.Get(q, RESPONSE_TYPE_KEY) == CODE
  {
    var ps := AuthorizeParams(config, redirectUri);
    AuthorizeUrlFree();
    Url.EncodeFree(ps, HASH);
    Url.TargetWithQuery(AUTH_URL, Url.Encode(ps));
    Url.ParseEncode(ps);
    AuthorizeParamsGet(config, redirectUri);
    AUTH_URL + [QUESTION] + Url.Encode(ps)
  }

  // ---------------------------------------------------------------------------
  // The callback

  /** What the /callback handler hands to the waiting flow. */
  datatype CallbackOutcome = DeniedWith(reason: Bytes) | CodeMissing | GotCode(code: Bytes)

  /** The callback handler: an `error` parameter wins over a code; then an empty code is
      an error; otherwise the code is delivered. */
  function Classify(rawQuery: Bytes): (o: CallbackOutcome)
    ensures var q := Url.ParseQuery(rawQuery);
      && (Url.Get(q, ERROR_KEY) != [] <==> o.DeniedWith?)
      && (o.DeniedWith? ==> o.reason == Url.Get(q, ERROR_KEY))
      && (o.CodeMissing? <==> Url.Get(q, ERROR_KEY) == [] && Url.Get(q, CODE) == [])
      && (o.GotCode? ==> o.code == Url.Get(q, CODE) && o.code != [])
  {
    var q := Url.ParseQuery(rawQuery);
    var code := Url.Get(q, CODE);
    var err := Url.Get(q, ERROR_KEY);
    if err != [] then DeniedWith(err)
    else if code == [] then CodeMissing
    else GotCode(code)
  }

  /** The redirect that carries a code and no error delivers exactly that code, whatever
      bytes it holds. */
  lemma ClassifyCode(code: Bytes)
    requires code != []
    ensures Classify(Url.Encode([(CODE, code)])) == GotCode(code)
  {
    var q := [(CODE, code)];
    assert |CODE| == 4 && |ERROR_KEY| == 5;
    Url.ParseEncode(q);
    assert q[1..] == [];
    assert Url.Get(q, ERROR_KEY) == Url.Get(q[1..], ERROR_KEY) == [];
    assert Url.Get(q, CODE) == code;
  }

  /** A redirect that carries an error is a denial, even when it also carries a code. */
  lemma ClassifyDenied(reason: Bytes, code: Bytes)
    requires reason != []
    ensures Classify(Url.Encode([(ERROR_KEY, reason), (CODE, code)])) == DeniedWith(reason)
  {
    var both := [(ERROR_KEY, reason), (CODE, code)];
    Url.ParseEncode(both);
  }

  // ---------------------------------------------------------------------------
  // The flow

  /** Whether the loopback listener came up, and on which port. */
  datatype Listen = CannotListen | Bound(port: nat)

  /** Which case of the flow's `select` fired first: a callback request, the server's own
      error, the five-minute timer, or the context. */
  datatype Wait = Callback(rawQuery: Bytes) | ServeError | Timer | ContextDone

  /** What the `select` yields: the code, or the error the flow returns. */
  function Waited(w: Wait): (r: Result<Bytes, OAuthError>)
    ensures r.Success? <==> w.Callback? && Classify(w.rawQuery).GotCode?
    ensures r.Success? ==> r.value == Classify(w.rawQuery).code && r.value != []
    ensures w.Callback? && Classify(w.rawQuery).DeniedWith? ==> r == Failure(Denied(Classify(w.rawQuery).reason))
    ensures w.Callback? && Classify(w.rawQuery).CodeMissing? ==> r == Failure(NoCode)
    ensures w.ServeError? ==> r == Failure(ServerFailed)
    ensures w.Timer? ==> r == Failure(TimedOut)
    ensures w.ContextDone? ==> r == Failure(Cancelled)
  {
    match w
    case Callback(rawQuery) => (
      match Classify(rawQuery)
      case GotCode(code) => Success(code)
      case DeniedWith(reason) => Failure(Denied(reason))
      case CodeMissing => Failure(NoCode))
    case ServeError => Failure(ServerFailed)
    case Timer => Failure(TimedOut)
    case ContextDone => Failure(Cancelled)
  }

  /** The flow's visible effects, in order. `Exchange` is the POST of its body to the
      token endpoint. */
  datatype Action = OpenBrowser(url: Bytes) | Shutdown | Exchange(body: map<TokenParam, Bytes>)

  datatype FlowRun = FlowRun(result: Result<TokenData, OAuthError>, actions: seq<Action>)

  function Shutdowns(actions: seq<Action>): nat {
    if |actions| == 0 then 0 else (if actions[0].Shutdown? then 1 else 0) + Shutdowns(actions[1..])
  }

  function Exchanges(actions: seq<Action>): nat {
    if |actions| == 0 then 0 else (if actions[0].Exchange? then 1 else 0) + Exchanges(actions[1..])
  }

  /** StartOAuthFlow. Once the listener is up, the browser is pointed at the authorization
      URL, the server is shut down exactly once whichever case fires, and the code is
      exchanged only when a code arrived, after the shutdown, with the redirect URI the
      browser was given. */
  function StartFlow(config: Config, listen: Listen, wait: Wait, reply: TokenReply, now: int): (f: FlowRun)
    ensures listen.CannotListen? ==> f == FlowRun(Failure(ListenFailed), [])
    ensures listen.Bound? ==>
      && |f.actions| == (if Waited(wait).Success? then 3 else 2)
      && f.actions[0] == OpenBrowser(AuthorizationUrl(config, CallbackUri(listen.port)))
      && f.actions[1] == Shutdown
      && Shutdowns(f.actions) == 1
      && Exchanges(f.actions) == (if Waited(wait).Success? then 1 else 0)
    ensures listen.Bound? && Waited(wait).Success? ==>
      && f.actions[2] == Exchange(AuthCodeBody(config, Waited(wait).value, CallbackUri(listen.port)))
      && f.actions[2].body[Code] == Waited(wait).value
      && f.actions[2].body[RedirectUri] == CallbackUri(listen.port)
      && f.result == CheckReply(reply, now)
    ensures listen.Bound? && Waited(wait).Failure? ==> f.result == Failure(Waited(wait).error)
    ensures f.result.Success? ==> listen.Bound? && Waited(wait).Success?
  {
    match listen
    case CannotListen => FlowRun(Failure(ListenFailed), [])
    case Bound(port) =>
      var redirectUri := CallbackUri(port);
      Served(config, AuthorizationUrl(config, redirectUri), redirectUri, Waited(wait), reply, now)
  }

  /** The flow once the listener is up on `redirectUri` and the browser has been sent to
      `url`, given what the wait yielded. The code is exchanged with the same redirect URI. */
  function Served(config: Config, url: Bytes, redirectUri: Bytes, waited: Result<Bytes, OAuthError>, reply: TokenReply, now: int): (f: FlowRun)
    ensures |f.actions| == (if waited.Success? then 3 else 2)
    ensures f.actions[0] == OpenBrowser(url) && f.actions[1] == Shutdown
    ensures Shutdowns(f.actions) == 1
    ensures Exchanges(f.actions) == (if waited.Success? then 1 else 0)
    ensures waited.Success? ==>
      f.actions[2] == Exchange(AuthCodeBody(config, waited.value, redirectUri)) && f.result == CheckReply(reply, now)
    ensures waited.Failure? ==> f.result == Failure(waited.error)
  {
    var open := OpenBrowser(url);
    match waited
    case Success(code) =>
      var exchange := Exchange(AuthCodeBody(config, code, redirectUri));
      var actions := [open, Shutdown, exchange];
      assert actions[1..] == [Shutdown, exchange] && actions[1..][1..] == [exchange];
      assert actions[1..][1..][1..] == [];
      assert Shutdowns(actions[1..][1..]) == 0 && Exchanges(actions[1..][1..]) == 1;
      assert Shutdowns(actions[1..]) == 1 && Exchanges(actions[1..]) == 1;
      FlowRun(CheckReply(reply, now), actions)
    case Failure(e) =>
      var actions := [open, Shutdown];
      assert actions[1..] == [Shutdown] && actions[1..][1..] == [];
      assert Shutdowns(actions[1..]) == 1 && Exchanges(actions[1..]) == 0;
      FlowRun(Failure(e), actions)
  }
}
