/** How the server picks its access token at startup (main.go): a direct token from the
    environment first, then OAuth with the saved token, a refresh of it, or a new
    interactive flow. Load and save failures are warnings that never stop startup. The
    environment, the disk, the clock and every network outcome are parameters. */
module Startup {
  import opened Wrappers
  import opened Bytes
  import opened Token
  import opened OAuth

  /** RAINDROP_TOKEN, RAINDROP_CLIENT_ID and RAINDROP_CLIENT_SECRET ("" when unset). */
  datatype Env = Env(directToken: Bytes, clientId: Bytes, clientSecret: Bytes)

  /** Everything outside the program that startup consults, fixed in advance. A single
      `now` stands for every clock reading during startup. */
  datatype World = World(
    disk: Disk,
    now: int,
    refreshReply: TokenReply,
    listen: Listen,
    wait: Wait,
    flowReply: TokenReply)

  /** What startup did, in order. `Refreshed` is the POST of its body to the token
      endpoint; `Saved` records whether the save succeeded. */
  datatype Step =
    | Loaded
    | Refreshed(body: map<TokenParam, Bytes>)
    | Flowed(actions: seq<Action>)
    | Saved(token: TokenData, ok: bool)

  datatype StartupError = NotConfigured | FlowFailed(cause: OAuthError)

  datatype Run = Run(result: Result<Bytes, StartupError>, steps: seq<Step>, disk: Disk)

  /** The token LoadToken found, with a load error treated as no token. */
  function SavedToken(d: Disk): (t: Option<TokenData>)
    ensures Load(d).Success? ==> t == Load(d).value
    ensures Load(d).Failure? ==> t == None
  {
    match Load(d)
    case Success(t) => t
    case Failure(_) => None
  }

  /** The saved token is valid and not yet within the refresh margin of expiring. */
  predicate SavedUsable(d: Disk, now: int) {
    var t := SavedToken(d);
    t.Some? && IsValid(t.value) && !IsExpired(t.value, now)
  }

  /** The saved token is valid but expired, so a refresh is tried. */
  predicate SavedStale(d: Disk, now: int) {
    var t := SavedToken(d);
    t.Some? && IsValid(t.value) && IsExpired(t.value, now)
  }

  function CountRefreshes(steps: seq<Step>): nat {
    if |steps| == 0 then 0 else (if steps[0].Refreshed? then 1 else 0) + CountRefreshes(steps[1..])
  }

  /** Whether any step saved a token. */
  predicate SavesAny(steps: seq<Step>) {
    exists i | 0 <= i < |steps| :: steps[i].Saved?
  }

  /** getAccessToken. */
  function GetAccessToken(env: Env, w: World): (r: Run)
    ensures env.directToken != [] ==> r == Run(Success(env.directToken), [], w.disk)
    ensures env.directToken == [] && (env.clientId == [] || env.clientSecret == []) ==>
      r == Run(Failure(NotConfigured), [], w.disk)
    ensures env.directToken == [] && env.clientId != [] && env.clientSecret != [] ==>
      r == GetOAuthToken(Config(env.clientId, env.clientSecret), w)
  {
    if env.directToken != [] then Run(Success(env.directToken), [], w.disk)
    else if env.clientId != [] && env.clientSecret != [] then
      GetOAuthToken(Config(env.clientId, env.clientSecret), w)
    else Run(Failure(NotConfigured), [], w.disk)
  }

  /** getOAuthToken. */
  function GetOAuthToken(config: Config, w: World): (r: Run)
    ensures |r.steps| > 0 && r.steps[0] == Loaded
    // A usable saved token is returned as is: no refresh, no flow, no save.
    ensures SavedUsable(w.disk, w.now) ==>
      r == Run(Success(SavedToken(w.disk).value.accessToken), [Loaded], w.disk)
    // A stale saved token is refreshed exactly once, with its own refresh token.
    ensures SavedStale(w.disk, w.now) ==>
      |r.steps| >= 2 && r.steps[1] == Refreshed(RefreshBody(config, SavedToken(w.disk).value.refreshToken))
      && r.steps[1].body[RefreshToken] == SavedToken(w.disk).value.refreshToken
      && CountRefreshes(r.steps) == 1
    ensures !SavedStale(w.disk, w.now) ==> CountRefreshes(r.steps) == 0
    // A successful refresh is saved (a failed save is only a warning) and returned.
    ensures SavedStale(w.disk, w.now) && CheckReply(w.refreshReply, w.now).Success? ==>
      var t := CheckReply(w.refreshReply, w.now).value;
      r.result == Success(t.accessToken) && r.disk == Save(w.disk, t).disk
      && r.steps == [Loaded, Refreshed(RefreshBody(config, SavedToken(w.disk).value.refreshToken)), Saved(t, Save(w.disk, t).result.Pass?)]
    // Anything else runs the interactive flow, once.
    ensures (!SavedUsable(w.disk, w.now)
            && !(SavedStale(w.disk, w.now) && CheckReply(w.refreshReply, w.now).Success?)) ==>
      var f := StartFlow(config, w.listen, w.wait, w.flowReply, w.now);
      var tried := if SavedStale(w.disk, w.now)
        then [Loaded, Refreshed(RefreshBody(config, SavedToken(w.disk).value.refreshToken))] else [Loaded];
      && r.steps == tried + [Flowed(f.actions)]
           + (if f.result.Success? then [Saved(f.result.value, Save(w.disk, f.result.value).result.Pass?)] else [])
      && (f.result.Failure? ==> r.result == Failure(FlowFailed(f.result.error)) && !SavesAny(r.steps) && r.disk == w.disk)
      && (f.result.Success? ==>
            && r.result == Success(f.result.value.accessToken)
            && r.steps[|r.steps| - 1] == Saved(f.result.value, Save(w.disk, f.result.value).result.Pass?)
            && r.disk == Save(w.disk, f.result.value).disk)
  {
    if SavedUsable(w.disk, w.now) then Run(Success(SavedToken(w.disk).value.accessToken), [Loaded], w.disk)
    else WithoutUsable(config, w)
  }

  /** The steps taken before the flow when the saved token is not usable: the load, and a
      refresh when the saved token is stale. */
  function Tried(config: Config, w: World): (steps: seq<Step>)
    ensures steps == if SavedStale(w.disk, w.now)
      then [Loaded, Refreshed(RefreshBody(config, SavedToken(w.disk).value.refreshToken))] else [Loaded]
    ensures CountRefreshes(steps) == if SavedStale(w.disk, w.now) then 1 else 0
    ensures !SavesAny(steps)
  {
    var steps := if SavedStale(w.disk, w.now)
      then [Loaded, Refreshed(RefreshBody(config, SavedToken(w.disk).value.refreshToken))] else [Loaded];
    assert steps[1..] == [] || steps[1..][1..] == [];
    steps
  }

  /** getOAuthToken past the saved-token check: refresh a stale token, and otherwise (or
      when the refresh fails) run the flow. */
  function WithoutUsable(config: Config, w: World): (r: Run)
    requires !SavedUsable(w.disk, w.now)
    ensures |r.steps| > 0 && r.steps[0] == Loaded
    ensures SavedStale(w.disk, w.now) ==>
      |r.steps| >= 2 && r.steps[1] == Refreshed(RefreshBody(config, SavedToken(w.disk).value.refreshToken))
      && CountRefreshes(r.steps) == 1
    ensures !SavedStale(w.disk, w.now) ==> CountRefreshes(r.steps) == 0
    ensures SavedStale(w.disk, w.now) && CheckReply(w.refreshReply, w.now).Success? ==>
      var t := CheckReply(w.refreshReply, w.now).value;
      r.result == Success(t.accessToken) && r.disk == Save(w.disk, t).disk
      && r.steps == Tried(config, w) + [Saved(t, Save(w.disk, t).result.Pass?)]
    ensures !(SavedStale(w.disk, w.now) && CheckReply(w.refreshReply, w.now).Success?) ==>
      r == Interactive(config, w, Tried(config, w))
  {
    var tried := Tried(config, w);
    var refreshed := CheckReply(w.refreshReply, w.now);
    if SavedStale(w.disk, w.now) && refreshed.Success? then
      var saving := Save(w.disk, refreshed.value);
      var steps := tried + [Saved(refreshed.value, saving.result.Pass?)];
      RefreshesAppend(tried, Saved(refreshed.value, saving.result.Pass?));
      Run(Success(refreshed.value.accessToken), steps, saving.disk)
    else
      Interactive(config, w, tried)
  }

  /** The new OAuth flow, after the steps already taken. */
  function Interactive(config: Config, w: World, before: seq<Step>): (r: Run)
    requires !SavesAny(before)
    ensures |r.steps| > |before| && r.steps[..|before|] == before
    ensures CountRefreshes(r.steps) == CountRefreshes(before)
    ensures var f := StartFlow(config, w.listen, w.wait, w.flowReply, w.now);
      && r.steps[|before|] == Flowed(f.actions)
      && (f.result.Failure? ==> r == Run(Failure(FlowFailed(f.result.error)), before + [Flowed(f.actions)], w.disk))
      && (f.result.Success? ==>
            && r.result == Success(f.result.value.accessToken)
            && r.steps == before + [Flowed(f.actions), Saved(f.result.value, Save(w.disk, f.result.value).result.Pass?)]
            && r.disk == Save(w.disk, f.result.value).disk)
    ensures r.result.Failure? ==> !SavesAny(r.steps) && r.disk == w.disk
  {
    AfterFlow(StartFlow(config, w.listen, w.wait, w.flowReply, w.now), w.disk, before)
  }

  /** What startup does with the flow's outcome: a failure is returned as is, and a token
      is saved (a failed save being only a warning) and its access token returned. */
  function AfterFlow(f: FlowRun, disk: Disk, before: seq<Step>): (r: Run)
    requires !SavesAny(before)
    ensures |r.steps| > |before| && r.steps[..|before|] == before
    ensures CountRefreshes(r.steps) == CountRefreshes(before)
    ensures r.steps[|before|] == Flowed(f.actions)
    ensures f.result.Failure? ==> r == Run(Failure(FlowFailed(f.result.error)), before + [Flowed(f.actions)], disk)
    ensures f.result.Success? ==>
      && r.result == Success(f.result.value.accessToken)
      && r.steps == before + [Flowed(f.actions), Saved(f.result.value, Save(disk, f.result.value).result.Pass?)]
      && r.disk == Save(disk, f.result.value).disk
    ensures r.result.Failure? ==> !SavesAny(r.steps) && r.disk == disk
  {
    var flowed := before + [Flowed(f.actions)];
    RefreshesAppend(before, Flowed(f.actions));
    assert !SavesAny(flowed) by {
      forall i | 0 <= i < |flowed| ensures !flowed[i].Saved? {
        if i < |before| { assert flowed[i] == before[i]; }
      }
    }
    match f.result
    case Failure(e) => Run(Failure(FlowFailed(e)), flowed, disk)
    case Success(t) =>
      var saving := Save(disk, t);
      RefreshesAppend(flowed, Saved(t, saving.result.Pass?));
      var steps := flowed + [Saved(t, saving.result.Pass?)];
      assert steps[..|before|] == before;
      Run(Success(t.accessToken), steps, saving.disk)
  }

  lemma {:induction false} RefreshesAppend(steps: seq<Step>, s: Step)
    ensures CountRefreshes(steps + [s]) == CountRefreshes(steps) + (if s.Refreshed? then 1 else 0)
    decreases |steps|
  {
    if |steps| == 0 {
      assert ([] + [s])[1..] == [];
    } else {
      assert (steps + [s])[1..] == steps[1..] + [s];
      RefreshesAppend(steps[1..], s);
    }
  }

  /** A token obtained and saved at one startup is used as is at the next, as long as it is
      valid and not within the refresh margin of expiring then. */
  lemma RestartUsesSaved(config: Config, w: World, later: World)
    requires GetOAuthToken(config, w).result.Success?
    requires var run := GetOAuthToken(config, w);
      var last := run.steps[|run.steps| - 1];
      last.Saved? && last.ok && IsValid(last.token)
    requires later.disk == GetOAuthToken(config, w).disk
    requires var run := GetOAuthToken(config, w);
      !IsExpired(run.steps[|run.steps| - 1].token, later.now)
    ensures GetOAuthToken(config, later).result == GetOAuthToken(config, w).result
    ensures GetOAuthToken(config, later).steps == [Loaded]
  {
    var run := GetOAuthToken(config, w);
    var t := run.steps[|run.steps| - 1].token;
    SavedAfterRun(config, w);
    SaveThenLoad(w.disk, t);
  }

  /** When a run ends with a successful save of token t, it returned t's access token and
      left the disk that save produced. */
  lemma SavedAfterRun(config: Config, w: World)
    requires var run := GetOAuthToken(config, w);
      run.result.Success? && run.steps[|run.steps| - 1].Saved?
    ensures var run := GetOAuthToken(config, w);
      var t := run.steps[|run.steps| - 1].token;
      run.result == Success(t.accessToken) && run.disk == Save(w.disk, t).disk
      && run.steps[|run.steps| - 1].ok == Save(w.disk, t).result.Pass?
  {
  }
}
