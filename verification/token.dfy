/** The saved OAuth token and its one-file store (auth/token.go). The store is the file
    ~/.raindrop-mcp/token.json; the model keeps only what decides the outcome of each
    call: whether the home directory is known and the config directory can be created,
    what the file holds, and how a write or a removal would go. */
module Token {
  import opened Wrappers
  import opened Bytes

  datatype TokenData = TokenData(
    accessToken: Bytes,
    refreshToken: Bytes,
    expiresAt: int,    // Unix seconds
    tokenType: Bytes)

  /** Tokens are refreshed this many seconds before they expire. */
  const REFRESH_MARGIN: int := 300

  /** Expired, or expiring within the refresh margin, at Unix time `now`. */
  predicate IsExpired(t: TokenData, now: int) {
    now >= t.expiresAt - REFRESH_MARGIN
  }

  /** Both tokens are present. */
  predicate IsValid(t: TokenData) {
    t.accessToken != [] && t.refreshToken != []
  }

  /** Once expired, a token stays expired; one second before the margin it is not. */
  lemma ExpiryMonotone(t: TokenData, now: int, later: int)
    requires now <= later
    ensures IsExpired(t, now) ==> IsExpired(t, later)
    ensures !IsExpired(t, t.expiresAt - REFRESH_MARGIN - 1)
    ensures IsExpired(t, t.expiresAt - REFRESH_MARGIN)
  {
  }

  /** Validity looks at the two tokens only, never at the expiry time or the type. */
  lemma ValidityIgnoresExpiry(t: TokenData, expiresAt: int, tokenType: Bytes)
    ensures IsValid(t) == IsValid(t.(expiresAt := expiresAt, tokenType := tokenType))
  {
  }

  // ---------------------------------------------------------------------------
  // The store

  /** What token.json holds. `Unreadable` is a file that exists but cannot be read;
      `Corrupt` one whose content does not decode as a token. */
  datatype FileState = NoFile | Holds(token: TokenData) | Corrupt | Unreadable

  /** How os.WriteFile would go: it opens (truncating) and then writes. */
  datatype WriteFault = WriteOk | OpenFails | WriteFails

  datatype Disk = Disk(
    homeKnown: bool,       // os.UserHomeDir succeeds
    dirCreatable: bool,    // os.MkdirAll of the config directory succeeds
    file: FileState,
    writeFault: WriteFault,
    removeFails: bool)     // os.Remove fails for a reason other than a missing file

  datatype StoreError =
    | NoHomeDir       // "failed to get home directory"
    | NoConfigDir     // "failed to create config directory"
    | WriteFailed     // "failed to write token file"
    | ReadFailed      // "failed to read token file"
    | ParseFailed     // "failed to parse token file"
    | RemoveFailed    // "failed to delete token file"

  /** A store operation's result together with the disk it leaves. */
  datatype Effect<T> = Effect(disk: Disk, result: T)

  /** getTokenPath: fails when the home directory is unknown or the config directory
      cannot be created. */
  function TokenPath(d: Disk): (r: Outcome<StoreError>)
    ensures r.Pass? <==> d.homeKnown && d.dirCreatable
    ensures !d.homeKnown ==> r == Fail(NoHomeDir)
    ensures d.homeKnown && !d.dirCreatable ==> r == Fail(NoConfigDir)
  {
    if !d.homeKnown then Fail(NoHomeDir)
    else if !d.dirCreatable then Fail(NoConfigDir)
    else Pass
  }

  /** SaveToken. A write that fails after the file was opened leaves it truncated. */
  function Save(d: Disk, t: TokenData): (e: Effect<Outcome<StoreError>>)
    ensures TokenPath(d).Fail? ==> e == Effect(d, TokenPath(d))
    ensures e.result.Pass? <==> TokenPath(d).Pass? && d.writeFault.WriteOk?
    ensures e.result.Pass? ==> e.disk == d.(file := Holds(t))
    ensures TokenPath(d).Pass? && d.writeFault.OpenFails? ==> e == Effect(d, Fail(WriteFailed))
    ensures TokenPath(d).Pass? && d.writeFault.WriteFails? ==> e == Effect(d.(file := Corrupt), Fail(WriteFailed))
  {
    match TokenPath(d)
    case Fail(err) => Effect(d, Fail(err))
    case Pass =>
      match d.writeFault
      case WriteOk => Effect(d.(file := Holds(t)), Pass)
      case OpenFails => Effect(d, Fail(WriteFailed))
      case WriteFails => Effect(d.(file := Corrupt), Fail(WriteFailed))
  }

  /** LoadToken: a missing file is "no token" and not an error. */
  function Load(d: Disk): (r: Result<Option<TokenData>, StoreError>)
    ensures TokenPath(d).Fail? ==> r == Failure(TokenPath(d).error)
    ensures TokenPath(d).Pass? ==>
      match d.file
      case NoFile => r == Success(None)
      case Holds(t) => r == Success(Some(t))
      case Unreadable => r == Failure(ReadFailed)
      case Corrupt => r == Failure(ParseFailed)
  {
    match TokenPath(d)
    case Fail(err) => Failure(err)
    case Pass =>
      match d.file
      case NoFile => Success(None)
      case Unreadable => Failure(ReadFailed)
      case Corrupt => Failure(ParseFailed)
      case Holds(t) => Success(Some(t))
  }

  /** DeleteToken: removing a file that is not there succeeds. */
  function Delete(d: Disk): (e: Effect<Outcome<StoreError>>)
    ensures TokenPath(d).Fail? ==> e == Effect(d, TokenPath(d))
    ensures TokenPath(d).Pass? && d.file.NoFile? ==> e == Effect(d, Pass)
    ensures TokenPath(d).Pass? && !d.file.NoFile? && d.removeFails ==> e == Effect(d, Fail(RemoveFailed))
    ensures TokenPath(d).Pass? && !d.file.NoFile? && !d.removeFails ==> e == Effect(d.(file := NoFile), Pass)
  {
    match TokenPath(d)
    case Fail(err) => Effect(d, Fail(err))
    case Pass =>
      if d.file.NoFile? then Effect(d, Pass)
      else if d.removeFails then Effect(d, Fail(RemoveFailed))
      else Effect(d.(file := NoFile), Pass)
  }

  /** A successful save is read back field for field by the next load. */
  lemma SaveThenLoad(d: Disk, t: TokenData)
    requires Save(d, t).result.Pass?
    ensures Load(Save(d, t).disk) == Success(Some(t))
  {
  }

  /** After a successful delete, the next load finds no token. */
  lemma DeleteThenLoad(d: Disk)
    requires Delete(d).result.Pass?
    ensures Load(Delete(d).disk) == Success(None)
  {
  }

  /** Saving twice is saving once: the second save overwrites the first. */
  lemma SaveOverwrites(d: Disk, t: TokenData, u: TokenData)
    requires Save(d, t).result.Pass?
    ensures Save(Save(d, t).disk, u) == Save(d, u)
  {
  }
}
