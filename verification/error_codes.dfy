/**
  The structured error codes of the Signal Fish protocol. On the wire a code
  is a JSON string holding the variant name in SCREAMING_SNAKE_CASE (serde's
  `rename_all`), and every code has a fixed human-readable description that is
  also its `Display` text.
*/
module ErrorCodes {
  import opened Wrappers
  import opened SnakeCase

  datatype ErrorCode =
    // Authentication errors
    | Unauthorized
    | InvalidToken
    | AuthenticationRequired
    | InvalidAppId
    | AppIdExpired
    | AppIdRevoked
    | AppIdSuspended
    | MissingAppId
    | AuthenticationTimeout
    | SdkVersionUnsupported
    | UnsupportedGameDataFormat
    // Validation errors
    | InvalidInput
    | InvalidGameName
    | InvalidRoomCode
    | InvalidPlayerName
    | InvalidMaxPlayers
    | MessageTooLarge
    // Room errors
    | RoomNotFound
    | RoomFull
    | AlreadyInRoom
    | NotInRoom
    | RoomCreationFailed
    | MaxRoomsPerGameExceeded
    | InvalidRoomState
    // Authority errors
    | AuthorityNotSupported
    | AuthorityConflict
    | AuthorityDenied
    // Rate limiting
    | RateLimitExceeded
    | TooManyConnections
    // Reconnection errors
    | ReconnectionFailed
    | ReconnectionTokenInvalid
    | ReconnectionExpired
    | PlayerAlreadyConnected
    // Spectator errors
    | SpectatorNotAllowed
    | TooManySpectators
    | NotASpectator
    | SpectatorJoinFailed
    // Server errors
    | InternalError
    | StorageError
    | ServiceUnavailable

  /** Characters a wire name is made of. */
  predicate WireChars(s: string) {
    forall i :: 0 <= i < |s| ==> IsUpper(s[i]) || s[i] == '_'
  }

  // ── Names ──────────────────────────────────────────────────────────

  /** The Rust identifier of each variant. */
  function VariantName(c: ErrorCode): string {
    match c
    case Unauthorized => "Unauthorized"
    case InvalidToken => "InvalidToken"
    case AuthenticationRequired => "AuthenticationRequired"
    case InvalidAppId => "InvalidAppId"
    case AppIdExpired => "AppIdExpired"
    case AppIdRevoked => "AppIdRevoked"
    case AppIdSuspended => "AppIdSuspended"
    case MissingAppId => "MissingAppId"
    case AuthenticationTimeout => "AuthenticationTimeout"
    case SdkVersionUnsupported => "SdkVersionUnsupported"
    case UnsupportedGameDataFormat => "UnsupportedGameDataFormat"
    case InvalidInput => "InvalidInput"
    case InvalidGameName => "InvalidGameName"
    case InvalidRoomCode => "InvalidRoomCode"
    case InvalidPlayerName => "InvalidPlayerName"
    case InvalidMaxPlayers => "InvalidMaxPlayers"
    case MessageTooLarge => "MessageTooLarge"
    case RoomNotFound => "RoomNotFound"
    case RoomFull => "RoomFull"
    case AlreadyInRoom => "AlreadyInRoom"
    case NotInRoom => "NotInRoom"
    case RoomCreationFailed => "RoomCreationFailed"
    case MaxRoomsPerGameExceeded => "MaxRoomsPerGameExceeded"
    case InvalidRoomState => "InvalidRoomState"
    case AuthorityNotSupported => "AuthorityNotSupported"
    case AuthorityConflict => "AuthorityConflict"
    case AuthorityDenied => "AuthorityDenied"
    case RateLimitExceeded => "RateLimitExceeded"
    case TooManyConnections => "TooManyConnections"
    case ReconnectionFailed => "ReconnectionFailed"
    case ReconnectionTokenInvalid => "ReconnectionTokenInvalid"
    case ReconnectionExpired => "ReconnectionExpired"
    case PlayerAlreadyConnected => "PlayerAlreadyConnected"
    case SpectatorNotAllowed => "SpectatorNotAllowed"
    case TooManySpectators => "TooManySpectators"
    case NotASpectator => "NotASpectator"
    case SpectatorJoinFailed => "SpectatorJoinFailed"
    case InternalError => "InternalError"
    case StorageError => "StorageError"
    case ServiceUnavailable => "ServiceUnavailable"
  }

  /** The wire name of each code (its JSON string contents). */
  function Name(c: ErrorCode): string {
    match c
    case Unauthorized => "UNAUTHORIZED"
    case InvalidToken => "INVALID_TOKEN"
    case AuthenticationRequired => "AUTHENTICATION_REQUIRED"
    case InvalidAppId => "INVALID_APP_ID"
    case AppIdExpired => "APP_ID_EXPIRED"
    case AppIdRevoked => "APP_ID_REVOKED"
    case AppIdSuspended => "APP_ID_SUSPENDED"
    case MissingAppId => "MISSING_APP_ID"
    case AuthenticationTimeout => "AUTHENTICATION_TIMEOUT"
    case SdkVersionUnsupported => "SDK_VERSION_UNSUPPORTED"
    case UnsupportedGameDataFormat => "UNSUPPORTED_GAME_DATA_FORMAT"
    case InvalidInput => "INVALID_INPUT"
    case InvalidGameName => "INVALID_GAME_NAME"
    case InvalidRoomCode => "INVALID_ROOM_CODE"
    case InvalidPlayerName => "INVALID_PLAYER_NAME"
    case InvalidMaxPlayers => "INVALID_MAX_PLAYERS"
    case MessageTooLarge => "MESSAGE_TOO_LARGE"
    case RoomNotFound => "ROOM_NOT_FOUND"
    case RoomFull => "ROOM_FULL"
    case AlreadyInRoom => "ALREADY_IN_ROOM"
    case NotInRoom => "NOT_IN_ROOM"
    case RoomCreationFailed => "ROOM_CREATION_FAILED"
    case MaxRoomsPerGameExceeded => "MAX_ROOMS_PER_GAME_EXCEEDED"
    case InvalidRoomState => "INVALID_ROOM_STATE"
    case AuthorityNotSupported => "AUTHORITY_NOT_SUPPORTED"
    case AuthorityConflict => "AUTHORITY_CONFLICT"
    case AuthorityDenied => "AUTHORITY_DENIED"
    case RateLimitExceeded => "RATE_LIMIT_EXCEEDED"
    case TooManyConnections => "TOO_MANY_CONNECTIONS"
    case ReconnectionFailed => "RECONNECTION_FAILED"
    case ReconnectionTokenInvalid => "RECONNECTION_TOKEN_INVALID"
    case ReconnectionExpired => "RECONNECTION_EXPIRED"
    case PlayerAlreadyConnected => "PLAYER_ALREADY_CONNECTED"
    case SpectatorNotAllowed => "SPECTATOR_NOT_ALLOWED"
    case TooManySpectators => "TOO_MANY_SPECTATORS"
    case NotASpectator => "NOT_A_SPECTATOR"
    case SpectatorJoinFailed => "SPECTATOR_JOIN_FAILED"
    case InternalError => "INTERNAL_ERROR"
    case StorageError => "STORAGE_ERROR"
    case ServiceUnavailable => "SERVICE_UNAVAILABLE"
  }

  /**
    Decoding a wire name; an unknown name is rejected. The names are compared
    within groups of equal length, which is the same function as comparing
    against all forty in turn.
  */
  function Parse(s: string): (r: Option<ErrorCode>)
    ensures r.Some? ==> Name(r.value) == s
  {
    match |s|
    case 9 =>
      if s == Name(RoomFull) then Some(RoomFull)
      else None
    case 11 =>
      if s == Name(NotInRoom) then Some(NotInRoom)
      else None
    case 12 =>
      if s == Name(Unauthorized) then Some(Unauthorized)
      else None
    case 13 =>
      if s == Name(InvalidToken) then Some(InvalidToken)
      else if s == Name(InvalidInput) then Some(InvalidInput)
      else if s == Name(StorageError) then Some(StorageError)
      else None
    case 14 =>
      if s == Name(InvalidAppId) then Some(InvalidAppId)
      else if s == Name(AppIdExpired) then Some(AppIdExpired)
      else if s == Name(AppIdRevoked) then Some(AppIdRevoked)
      else if s == Name(MissingAppId) then Some(MissingAppId)
      else if s == Name(RoomNotFound) then Some(RoomNotFound)
      else if s == Name(InternalError) then Some(InternalError)
      else None
    case 15 =>
      if s == Name(AlreadyInRoom) then Some(AlreadyInRoom)
      else if s == Name(NotASpectator) then Some(NotASpectator)
      else None
    case 16 =>
      if s == Name(AppIdSuspended) then Some(AppIdSuspended)
      else if s == Name(AuthorityDenied) then Some(AuthorityDenied)
      else None
    case 17 =>
      if s == Name(InvalidGameName) then Some(InvalidGameName)
      else if s == Name(InvalidRoomCode) then Some(InvalidRoomCode)
      else if s == Name(MessageTooLarge) then Some(MessageTooLarge)
      else None
    case 18 =>
      if s == Name(InvalidRoomState) then Some(InvalidRoomState)
      else if s == Name(AuthorityConflict) then Some(AuthorityConflict)
      else None
    case 19 =>
      if s == Name(InvalidPlayerName) then Some(InvalidPlayerName)
      else if s == Name(InvalidMaxPlayers) then Some(InvalidMaxPlayers)
      else if s == Name(RateLimitExceeded) then Some(RateLimitExceeded)
      else if s == Name(ReconnectionFailed) then Some(ReconnectionFailed)
      else if s == Name(TooManySpectators) then Some(TooManySpectators)
      else if s == Name(ServiceUnavailable) then Some(ServiceUnavailable)
      else None
    case 20 =>
      if s == Name(RoomCreationFailed) then Some(RoomCreationFailed)
      else if s == Name(TooManyConnections) then Some(TooManyConnections)
      else if s == Name(ReconnectionExpired) then Some(ReconnectionExpired)
      else None
    case 21 =>
      if s == Name(SpectatorNotAllowed) then Some(SpectatorNotAllowed)
      else if s == Name(SpectatorJoinFailed) then Some(SpectatorJoinFailed)
      else None
    case 22 =>
      if s == Name(AuthenticationTimeout) then Some(AuthenticationTimeout)
      else None
    case 23 =>
      if s == Name(AuthenticationRequired) then Some(AuthenticationRequired)
      else if s == Name(SdkVersionUnsupported) then Some(SdkVersionUnsupported)
      else if s == Name(AuthorityNotSupported) then Some(AuthorityNotSupported)
      else None
    case 24 =>
      if s == Name(PlayerAlreadyConnected) then Some(PlayerAlreadyConnected)
      else None
    case 26 =>
      if s == Name(ReconnectionTokenInvalid) then Some(ReconnectionTokenInvalid)
      else None
    case 27 =>
      if s == Name(MaxRoomsPerGameExceeded) then Some(MaxRoomsPerGameExceeded)
      else None
    case 28 =>
      if s == Name(UnsupportedGameDataFormat) then Some(UnsupportedGameDataFormat)
      else None
    case _ => None
  }

  /** Every code reads back from its wire name. */
  lemma ParseName(c: ErrorCode)
    ensures Parse(Name(c)) == Some(c)
  {
    match c {
    case Unauthorized => ParsesUnauthorized();
    case InvalidToken => ParsesInvalidToken();
    case AuthenticationRequired => ParsesAuthenticationRequired();
    case InvalidAppId => ParsesInvalidAppId();
    case AppIdExpired => ParsesAppIdExpired();
    case AppIdRevoked => ParsesAppIdRevoked();
    case AppIdSuspended => ParsesAppIdSuspended();
    case MissingAppId => ParsesMissingAppId();
    case AuthenticationTimeout => ParsesAuthenticationTimeout();
    case SdkVersionUnsupported => ParsesSdkVersionUnsupported();
    case UnsupportedGameDataFormat => ParsesUnsupportedGameDataFormat();
    case InvalidInput => ParsesInvalidInput();
    case InvalidGameName => ParsesInvalidGameName();
    case InvalidRoomCode => ParsesInvalidRoomCode();
    case InvalidPlayerName => ParsesInvalidPlayerName();
    case InvalidMaxPlayers => ParsesInvalidMaxPlayers();
    case MessageTooLarge => ParsesMessageTooLarge();
    case RoomNotFound => ParsesRoomNotFound();
    case RoomFull => ParsesRoomFull();
    case AlreadyInRoom => ParsesAlreadyInRoom();
    case NotInRoom => ParsesNotInRoom();
    case RoomCreationFailed => ParsesRoomCreationFailed();
    case MaxRoomsPerGameExceeded => ParsesMaxRoomsPerGameExceeded();
    case InvalidRoomState => ParsesInvalidRoomState();
    case AuthorityNotSupported => ParsesAuthorityNotSupported();
    case AuthorityConflict => ParsesAuthorityConflict();
    case AuthorityDenied => ParsesAuthorityDenied();
    case RateLimitExceeded => ParsesRateLimitExceeded();
    case TooManyConnections => ParsesTooManyConnections();
    case ReconnectionFailed => ParsesReconnectionFailed();
    case ReconnectionTokenInvalid => ParsesReconnectionTokenInvalid();
    case ReconnectionExpired => ParsesReconnectionExpired();
    case PlayerAlreadyConnected => ParsesPlayerAlreadyConnected();
    case SpectatorNotAllowed => ParsesSpectatorNotAllowed();
    case TooManySpectators => ParsesTooManySpectators();
    case NotASpectator => ParsesNotASpectator();
    case SpectatorJoinFailed => ParsesSpectatorJoinFailed();
    case InternalError => ParsesInternalError();
    case StorageError => ParsesStorageError();
    case ServiceUnavailable => ParsesServiceUnavailable();
    }
  }

  /** Every wire name is made of upper-case letters and underscores. */
  lemma NameSpelling(c: ErrorCode)
    ensures WireChars(Name(c))
  {
    match c {
    case Unauthorized => SpellsUnauthorized();
    case InvalidToken => SpellsInvalidToken();
    case AuthenticationRequired => SpellsAuthenticationRequired();
    case InvalidAppId => SpellsInvalidAppId();
    case AppIdExpired => SpellsAppIdExpired();
    case AppIdRevoked => SpellsAppIdRevoked();
    case AppIdSuspended => SpellsAppIdSuspended();
    case MissingAppId => SpellsMissingAppId();
    case AuthenticationTimeout => SpellsAuthenticationTimeout();
    case SdkVersionUnsupported => SpellsSdkVersionUnsupported();
    case UnsupportedGameDataFormat => SpellsUnsupportedGameDataFormat();
    case InvalidInput => SpellsInvalidInput();
    case InvalidGameName => SpellsInvalidGameName();
    case InvalidRoomCode => SpellsInvalidRoomCode();
    case InvalidPlayerName => SpellsInvalidPlayerName();
    case InvalidMaxPlayers => SpellsInvalidMaxPlayers();
    case MessageTooLarge => SpellsMessageTooLarge();
    case RoomNotFound => SpellsRoomNotFound();
    case RoomFull => SpellsRoomFull();
    case AlreadyInRoom => SpellsAlreadyInRoom();
    case NotInRoom => SpellsNotInRoom();
    case RoomCreationFailed => SpellsRoomCreationFailed();
    case MaxRoomsPerGameExceeded => SpellsMaxRoomsPerGameExceeded();
    case InvalidRoomState => SpellsInvalidRoomState();
    case AuthorityNotSupported => SpellsAuthorityNotSupported();
    case AuthorityConflict => SpellsAuthorityConflict();
    case AuthorityDenied => SpellsAuthorityDenied();
    case RateLimitExceeded => SpellsRateLimitExceeded();
    case TooManyConnections => SpellsTooManyConnections();
    case ReconnectionFailed => SpellsReconnectionFailed();
    case ReconnectionTokenInvalid => SpellsReconnectionTokenInvalid();
    case ReconnectionExpired => SpellsReconnectionExpired();
    case PlayerAlreadyConnected => SpellsPlayerAlreadyConnected();
    case SpectatorNotAllowed => SpellsSpectatorNotAllowed();
    case TooManySpectators => SpellsTooManySpectators();
    case NotASpectator => SpellsNotASpectator();
    case SpectatorJoinFailed => SpellsSpectatorJoinFailed();
    case InternalError => SpellsInternalError();
    case StorageError => SpellsStorageError();
    case ServiceUnavailable => SpellsServiceUnavailable();
    }
  }

  /** Every wire name is the SCREAMING_SNAKE_CASE of the variant's Rust name. */
  lemma NameFollowsRenameRule(c: ErrorCode)
    ensures Name(c) == ScreamingSnake(VariantName(c))
  {
    match c {
    case Unauthorized => RenamesUnauthorized();
    case InvalidToken => RenamesInvalidToken();
    case AuthenticationRequired => RenamesAuthenticationRequired();
    case InvalidAppId => RenamesInvalidAppId();
    case AppIdExpired => RenamesAppIdExpired();
    case AppIdRevoked => RenamesAppIdRevoked();
    case AppIdSuspended => RenamesAppIdSuspended();
    case MissingAppId => RenamesMissingAppId();
    case AuthenticationTimeout => RenamesAuthenticationTimeout();
    case SdkVersionUnsupported => RenamesSdkVersionUnsupported();
    case UnsupportedGameDataFormat => RenamesUnsupportedGameDataFormat();
    case InvalidInput => RenamesInvalidInput();
    case InvalidGameName => RenamesInvalidGameName();
    case InvalidRoomCode => RenamesInvalidRoomCode();
    case InvalidPlayerName => RenamesInvalidPlayerName();
    case InvalidMaxPlayers => RenamesInvalidMaxPlayers();
    case MessageTooLarge => RenamesMessageTooLarge();
    case RoomNotFound => RenamesRoomNotFound();
    case RoomFull => RenamesRoomFull();
    case AlreadyInRoom => RenamesAlreadyInRoom();
    case NotInRoom => RenamesNotInRoom();
    case RoomCreationFailed => RenamesRoomCreationFailed();
    case MaxRoomsPerGameExceeded => RenamesMaxRoomsPerGameExceeded();
    case InvalidRoomState => RenamesInvalidRoomState();
    case AuthorityNotSupported => RenamesAuthorityNotSupported();
    case AuthorityConflict => RenamesAuthorityConflict();
    case AuthorityDenied => RenamesAuthorityDenied();
    case RateLimitExceeded => RenamesRateLimitExceeded();
    case TooManyConnections => RenamesTooManyConnections();
    case ReconnectionFailed => RenamesReconnectionFailed();
    case ReconnectionTokenInvalid => RenamesReconnectionTokenInvalid();
    case ReconnectionExpired => RenamesReconnectionExpired();
    case PlayerAlreadyConnected => RenamesPlayerAlreadyConnected();
    case SpectatorNotAllowed => RenamesSpectatorNotAllowed();
    case TooManySpectators => RenamesTooManySpectators();
    case NotASpectator => RenamesNotASpectator();
    case SpectatorJoinFailed => RenamesSpectatorJoinFailed();
    case InternalError => RenamesInternalError();
    case StorageError => RenamesStorageError();
    case ServiceUnavailable => RenamesServiceUnavailable();
    }
  }

  /** Exactly the forty wire names decode: anything else is rejected. */
  lemma ParseRejects(s: string)
    requires Parse(s).None?
    ensures forall c :: Name(c) != s
  {
    forall c ensures Name(c) != s {
      ParseName(c);
    }
  }

  /** The wire name of the rate-limit code decodes to it. */
  lemma RateLimitExceededFromWire()
    ensures Parse("RATE_LIMIT_EXCEEDED") == Some(RateLimitExceeded)
  {
    ParsesRateLimitExceeded();
    assert Name(RateLimitExceeded) == "RATE_LIMIT_EXCEEDED";
  }

  /** `RoomNotFound` is written as `ROOM_NOT_FOUND` and read back from it. */
  lemma RoomNotFoundOnWire()
    ensures Name(RoomNotFound) == "ROOM_NOT_FOUND"
    ensures Parse("ROOM_NOT_FOUND") == Some(RoomNotFound)
  {
    ParsesRoomNotFound();
  }

  lemma NameInjective(c: ErrorCode, d: ErrorCode)
    requires Name(c) == Name(d)
    ensures c == d
  {
    ParseName(c);
    ParseName(d);
  }

  // ── Per-code instances ─────────────────────────────────────────────
  // The lemmas below state nothing new. Each is one instance of `ParseName`,
  // `NameSpelling` or `DescriptionNotEmpty` for a single code. They exist so
  // that each proof steps through one fixed string and the solver never
  // unfolds all forty names at once.

  // Instances of `ParseName`.

  lemma ParsesUnauthorized() ensures Parse(Name(Unauthorized)) == Some(Unauthorized) {}
  lemma ParsesInvalidToken() ensures Parse(Name(InvalidToken)) == Some(InvalidToken) {}
  lemma ParsesAuthenticationRequired() ensures Parse(Name(AuthenticationRequired)) == Some(AuthenticationRequired) {}
  lemma ParsesInvalidAppId() ensures Parse(Name(InvalidAppId)) == Some(InvalidAppId) {}
  lemma ParsesAppIdExpired()
    ensures Parse(Name(AppIdExpired)) == Some(AppIdExpired)
  {
    assert Name(AppIdExpired)[0] != Name(InvalidAppId)[0];
  }
  lemma ParsesAppIdRevoked()
    ensures Parse(Name(AppIdRevoked)) == Some(AppIdRevoked)
  {
    assert Name(AppIdRevoked)[0] != Name(InvalidAppId)[0];
    assert Name(AppIdRevoked)[7] != Name(AppIdExpired)[7];
  }
  lemma ParsesAppIdSuspended() ensures Parse(Name(AppIdSuspended)) == Some(AppIdSuspended) {}
  lemma ParsesMissingAppId()
    ensures Parse(Name(MissingAppId)) == Some(MissingAppId)
  {
    assert Name(MissingAppId)[0] != Name(InvalidAppId)[0];
    assert Name(MissingAppId)[0] != Name(AppIdExpired)[0];
    assert Name(MissingAppId)[0] != Name(AppIdRevoked)[0];
  }
  lemma ParsesAuthenticationTimeout() ensures Parse(Name(AuthenticationTimeout)) == Some(AuthenticationTimeout) {}
  lemma ParsesSdkVersionUnsupported()
    ensures Parse(Name(SdkVersionUnsupported)) == Some(SdkVersionUnsupported)
  {
    assert Name(SdkVersionUnsupported)[0] != Name(AuthenticationRequired)[0];
  }
  lemma ParsesUnsupportedGameDataFormat() ensures Parse(Name(UnsupportedGameDataFormat)) == Some(UnsupportedGameDataFormat) {}
  lemma ParsesInvalidInput()
    ensures Parse(Name(InvalidInput)) == Some(InvalidInput)
  {
    assert Name(InvalidInput)[8] != Name(InvalidToken)[8];
  }
  lemma ParsesInvalidGameName() ensures Parse(Name(InvalidGameName)) == Some(InvalidGameName) {}
  lemma ParsesInvalidRoomCode()
    ensures Parse(Name(InvalidRoomCode)) == Some(InvalidRoomCode)
  {
    assert Name(InvalidRoomCode)[8] != Name(InvalidGameName)[8];
  }
  lemma ParsesInvalidPlayerName() ensures Parse(Name(InvalidPlayerName)) == Some(InvalidPlayerName) {}
  lemma ParsesInvalidMaxPlayers()
    ensures Parse(Name(InvalidMaxPlayers)) == Some(InvalidMaxPlayers)
  {
    assert Name(InvalidMaxPlayers)[8] != Name(InvalidPlayerName)[8];
  }
  lemma ParsesMessageTooLarge()
    ensures Parse(Name(MessageTooLarge)) == Some(MessageTooLarge)
  {
    assert Name(MessageTooLarge)[0] != Name(InvalidGameName)[0];
    assert Name(MessageTooLarge)[0] != Name(InvalidRoomCode)[0];
  }
  lemma ParsesRoomNotFound()
    ensures Parse(Name(RoomNotFound)) == Some(RoomNotFound)
  {
    assert Name(RoomNotFound)[0] != Name(InvalidAppId)[0];
    assert Name(RoomNotFound)[0] != Name(AppIdExpired)[0];
    assert Name(RoomNotFound)[0] != Name(AppIdRevoked)[0];
    assert Name(RoomNotFound)[0] != Name(MissingAppId)[0];
  }
  lemma ParsesRoomFull() ensures Parse(Name(RoomFull)) == Some(RoomFull) {}
  lemma ParsesAlreadyInRoom() ensures Parse(Name(AlreadyInRoom)) == Some(AlreadyInRoom) {}
  lemma ParsesNotInRoom() ensures Parse(Name(NotInRoom)) == Some(NotInRoom) {}
  lemma ParsesRoomCreationFailed() ensures Parse(Name(RoomCreationFailed)) == Some(RoomCreationFailed) {}
  lemma ParsesMaxRoomsPerGameExceeded() ensures Parse(Name(MaxRoomsPerGameExceeded)) == Some(MaxRoomsPerGameExceeded) {}
  lemma ParsesInvalidRoomState() ensures Parse(Name(InvalidRoomState)) == Some(InvalidRoomState) {}
  lemma ParsesAuthorityNotSupported()
    ensures Parse(Name(AuthorityNotSupported)) == Some(AuthorityNotSupported)
  {
    assert Name(AuthorityNotSupported)[4] != Name(AuthenticationRequired)[4];
    assert Name(AuthorityNotSupported)[0] != Name(SdkVersionUnsupported)[0];
  }
  lemma ParsesAuthorityConflict()
    ensures Parse(Name(AuthorityConflict)) == Some(AuthorityConflict)
  {
    assert Name(AuthorityConflict)[0] != Name(InvalidRoomState)[0];
  }
  lemma ParsesAuthorityDenied()
    ensures Parse(Name(AuthorityDenied)) == Some(AuthorityDenied)
  {
    assert Name(AuthorityDenied)[1] != Name(AppIdSuspended)[1];
  }
  lemma ParsesRateLimitExceeded()
    ensures Parse(Name(RateLimitExceeded)) == Some(RateLimitExceeded)
  {
    assert Name(RateLimitExceeded)[0] != Name(InvalidPlayerName)[0];
    assert Name(RateLimitExceeded)[0] != Name(InvalidMaxPlayers)[0];
  }
  lemma ParsesTooManyConnections()
    ensures Parse(Name(TooManyConnections)) == Some(TooManyConnections)
  {
    assert Name(TooManyConnections)[0] != Name(RoomCreationFailed)[0];
  }
  lemma ParsesReconnectionFailed()
    ensures Parse(Name(ReconnectionFailed)) == Some(ReconnectionFailed)
  {
    assert Name(ReconnectionFailed)[0] != Name(InvalidPlayerName)[0];
    assert Name(ReconnectionFailed)[0] != Name(InvalidMaxPlayers)[0];
    assert Name(ReconnectionFailed)[1] != Name(RateLimitExceeded)[1];
  }
  lemma ParsesReconnectionTokenInvalid() ensures Parse(Name(ReconnectionTokenInvalid)) == Some(ReconnectionTokenInvalid) {}
  lemma ParsesReconnectionExpired()
    ensures Parse(Name(ReconnectionExpired)) == Some(ReconnectionExpired)
  {
    assert Name(ReconnectionExpired)[1] != Name(RoomCreationFailed)[1];
    assert Name(ReconnectionExpired)[0] != Name(TooManyConnections)[0];
  }
  lemma ParsesPlayerAlreadyConnected() ensures Parse(Name(PlayerAlreadyConnected)) == Some(PlayerAlreadyConnected) {}
  lemma ParsesSpectatorNotAllowed() ensures Parse(Name(SpectatorNotAllowed)) == Some(SpectatorNotAllowed) {}
  lemma ParsesTooManySpectators()
    ensures Parse(Name(TooManySpectators)) == Some(TooManySpectators)
  {
    assert Name(TooManySpectators)[0] != Name(InvalidPlayerName)[0];
    assert Name(TooManySpectators)[0] != Name(InvalidMaxPlayers)[0];
    assert Name(TooManySpectators)[0] != Name(RateLimitExceeded)[0];
    assert Name(TooManySpectators)[0] != Name(ReconnectionFailed)[0];
  }
  lemma ParsesNotASpectator()
    ensures Parse(Name(NotASpectator)) == Some(NotASpectator)
  {
    assert Name(NotASpectator)[0] != Name(AlreadyInRoom)[0];
  }
  lemma ParsesSpectatorJoinFailed()
    ensures Parse(Name(SpectatorJoinFailed)) == Some(SpectatorJoinFailed)
  {
    assert Name(SpectatorJoinFailed)[10] != Name(SpectatorNotAllowed)[10];
  }
  lemma ParsesInternalError()
    ensures Parse(Name(InternalError)) == Some(InternalError)
  {
    assert Name(InternalError)[2] != Name(InvalidAppId)[2];
    assert Name(InternalError)[0] != Name(AppIdExpired)[0];
    assert Name(InternalError)[0] != Name(AppIdRevoked)[0];
    assert Name(InternalError)[0] != Name(MissingAppId)[0];
    assert Name(InternalError)[0] != Name(RoomNotFound)[0];
  }
  lemma ParsesStorageError()
    ensures Parse(Name(StorageError)) == Some(StorageError)
  {
    assert Name(StorageError)[0] != Name(InvalidToken)[0];
    assert Name(StorageError)[0] != Name(InvalidInput)[0];
  }
  lemma ParsesServiceUnavailable()
    ensures Parse(Name(ServiceUnavailable)) == Some(ServiceUnavailable)
  {
    assert Name(ServiceUnavailable)[0] != Name(InvalidPlayerName)[0];
    assert Name(ServiceUnavailable)[0] != Name(InvalidMaxPlayers)[0];
    assert Name(ServiceUnavailable)[0] != Name(RateLimitExceeded)[0];
    assert Name(ServiceUnavailable)[0] != Name(ReconnectionFailed)[0];
    assert Name(ServiceUnavailable)[0] != Name(TooManySpectators)[0];
  }

  // Instances of `NameSpelling`.
  lemma SpellsUnauthorized() ensures WireChars(Name(Unauthorized)) {}
  lemma SpellsInvalidToken() ensures WireChars(Name(InvalidToken)) {}
  lemma SpellsAuthenticationRequired() ensures WireChars(Name(AuthenticationRequired)) {}
  lemma SpellsInvalidAppId() ensures WireChars(Name(InvalidAppId)) {}
  lemma SpellsAppIdExpired() ensures WireChars(Name(AppIdExpired)) {}
  lemma SpellsAppIdRevoked() ensures WireChars(Name(AppIdRevoked)) {}
  lemma SpellsAppIdSuspended() ensures WireChars(Name(AppIdSuspended)) {}
  lemma SpellsMissingAppId() ensures WireChars(Name(MissingAppId)) {}
  lemma SpellsAuthenticationTimeout() ensures WireChars(Name(AuthenticationTimeout)) {}
  lemma SpellsSdkVersionUnsupported() ensures WireChars(Name(SdkVersionUnsupported)) {}
  lemma SpellsUnsupportedGameDataFormat() ensures WireChars(Name(UnsupportedGameDataFormat)) {}
  lemma SpellsInvalidInput() ensures WireChars(Name(InvalidInput)) {}
  lemma SpellsInvalidGameName() ensures WireChars(Name(InvalidGameName)) {}
  lemma SpellsInvalidRoomCode() ensures WireChars(Name(InvalidRoomCode)) {}
  lemma SpellsInvalidPlayerName() ensures WireChars(Name(InvalidPlayerName)) {}
  lemma SpellsInvalidMaxPlayers() ensures WireChars(Name(InvalidMaxPlayers)) {}
  lemma SpellsMessageTooLarge() ensures WireChars(Name(MessageTooLarge)) {}
  lemma SpellsRoomNotFound() ensures WireChars(Name(RoomNotFound)) {}
  lemma SpellsRoomFull() ensures WireChars(Name(RoomFull)) {}
  lemma SpellsAlreadyInRoom() ensures WireChars(Name(AlreadyInRoom)) {}
  lemma SpellsNotInRoom() ensures WireChars(Name(NotInRoom)) {}
  lemma SpellsRoomCreationFailed() ensures WireChars(Name(RoomCreationFailed)) {}
  lemma SpellsMaxRoomsPerGameExceeded() ensures WireChars(Name(MaxRoomsPerGameExceeded)) {}
  lemma SpellsInvalidRoomState() ensures WireChars(Name(InvalidRoomState)) {}
  lemma SpellsAuthorityNotSupported() ensures WireChars(Name(AuthorityNotSupported)) {}
  lemma SpellsAuthorityConflict() ensures WireChars(Name(AuthorityConflict)) {}
  lemma SpellsAuthorityDenied() ensures WireChars(Name(AuthorityDenied)) {}
  lemma SpellsRateLimitExceeded() ensures WireChars(Name(RateLimitExceeded)) {}
  lemma SpellsTooManyConnections() ensures WireChars(Name(TooManyConnections)) {}
  lemma SpellsReconnectionFailed() ensures WireChars(Name(ReconnectionFailed)) {}
  lemma SpellsReconnectionTokenInvalid() ensures WireChars(Name(ReconnectionTokenInvalid)) {}
  lemma SpellsReconnectionExpired() ensures WireChars(Name(ReconnectionExpired)) {}
  lemma SpellsPlayerAlreadyConnected() ensures WireChars(Name(PlayerAlreadyConnected)) {}
  lemma SpellsSpectatorNotAllowed() ensures WireChars(Name(SpectatorNotAllowed)) {}
  lemma SpellsTooManySpectators() ensures WireChars(Name(TooManySpectators)) {}
  lemma SpellsNotASpectator() ensures WireChars(Name(NotASpectator)) {}
  lemma SpellsSpectatorJoinFailed() ensures WireChars(Name(SpectatorJoinFailed)) {}
  lemma SpellsInternalError() ensures WireChars(Name(InternalError)) {}
  lemma SpellsStorageError() ensures WireChars(Name(StorageError)) {}
  lemma SpellsServiceUnavailable() ensures WireChars(Name(ServiceUnavailable)) {}

  // ── Descriptions ───────────────────────────────────────────────────

  /** A human-readable, actionable explanation of each code. */
  function Description(c: ErrorCode): string {
    match c
    case Unauthorized =>
      "Access denied. Authentication credentials are missing or invalid."
    case InvalidToken =>
      "The authentication token is invalid, malformed, or has expired. Please obtain a new token."
    case AuthenticationRequired =>
      "This operation requires authentication. Please provide valid credentials."
    case InvalidAppId =>
      "The provided application ID is not recognized. Verify your app ID is correct."
    case AppIdExpired =>
      "The application ID has expired. Please renew your application registration."
    case AppIdRevoked =>
      "The application ID has been revoked. Contact the administrator for assistance."
    case AppIdSuspended =>
      "The application ID has been suspended. Contact the administrator for assistance."
    case MissingAppId =>
      "Application ID is required but was not provided. Include your app ID in the request."
    case AuthenticationTimeout =>
      "Authentication took too long to complete. Please try again."
    case SdkVersionUnsupported =>
      "The SDK version you are using is no longer supported. Please upgrade to the latest version."
    case UnsupportedGameDataFormat =>
      "The requested game data format is not supported by this server. Falling back to JSON encoding."
    case InvalidInput =>
      "The provided input is invalid or malformed. Check your request parameters."
    case InvalidGameName =>
      "The game name is invalid. Game names must be non-empty and follow naming requirements."
    case InvalidRoomCode =>
      "The room code is invalid or malformed. Room codes must follow the required format."
    case InvalidPlayerName =>
      "The player name is invalid. Player names must be non-empty and meet length requirements."
    case InvalidMaxPlayers =>
      "The maximum player count is invalid. It must be a positive number within allowed limits."
    case MessageTooLarge =>
      "The message size exceeds the maximum allowed limit. Please send a smaller message."
    case RoomNotFound =>
      "The requested room could not be found. It may have been closed or the code is incorrect."
    case RoomFull =>
      "The room has reached its maximum player capacity. Try joining a different room."
    case AlreadyInRoom =>
      "You are already in a room. Leave the current room before joining another."
    case NotInRoom =>
      "You are not currently in any room. Join a room before performing this action."
    case RoomCreationFailed =>
      "Failed to create the room. Please try again or contact support if the issue persists."
    case MaxRoomsPerGameExceeded =>
      "The maximum number of rooms for this game has been reached. Please try again later."
    case InvalidRoomState =>
      "The room is in an invalid state for this operation. Try refreshing or rejoining the room."
    case AuthorityNotSupported =>
      "Authority features are not enabled on this server. Check your server configuration."
    case AuthorityConflict =>
      "Another client has already claimed authority. Only one client can have authority at a time."
    case AuthorityDenied =>
      "You do not have permission to claim authority in this room."
    case RateLimitExceeded =>
      "Too many requests in a short time. Please slow down and try again later."
    case TooManyConnections =>
      "You have too many active connections. Close some connections before opening new ones."
    case ReconnectionFailed =>
      "Failed to reconnect to the room. The session may have expired or the room may be closed."
    case ReconnectionTokenInvalid =>
      "The reconnection token is invalid or malformed. You may need to join the room again."
    case ReconnectionExpired =>
      "The reconnection window has expired. You must join the room again as a new player."
    case PlayerAlreadyConnected =>
      "This player is already connected to the room from another session."
    case SpectatorNotAllowed =>
      "Spectator mode is not enabled for this room. Only players can join."
    case TooManySpectators =>
      "The room has reached its maximum spectator capacity. Try again later."
    case NotASpectator =>
      "You are not a spectator in this room. This action is only available to spectators."
    case SpectatorJoinFailed =>
      "Failed to join as a spectator. The room may be full or spectating may be disabled."
    case InternalError =>
      "An internal server error occurred. Please try again or contact support if the issue persists."
    case StorageError =>
      "A storage error occurred while processing your request. Please try again later."
    case ServiceUnavailable =>
      "The service is temporarily unavailable. Please try again in a few moments."
  }

  /** Every code has a description. */
  lemma DescriptionNotEmpty(c: ErrorCode)
    ensures |Description(c)| > 0
  {
    match c {
    case Unauthorized => DescribesUnauthorized();
    case InvalidToken => DescribesInvalidToken();
    case AuthenticationRequired => DescribesAuthenticationRequired();
    case InvalidAppId => DescribesInvalidAppId();
    case AppIdExpired => DescribesAppIdExpired();
    case AppIdRevoked => DescribesAppIdRevoked();
    case AppIdSuspended => DescribesAppIdSuspended();
    case MissingAppId => DescribesMissingAppId();
    case AuthenticationTimeout => DescribesAuthenticationTimeout();
    case SdkVersionUnsupported => DescribesSdkVersionUnsupported();
    case UnsupportedGameDataFormat => DescribesUnsupportedGameDataFormat();
    case InvalidInput => DescribesInvalidInput();
    case InvalidGameName => DescribesInvalidGameName();
    case InvalidRoomCode => DescribesInvalidRoomCode();
    case InvalidPlayerName => DescribesInvalidPlayerName();
    case InvalidMaxPlayers => DescribesInvalidMaxPlayers();
    case MessageTooLarge => DescribesMessageTooLarge();
    case RoomNotFound => DescribesRoomNotFound();
    case RoomFull => DescribesRoomFull();
    case AlreadyInRoom => DescribesAlreadyInRoom();
    case NotInRoom => DescribesNotInRoom();
    case RoomCreationFailed => DescribesRoomCreationFailed();
    case MaxRoomsPerGameExceeded => DescribesMaxRoomsPerGameExceeded();
    case InvalidRoomState => DescribesInvalidRoomState();
    case AuthorityNotSupported => DescribesAuthorityNotSupported();
    case AuthorityConflict => DescribesAuthorityConflict();
    case AuthorityDenied => DescribesAuthorityDenied();
    case RateLimitExceeded => DescribesRateLimitExceeded();
    case TooManyConnections => DescribesTooManyConnections();
    case ReconnectionFailed => DescribesReconnectionFailed();
    case ReconnectionTokenInvalid => DescribesReconnectionTokenInvalid();
    case ReconnectionExpired => DescribesReconnectionExpired();
    case PlayerAlreadyConnected => DescribesPlayerAlreadyConnected();
    case SpectatorNotAllowed => DescribesSpectatorNotAllowed();
    case TooManySpectators => DescribesTooManySpectators();
    case NotASpectator => DescribesNotASpectator();
    case SpectatorJoinFailed => DescribesSpectatorJoinFailed();
    case InternalError => DescribesInternalError();
    case StorageError => DescribesStorageError();
    case ServiceUnavailable => DescribesServiceUnavailable();
    }
  }

  // Instances of `DescriptionNotEmpty`.
  lemma DescribesUnauthorized() ensures |Description(Unauthorized)| > 0 {}
  lemma DescribesInvalidToken() ensures |Description(InvalidToken)| > 0 {}
  lemma DescribesAuthenticationRequired() ensures |Description(AuthenticationRequired)| > 0 {}
  lemma DescribesInvalidAppId() ensures |Description(InvalidAppId)| > 0 {}
  lemma DescribesAppIdExpired() ensures |Description(AppIdExpired)| > 0 {}
  lemma DescribesAppIdRevoked() ensures |Description(AppIdRevoked)| > 0 {}
  lemma DescribesAppIdSuspended() ensures |Description(AppIdSuspended)| > 0 {}
  lemma DescribesMissingAppId() ensures |Description(MissingAppId)| > 0 {}
  lemma DescribesAuthenticationTimeout() ensures |Description(AuthenticationTimeout)| > 0 {}
  lemma DescribesSdkVersionUnsupported() ensures |Description(SdkVersionUnsupported)| > 0 {}
  lemma DescribesUnsupportedGameDataFormat() ensures |Description(UnsupportedGameDataFormat)| > 0 {}
  lemma DescribesInvalidInput() ensures |Description(InvalidInput)| > 0 {}
  lemma DescribesInvalidGameName() ensures |Description(InvalidGameName)| > 0 {}
  lemma DescribesInvalidRoomCode() ensures |Description(InvalidRoomCode)| > 0 {}
  lemma DescribesInvalidPlayerName() ensures |Description(InvalidPlayerName)| > 0 {}
  lemma DescribesInvalidMaxPlayers() ensures |Description(InvalidMaxPlayers)| > 0 {}
  lemma DescribesMessageTooLarge() ensures |Description(MessageTooLarge)| > 0 {}
  lemma DescribesRoomNotFound() ensures |Description(RoomNotFound)| > 0 {}
  lemma DescribesRoomFull() ensures |Description(RoomFull)| > 0 {}
  lemma DescribesAlreadyInRoom() ensures |Description(AlreadyInRoom)| > 0 {}
  lemma DescribesNotInRoom() ensures |Description(NotInRoom)| > 0 {}
  lemma DescribesRoomCreationFailed() ensures |Description(RoomCreationFailed)| > 0 {}
  lemma DescribesMaxRoomsPerGameExceeded() ensures |Description(MaxRoomsPerGameExceeded)| > 0 {}
  lemma DescribesInvalidRoomState() ensures |Description(InvalidRoomState)| > 0 {}
  lemma DescribesAuthorityNotSupported() ensures |Description(AuthorityNotSupported)| > 0 {}
  lemma DescribesAuthorityConflict() ensures |Description(AuthorityConflict)| > 0 {}
  lemma DescribesAuthorityDenied() ensures |Description(AuthorityDenied)| > 0 {}
  lemma DescribesRateLimitExceeded() ensures |Description(RateLimitExceeded)| > 0 {}
  lemma DescribesTooManyConnections() ensures |Description(TooManyConnections)| > 0 {}
  lemma DescribesReconnectionFailed() ensures |Description(ReconnectionFailed)| > 0 {}
  lemma DescribesReconnectionTokenInvalid() ensures |Description(ReconnectionTokenInvalid)| > 0 {}
  lemma DescribesReconnectionExpired() ensures |Description(ReconnectionExpired)| > 0 {}
  lemma DescribesPlayerAlreadyConnected() ensures |Description(PlayerAlreadyConnected)| > 0 {}
  lemma DescribesSpectatorNotAllowed() ensures |Description(SpectatorNotAllowed)| > 0 {}
  lemma DescribesTooManySpectators() ensures |Description(TooManySpectators)| > 0 {}
  lemma DescribesNotASpectator() ensures |Description(NotASpectator)| > 0 {}
  lemma DescribesSpectatorJoinFailed() ensures |Description(SpectatorJoinFailed)| > 0 {}
  lemma DescribesInternalError() ensures |Description(InternalError)| > 0 {}
  lemma DescribesStorageError() ensures |Description(StorageError)| > 0 {}
  lemma DescribesServiceUnavailable() ensures |Description(ServiceUnavailable)| > 0 {}

  /** `impl Display for ErrorCode`: a code is shown as its (non-empty) description. */
  function Display(c: ErrorCode): (d: string)
    ensures d == Description(c) && |d| > 0
  {
    DescriptionNotEmpty(c);
    Description(c)
  }
}
