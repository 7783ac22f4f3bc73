/**
  The JSON form of the messages a server sends (`ServerMessage`): adjacently
  tagged like the client's. `ProtocolInfo`, `RoomJoined` and `SpectatorJoined`
  carry a payload struct as their whole content; `Reconnected` carries the
  room fields and `missed_events`, an array of server messages, side by side.
*/
module ServerCodec {
  import opened Wrappers
  import opened JsonTree
  import opened Protocol
  import opened ProtocolCodec

  // ── Variant names ──────────────────────────────────────────────────

  /** The variants of `ServerMessage`, as the values of the `"type"` key name them. */
  datatype Tag =
    | AuthenticatedTag
    | ProtocolInfoTag
    | AuthenticationErrorTag
    | RoomJoinedTag
    | RoomJoinFailedTag
    | RoomLeftTag
    | PlayerJoinedTag
    | PlayerLeftTag
    | GameDataTag
    | GameDataBinaryTag
    | AuthorityChangedTag
    | AuthorityResponseTag
    | LobbyStateChangedTag
    | GameStartingTag
    | PongTag
    | ReconnectedTag
    | ReconnectionFailedTag
    | PlayerReconnectedTag
    | SpectatorJoinedTag
    | SpectatorJoinFailedTag
    | SpectatorLeftTag
    | NewSpectatorJoinedTag
    | SpectatorDisconnectedTag
    | ErrorTag

  /** The wire name of a variant: its Rust name, unchanged. */
  function TagName(t: Tag): string {
    match t
    case AuthenticatedTag => "Authenticated"
    case ProtocolInfoTag => "ProtocolInfo"
    case AuthenticationErrorTag => "AuthenticationError"
    case RoomJoinedTag => "RoomJoined"
    case RoomJoinFailedTag => "RoomJoinFailed"
    case RoomLeftTag => "RoomLeft"
    case PlayerJoinedTag => "PlayerJoined"
    case PlayerLeftTag => "PlayerLeft"
    case GameDataTag => "GameData"
    case GameDataBinaryTag => "GameDataBinary"
    case AuthorityChangedTag => "AuthorityChanged"
    case AuthorityResponseTag => "AuthorityResponse"
    case LobbyStateChangedTag => "LobbyStateChanged"
    case GameStartingTag => "GameStarting"
    case PongTag => "Pong"
    case ReconnectedTag => "Reconnected"
    case ReconnectionFailedTag => "ReconnectionFailed"
    case PlayerReconnectedTag => "PlayerReconnected"
    case SpectatorJoinedTag => "SpectatorJoined"
    case SpectatorJoinFailedTag => "SpectatorJoinFailed"
    case SpectatorLeftTag => "SpectatorLeft"
    case NewSpectatorJoinedTag => "NewSpectatorJoined"
    case SpectatorDisconnectedTag => "SpectatorDisconnected"
    case ErrorTag => "Error"
  }

  /**
    Reads a variant name; anything else is unknown. The names are compared
    within groups of equal length, which is the same function as comparing
    against every name in turn.
  */
  function ParseTag(s: string): (r: Option<Tag>)
    ensures r.Some? ==> TagName(r.value) == s
  {
    match |s|
    case 4 =>
      if s == TagName(PongTag) then Some(PongTag)
      else None
    case 5 =>
      if s == TagName(ErrorTag) then Some(ErrorTag)
      else None
    case 8 =>
      if s == TagName(RoomLeftTag) then Some(RoomLeftTag)
      else if s == TagName(GameDataTag) then Some(GameDataTag)
      else None
    case 10 =>
      if s == TagName(RoomJoinedTag) then Some(RoomJoinedTag)
      else if s == TagName(PlayerLeftTag) then Some(PlayerLeftTag)
      else None
    case 11 =>
      if s == TagName(ReconnectedTag) then Some(ReconnectedTag)
      else None
    case 12 =>
      if s == TagName(ProtocolInfoTag) then Some(ProtocolInfoTag)
      else if s == TagName(PlayerJoinedTag) then Some(PlayerJoinedTag)
      else if s == TagName(GameStartingTag) then Some(GameStartingTag)
      else None
    case 13 =>
      if s == TagName(AuthenticatedTag) then Some(AuthenticatedTag)
      else if s == TagName(SpectatorLeftTag) then Some(SpectatorLeftTag)
      else None
    case 14 =>
      if s == TagName(RoomJoinFailedTag) then Some(RoomJoinFailedTag)
      else if s == TagName(GameDataBinaryTag) then Some(GameDataBinaryTag)
      else None
    case 15 =>
      if s == TagName(SpectatorJoinedTag) then Some(SpectatorJoinedTag)
      else None
    case 16 =>
      if s == TagName(AuthorityChangedTag) then Some(AuthorityChangedTag)
      else None
    case 17 =>
      if s == TagName(AuthorityResponseTag) then Some(AuthorityResponseTag)
      else if s == TagName(LobbyStateChangedTag) then Some(LobbyStateChangedTag)
      else if s == TagName(PlayerReconnectedTag) then Some(PlayerReconnectedTag)
      else None
    case 18 =>
      if s == TagName(ReconnectionFailedTag) then Some(ReconnectionFailedTag)
      else if s == TagName(NewSpectatorJoinedTag) then Some(NewSpectatorJoinedTag)
      else None
    case 19 =>
      if s == TagName(AuthenticationErrorTag) then Some(AuthenticationErrorTag)
      else if s == TagName(SpectatorJoinFailedTag) then Some(SpectatorJoinFailedTag)
      else None
    case 21 =>
      if s == TagName(SpectatorDisconnectedTag) then Some(SpectatorDisconnectedTag)
      else None
    case _ => None
  }

  /** Every variant name reads back as its variant, so the names are distinct. */
  lemma ParseTagName(t: Tag)
    ensures ParseTag(TagName(t)) == Some(t)
  {
    match t {
    case AuthenticatedTag => ParsesAuthenticated();
    case ProtocolInfoTag => ParsesProtocolInfo();
    case AuthenticationErrorTag => ParsesAuthenticationError();
    case RoomJoinedTag => ParsesRoomJoined();
    case RoomJoinFailedTag => ParsesRoomJoinFailed();
    case RoomLeftTag => ParsesRoomLeft();
    case PlayerJoinedTag => ParsesPlayerJoined();
    case PlayerLeftTag => ParsesPlayerLeft();
    case GameDataTag => ParsesGameData();
    case GameDataBinaryTag => ParsesGameDataBinary();
    case AuthorityChangedTag => ParsesAuthorityChanged();
    case AuthorityResponseTag => ParsesAuthorityResponse();
    case LobbyStateChangedTag => ParsesLobbyStateChanged();
    case GameStartingTag => ParsesGameStarting();
    case PongTag => ParsesPong();
    case ReconnectedTag => ParsesReconnected();
    case ReconnectionFailedTag => ParsesReconnectionFailed();
    case PlayerReconnectedTag => ParsesPlayerReconnected();
    case SpectatorJoinedTag => ParsesSpectatorJoined();
    case SpectatorJoinFailedTag => ParsesSpectatorJoinFailed();
    case SpectatorLeftTag => ParsesSpectatorLeft();
    case NewSpectatorJoinedTag => ParsesNewSpectatorJoined();
    case SpectatorDisconnectedTag => ParsesSpectatorDisconnected();
    case ErrorTag => ParsesError();
    }
  }

  // Per-variant facts gathered by `ParseTagName`.

  lemma ParsesAuthenticated() ensures ParseTag(TagName(AuthenticatedTag)) == Some(AuthenticatedTag) {}
  lemma ParsesProtocolInfo() ensures ParseTag(TagName(ProtocolInfoTag)) == Some(ProtocolInfoTag) {}
  lemma ParsesAuthenticationError() ensures ParseTag(TagName(AuthenticationErrorTag)) == Some(AuthenticationErrorTag) {}
  lemma ParsesRoomJoined() ensures ParseTag(TagName(RoomJoinedTag)) == Some(RoomJoinedTag) {}
  lemma ParsesRoomJoinFailed() ensures ParseTag(TagName(RoomJoinFailedTag)) == Some(RoomJoinFailedTag) {}
  lemma ParsesRoomLeft() ensures ParseTag(TagName(RoomLeftTag)) == Some(RoomLeftTag) {}
  lemma ParsesPlayerJoined() ensures ParseTag(TagName(PlayerJoinedTag)) == Some(PlayerJoinedTag) {}
  lemma ParsesPlayerLeft() ensures ParseTag(TagName(PlayerLeftTag)) == Some(PlayerLeftTag) {}
  lemma ParsesGameData() ensures ParseTag(TagName(GameDataTag)) == Some(GameDataTag) {}
  lemma ParsesGameDataBinary() ensures ParseTag(TagName(GameDataBinaryTag)) == Some(GameDataBinaryTag) {}
  lemma ParsesAuthorityChanged() ensures ParseTag(TagName(AuthorityChangedTag)) == Some(AuthorityChangedTag) {}
  lemma ParsesAuthorityResponse() ensures ParseTag(TagName(AuthorityResponseTag)) == Some(AuthorityResponseTag) {}
  lemma ParsesLobbyStateChanged() ensures ParseTag(TagName(LobbyStateChangedTag)) == Some(LobbyStateChangedTag) {}
  lemma ParsesGameStarting() ensures ParseTag(TagName(GameStartingTag)) == Some(GameStartingTag) {}
  lemma ParsesPong() ensures ParseTag(TagName(PongTag)) == Some(PongTag) {}
  lemma ParsesReconnected() ensures ParseTag(TagName(ReconnectedTag)) == Some(ReconnectedTag) {}
  lemma ParsesReconnectionFailed() ensures ParseTag(TagName(ReconnectionFailedTag)) == Some(ReconnectionFailedTag) {}
  lemma ParsesPlayerReconnected() ensures ParseTag(TagName(PlayerReconnectedTag)) == Some(PlayerReconnectedTag) {}
  lemma ParsesSpectatorJoined() ensures ParseTag(TagName(SpectatorJoinedTag)) == Some(SpectatorJoinedTag) {}
  lemma ParsesSpectatorJoinFailed() ensures ParseTag(TagName(SpectatorJoinFailedTag)) == Some(SpectatorJoinFailedTag) {}
  lemma ParsesSpectatorLeft() ensures ParseTag(TagName(SpectatorLeftTag)) == Some(SpectatorLeftTag) {}
  lemma ParsesNewSpectatorJoined() ensures ParseTag(TagName(NewSpectatorJoinedTag)) == Some(NewSpectatorJoinedTag) {}
  lemma ParsesSpectatorDisconnected() ensures ParseTag(TagName(SpectatorDisconnectedTag)) == Some(SpectatorDisconnectedTag) {}
  lemma ParsesError() ensures ParseTag(TagName(ErrorTag)) == Some(ErrorTag) {}

  /** Exactly the variant names are known. */
  lemma ParseTagRejects(s: string)
    ensures ParseTag(s).None? <==> forall t :: TagName(t) != s
  {
    forall t | TagName(t) == s ensures ParseTag(s).Some? {
      ParseTagName(t);
    }
  }

  function TagOf(msg: ServerMessage): Tag {
    match msg
    case Authenticated(_, _, _) => AuthenticatedTag
    case ProtocolInfo(_) => ProtocolInfoTag
    case AuthenticationError(_, _) => AuthenticationErrorTag
    case RoomJoined(_) => RoomJoinedTag
    case RoomJoinFailed(_, _) => RoomJoinFailedTag
    case RoomLeft => RoomLeftTag
    case PlayerJoined(_) => PlayerJoinedTag
    case PlayerLeft(_) => PlayerLeftTag
    case ServerGameData(_, _) => GameDataTag
    case GameDataBinary(_, _, _) => GameDataBinaryTag
    case AuthorityChanged(_, _) => AuthorityChangedTag
    case AuthorityResponse(_, _, _) => AuthorityResponseTag
    case LobbyStateChanged(_, _, _) => LobbyStateChangedTag
    case GameStarting(_) => GameStartingTag
    case Pong => PongTag
    case Reconnected(_) => ReconnectedTag
    case ReconnectionFailed(_, _) => ReconnectionFailedTag
    case PlayerReconnected(_) => PlayerReconnectedTag
    case SpectatorJoined(_) => SpectatorJoinedTag
    case SpectatorJoinFailed(_, _) => SpectatorJoinFailedTag
    case SpectatorLeft(_, _, _, _) => SpectatorLeftTag
    case NewSpectatorJoined(_, _, _) => NewSpectatorJoinedTag
    case SpectatorDisconnected(_, _, _) => SpectatorDisconnectedTag
    case Error(_, _) => ErrorTag
  }

  /** The variants without fields, which travel without `"data"`. */
  predicate IsUnit(t: Tag) {
    t == RoomLeftTag || t == PongTag
  }

  /** Each variant's tag, stated one constructor at a time. */
  lemma TagOfVariant(msg: ServerMessage)
    ensures msg.Authenticated? ==> TagOf(msg) == AuthenticatedTag
    ensures msg.ProtocolInfo? ==> TagOf(msg) == ProtocolInfoTag
    ensures msg.AuthenticationError? ==> TagOf(msg) == AuthenticationErrorTag
    ensures msg.RoomJoined? ==> TagOf(msg) == RoomJoinedTag
    ensures msg.RoomJoinFailed? ==> TagOf(msg) == RoomJoinFailedTag
    ensures msg.RoomLeft? ==> TagOf(msg) == RoomLeftTag
    ensures msg.PlayerJoined? ==> TagOf(msg) == PlayerJoinedTag
    ensures msg.PlayerLeft? ==> TagOf(msg) == PlayerLeftTag
    ensures msg.ServerGameData? ==> TagOf(msg) == GameDataTag
    ensures msg.GameDataBinary? ==> TagOf(msg) == GameDataBinaryTag
    ensures msg.AuthorityChanged? ==> TagOf(msg) == AuthorityChangedTag
    ensures msg.AuthorityResponse? ==> TagOf(msg) == AuthorityResponseTag
    ensures msg.LobbyStateChanged? ==> TagOf(msg) == LobbyStateChangedTag
    ensures msg.GameStarting? ==> TagOf(msg) == GameStartingTag
    ensures msg.Pong? ==> TagOf(msg) == PongTag
    ensures msg.Reconnected? ==> TagOf(msg) == ReconnectedTag
    ensures msg.ReconnectionFailed? ==> TagOf(msg) == ReconnectionFailedTag
    ensures msg.PlayerReconnected? ==> TagOf(msg) == PlayerReconnectedTag
    ensures msg.SpectatorJoined? ==> TagOf(msg) == SpectatorJoinedTag
    ensures msg.SpectatorJoinFailed? ==> TagOf(msg) == SpectatorJoinFailedTag
    ensures msg.SpectatorLeft? ==> TagOf(msg) == SpectatorLeftTag
    ensures msg.NewSpectatorJoined? ==> TagOf(msg) == NewSpectatorJoinedTag
    ensures msg.SpectatorDisconnected? ==> TagOf(msg) == SpectatorDisconnectedTag
    ensures msg.Error? ==> TagOf(msg) == ErrorTag
  {
  }


  // ── Variant contents ───────────────────────────────────────────────

  function AuthenticatedMap(msg: ServerMessage): map<string, Value>
    requires msg.Authenticated?
  {
    var m := map["app_name" := JString(msg.appName),
        "rate_limits" := RateLimitInfoToJson(msg.rateLimits)];
    PutIfSome(m, "organization", if msg.organization.Some? then Some(JString(msg.organization.value)) else None)
  }

  function DecodeAuthenticated(m: map<string, Value>): (r: Decoded<ServerMessage>)
    ensures r.Ok? ==> TagOf(r.value) == AuthenticatedTag
  {
    var appName :- Field(m, "app_name", AsString);
    var organization :- OptionalField(m, "organization", AsString);
    var rateLimits :- Field(m, "rate_limits", AsRateLimitInfo);
    Ok(Authenticated(appName, organization, rateLimits))
  }

  lemma AuthenticatedMapEntries(msg: ServerMessage, m: map<string, Value>)
    requires msg.Authenticated?
    requires m == AuthenticatedMap(msg)
    ensures "app_name" in m && m["app_name"] == JString(msg.appName)
    ensures if msg.organization.Some? then "organization" in m && m["organization"] == JString(msg.organization.value) else "organization" !in m
    ensures "rate_limits" in m && m["rate_limits"] == RateLimitInfoToJson(msg.rateLimits)
  {
    assert "app_name" in m && m["app_name"] == JString(msg.appName);
    assert if msg.organization.Some? then "organization" in m && m["organization"] == JString(msg.organization.value) else "organization" !in m;
    assert "rate_limits" in m && m["rate_limits"] == RateLimitInfoToJson(msg.rateLimits);
  }

  lemma DecodeAuthenticatedAccepts(msg: ServerMessage, m: map<string, Value>)
    requires msg.Authenticated?
    requires "app_name" in m && m["app_name"] == JString(msg.appName)
    requires if msg.organization.Some? then "organization" in m && m["organization"] == JString(msg.organization.value) else "organization" !in m
    requires "rate_limits" in m && m["rate_limits"] == RateLimitInfoToJson(msg.rateLimits)
    ensures DecodeAuthenticated(m) == Ok(msg)
  {
    assert Field(m, "app_name", AsString) == Ok(msg.appName);
    assert OptionalField(m, "organization", AsString) == Ok(msg.organization);
    RateLimitInfoRoundTrip(msg.rateLimits);
    assert Field(m, "rate_limits", AsRateLimitInfo) == Ok(msg.rateLimits);
  }

  lemma AuthenticatedRoundTrip(msg: ServerMessage)
    requires msg.Authenticated?
    ensures DecodeAuthenticated(AuthenticatedMap(msg)) == Ok(msg)
  {
    var m := AuthenticatedMap(msg);
    AuthenticatedMapEntries(msg, m);
    DecodeAuthenticatedAccepts(msg, m);
  }

  function AuthenticationErrorMap(msg: ServerMessage): map<string, Value>
    requires msg.AuthenticationError?
  {
    map["error" := JString(msg.error),
        "error_code" := ErrorCodeToJson(msg.code)]
  }

  function DecodeAuthenticationError(m: map<string, Value>): (r: Decoded<ServerMessage>)
    ensures r.Ok? ==> TagOf(r.value) == AuthenticationErrorTag
  {
    var error :- Field(m, "error", AsString);
    var code :- Field(m, "error_code", AsErrorCode);
    Ok(AuthenticationError(error, code))
  }

  lemma AuthenticationErrorMapEntries(msg: ServerMessage, m: map<string, Value>)
    requires msg.AuthenticationError?
    requires m == AuthenticationErrorMap(msg)
    ensures "error" in m && m["error"] == JString(msg.error)
    ensures "error_code" in m && m["error_code"] == ErrorCodeToJson(msg.code)
  {
    assert "error" in m && m["error"] == JString(msg.error);
    assert "error_code" in m && m["error_code"] == ErrorCodeToJson(msg.code);
  }

  lemma DecodeAuthenticationErrorAccepts(msg: ServerMessage, m: map<string, Value>)
    requires msg.AuthenticationError?
    requires "error" in m && m["error"] == JString(msg.error)
    requires "error_code" in m && m["error_code"] == ErrorCodeToJson(msg.code)
    ensures DecodeAuthenticationError(m) == Ok(msg)
  {
    assert Field(m, "error", AsString) == Ok(msg.error);
    ErrorCodeRoundTrip(msg.code);
    assert Field(m, "error_code", AsErrorCode) == Ok(msg.code);
  }

  lemma AuthenticationErrorRoundTrip(msg: ServerMessage)
    requires msg.AuthenticationError?
    ensures DecodeAuthenticationError(AuthenticationErrorMap(msg)) == Ok(msg)
  {
    var m := AuthenticationErrorMap(msg);
    AuthenticationErrorMapEntries(msg, m);
    DecodeAuthenticationErrorAccepts(msg, m);
  }

  function RoomJoinFailedMap(msg: ServerMessage): map<string, Value>
    requires msg.RoomJoinFailed?
  {
    var m := map["reason" := JString(msg.reason)];
    PutIfSome(m, "error_code", if msg.errorCode.Some? then Some(ErrorCodeToJson(msg.errorCode.value)) else None)
  }

  function DecodeRoomJoinFailed(m: map<string, Value>): (r: Decoded<ServerMessage>)
    ensures r.Ok? ==> TagOf(r.value) == RoomJoinFailedTag
  {
    var reason :- Field(m, "reason", AsString);
    var errorCode :- OptionalField(m, "error_code", AsErrorCode);
    Ok(RoomJoinFailed(reason, errorCode))
  }

  lemma RoomJoinFailedMapEntries(msg: ServerMessage, m: map<string, Value>)
    requires msg.RoomJoinFailed?
    requires m == RoomJoinFailedMap(msg)
    ensures "reason" in m && m["reason"] == JString(msg.reason)
    ensures if msg.errorCode.Some? then "error_code" in m && m["error_code"] == ErrorCodeToJson(msg.errorCode.value) else "error_code" !in m
  {
    assert "reason" in m && m["reason"] == JString(msg.reason);
    assert if msg.errorCode.Some? then "error_code" in m && m["error_code"] == ErrorCodeToJson(msg.errorCode.value) else "error_code" !in m;
  }

  lemma DecodeRoomJoinFailedAccepts(msg: ServerMessage, m: map<string, Value>)
    requires msg.RoomJoinFailed?
    requires "reason" in m && m["reason"] == JString(msg.reason)
    requires if msg.errorCode.Some? then "error_code" in m && m["error_code"] == ErrorCodeToJson(msg.errorCode.value) else "error_code" !in m
    ensures DecodeRoomJoinFailed(m) == Ok(msg)
  {
    assert Field(m, "reason", AsString) == Ok(msg.reason);
    if msg.errorCode.Some? {
      ErrorCodeRoundTrip(msg.errorCode.value);
    }
    assert OptionalField(m, "error_code", AsErrorCode) == Ok(msg.errorCode);
  }

  lemma RoomJoinFailedRoundTrip(msg: ServerMessage)
    requires msg.RoomJoinFailed?
    ensures DecodeRoomJoinFailed(RoomJoinFailedMap(msg)) == Ok(msg)
  {
    var m := RoomJoinFailedMap(msg);
    RoomJoinFailedMapEntries(msg, m);
    DecodeRoomJoinFailedAccepts(msg, m);
  }

  function PlayerJoinedMap(msg: ServerMessage): map<string, Value>
    requires msg.PlayerJoined?
  {
    map["player" := PlayerInfoToJson(msg.player)]
  }

  function DecodePlayerJoined(m: map<string, Value>): (r: Decoded<ServerMessage>)
    ensures r.Ok? ==> TagOf(r.value) == PlayerJoinedTag
  {
    var player :- Field(m, "player", AsPlayerInfo);
    Ok(PlayerJoined(player))
  }

  lemma PlayerJoinedMapEntries(msg: ServerMessage, m: map<string, Value>)
    requires msg.PlayerJoined?
    requires m == PlayerJoinedMap(msg)
    ensures "player" in m && m["player"] == PlayerInfoToJson(msg.player)
  {
  }

  lemma DecodePlayerJoinedAccepts(msg: ServerMessage, m: map<string, Value>)
    requires msg.PlayerJoined?
    requires "player" in m && m["player"] == PlayerInfoToJson(msg.player)
    ensures DecodePlayerJoined(m) == Ok(msg)
  {
    PlayerInfoRoundTrip(msg.player);
    assert Field(m, "player", AsPlayerInfo) == Ok(msg.player);
  }

  lemma PlayerJoinedRoundTrip(msg: ServerMessage)
    requires msg.PlayerJoined?
    ensures DecodePlayerJoined(PlayerJoinedMap(msg)) == Ok(msg)
  {
    var m := PlayerJoinedMap(msg);
    PlayerJoinedMapEntries(msg, m);
    DecodePlayerJoinedAccepts(msg, m);
  }

  function PlayerLeftMap(msg: ServerMessage): map<string, Value>
    requires msg.PlayerLeft?
  {
    map["player_id" := UuidToJson(msg.playerId)]
  }

  function DecodePlayerLeft(m: map<string, Value>): (r: Decoded<ServerMessage>)
    ensures r.Ok? ==> TagOf(r.value) == PlayerLeftTag
  {
    var playerId :- Field(m, "player_id", AsUuid);
    Ok(PlayerLeft(playerId))
  }

  lemma PlayerLeftMapEntries(msg: ServerMessage, m: map<string, Value>)
    requires msg.PlayerLeft?
    requires m == PlayerLeftMap(msg)
    ensures "player_id" in m && m["player_id"] == UuidToJson(msg.playerId)
  {
  }

  lemma DecodePlayerLeftAccepts(msg: ServerMessage, m: map<string, Value>)
    requires msg.PlayerLeft?
    requires "player_id" in m && m["player_id"] == UuidToJson(msg.playerId)
    ensures DecodePlayerLeft(m) == Ok(msg)
  {
    UuidRoundTrip(msg.playerId);
    assert Field(m, "player_id", AsUuid) == Ok(msg.playerId);
  }

  lemma PlayerLeftRoundTrip(msg: ServerMessage)
    requires msg.PlayerLeft?
    ensures DecodePlayerLeft(PlayerLeftMap(msg)) == Ok(msg)
  {
    var m := PlayerLeftMap(msg);
    PlayerLeftMapEntries(msg, m);
    DecodePlayerLeftAccepts(msg, m);
  }

  function GameDataMap(msg: ServerMessage): map<string, Value>
    requires msg.ServerGameData?
  {
    map["from_player" := UuidToJson(msg.fromPlayer),
        "data" := msg.data]
  }

  function DecodeGameData(m: map<string, Value>): (r: Decoded<ServerMessage>)
    ensures r.Ok? ==> TagOf(r.value) == GameDataTag
  {
    var fromPlayer :- Field(m, "from_player", AsUuid);
    var data :- Field(m, "data", AsValue);
    Ok(ServerGameData(fromPlayer, data))
  }

  lemma GameDataMapEntries(msg: ServerMessage, m: map<string, Value>)
    requires msg.ServerGameData?
    requires m == GameDataMap(msg)
    ensures "from_player" in m && m["from_player"] == UuidToJson(msg.fromPlayer)
    ensures "data" in m && m["data"] == msg.data
  {
    assert "from_player" in m && m["from_player"] == UuidToJson(msg.fromPlayer);
    assert "data" in m && m["data"] == msg.data;
  }

  lemma DecodeGameDataAccepts(msg: ServerMessage, m: map<string, Value>)
    requires msg.ServerGameData?
    requires "from_player" in m && m["from_player"] == UuidToJson(msg.fromPlayer)
    requires "data" in m && m["data"] == msg.data
    ensures DecodeGameData(m) == Ok(msg)
  {
    UuidRoundTrip(msg.fromPlayer);
    assert Field(m, "from_player", AsUuid) == Ok(msg.fromPlayer);
    assert Field(m, "data", AsValue) == Ok(msg.data);
  }

  lemma GameDataRoundTrip(msg: ServerMessage)
    requires msg.ServerGameData?
    ensures DecodeGameData(GameDataMap(msg)) == Ok(msg)
  {
    var m := GameDataMap(msg);
    GameDataMapEntries(msg, m);
    DecodeGameDataAccepts(msg, m);
  }

  function GameDataBinaryMap(msg: ServerMessage): map<string, Value>
    requires msg.GameDataBinary?
  {
    map["from_player" := UuidToJson(msg.fromPlayer),
        "encoding" := EncodingToJson(msg.encoding),
        "payload" := BytesToJson(msg.payload)]
  }

  function DecodeGameDataBinary(m: map<string, Value>): (r: Decoded<ServerMessage>)
    ensures r.Ok? ==> TagOf(r.value) == GameDataBinaryTag
  {
    var fromPlayer :- Field(m, "from_player", AsUuid);
    var encoding :- Field(m, "encoding", AsEncoding);
    var payload :- Field(m, "payload", AsBytes);
    Ok(GameDataBinary(fromPlayer, encoding, payload))
  }

  lemma GameDataBinaryMapEntries(msg: ServerMessage, m: map<string, Value>)
    requires msg.GameDataBinary?
    requires m == GameDataBinaryMap(msg)
    ensures "from_player" in m && m["from_player"] == UuidToJson(msg.fromPlayer)
    ensures "encoding" in m && m["encoding"] == EncodingToJson(msg.encoding)
    ensures "payload" in m && m["payload"] == BytesToJson(msg.payload)
  {
    assert "from_player" in m && m["from_player"] == UuidToJson(msg.fromPlayer);
    assert "encoding" in m && m["encoding"] == EncodingToJson(msg.encoding);
    assert "payload" in m && m["payload"] == BytesToJson(msg.payload);
  }

  lemma DecodeGameDataBinaryAccepts(msg: ServerMessage, m: map<string, Value>)
    requires msg.GameDataBinary?
    requires "from_player" in m && m["from_player"] == UuidToJson(msg.fromPlayer)
    requires "encoding" in m && m["encoding"] == EncodingToJson(msg.encoding)
    requires "payload" in m && m["payload"] == BytesToJson(msg.payload)
    ensures DecodeGameDataBinary(m) == Ok(msg)
  {
    UuidRoundTrip(msg.fromPlayer);
    assert Field(m, "from_player", AsUuid) == Ok(msg.fromPlayer);
    EncodingRoundTrip(msg.encoding);
    assert Field(m, "encoding", AsEncoding) == Ok(msg.encoding);
    BytesRoundTrip(msg.payload);
    assert Field(m, "payload", AsBytes) == Ok(msg.payload);
  }

  lemma GameDataBinaryRoundTrip(msg: ServerMessage)
    requires msg.GameDataBinary?
    ensures DecodeGameDataBinary(GameDataBinaryMap(msg)) == Ok(msg)
  {
    var m := GameDataBinaryMap(msg);
    GameDataBinaryMapEntries(msg, m);
    DecodeGameDataBinaryAccepts(msg, m);
  }

  function AuthorityChangedMap(msg: ServerMessage): map<string, Value>
    requires msg.AuthorityChanged?
  {
    map["authority_player" := OrNull(if msg.authorityPlayer.Some? then Some(UuidToJson(msg.authorityPlayer.value)) else None),
        "you_are_authority" := JBool(msg.youAreAuthority)]
  }

  function DecodeAuthorityChanged(m: map<string, Value>): (r: Decoded<ServerMessage>)
    ensures r.Ok? ==> TagOf(r.value) == AuthorityChangedTag
  {
    var authorityPlayer :- OptionalField(m, "authority_player", AsUuid);
    var youAreAuthority :- Field(m, "you_are_authority", AsBool);
    Ok(AuthorityChanged(authorityPlayer, youAreAuthority))
  }

  lemma AuthorityChangedMapEntries(msg: ServerMessage, m: map<string, Value>)
    requires msg.AuthorityChanged?
    requires m == AuthorityChangedMap(msg)
    ensures "authority_player" in m && m["authority_player"] == (if msg.authorityPlayer.Some? then UuidToJson(msg.authorityPlayer.value) else JNull)
    ensures "you_are_authority" in m && m["you_are_authority"] == JBool(msg.youAreAuthority)
  {
    assert "authority_player" in m && m["authority_player"] == (if msg.authorityPlayer.Some? then UuidToJson(msg.authorityPlayer.value) else JNull);
    assert "you_are_authority" in m && m["you_are_authority"] == JBool(msg.youAreAuthority);
  }

  lemma DecodeAuthorityChangedAccepts(msg: ServerMessage, m: map<string, Value>)
    requires msg.AuthorityChanged?
    requires "authority_player" in m && m["authority_player"] == (if msg.authorityPlayer.Some? then UuidToJson(msg.authorityPlayer.value) else JNull)
    requires "you_are_authority" in m && m["you_are_authority"] == JBool(msg.youAreAuthority)
    ensures DecodeAuthorityChanged(m) == Ok(msg)
  {
    if msg.authorityPlayer.Some? {
      UuidRoundTrip(msg.authorityPlayer.value);
    }
    assert OptionalField(m, "authority_player", AsUuid) == Ok(msg.authorityPlayer);
    assert Field(m, "you_are_authority", AsBool) == Ok(msg.youAreAuthority);
  }

  lemma AuthorityChangedRoundTrip(msg: ServerMessage)
    requires msg.AuthorityChanged?
    ensures DecodeAuthorityChanged(AuthorityChangedMap(msg)) == Ok(msg)
  {
    var m := AuthorityChangedMap(msg);
    AuthorityChangedMapEntries(msg, m);
    DecodeAuthorityChangedAccepts(msg, m);
  }

  function AuthorityResponseMap(msg: ServerMessage): map<string, Value>
    requires msg.AuthorityResponse?
  {
    var m := map["granted" := JBool(msg.granted),
        "reason" := OrNull(if msg.responseReason.Some? then Some(JString(msg.responseReason.value)) else None)];
    PutIfSome(m, "error_code", if msg.errorCode.Some? then Some(ErrorCodeToJson(msg.errorCode.value)) else None)
  }

  function DecodeAuthorityResponse(m: map<string, Value>): (r: Decoded<ServerMessage>)
    ensures r.Ok? ==> TagOf(r.value) == AuthorityResponseTag
  {
    var granted :- Field(m, "granted", AsBool);
    var responseReason :- OptionalField(m, "reason", AsString);
    var errorCode :- OptionalField(m, "error_code", AsErrorCode);
    Ok(AuthorityResponse(granted, responseReason, errorCode))
  }

  lemma AuthorityResponseMapEntries(msg: ServerMessage, m: map<string, Value>)
    requires msg.AuthorityResponse?
    requires m == AuthorityResponseMap(msg)
    ensures "granted" in m && m["granted"] == JBool(msg.granted)
    ensures "reason" in m && m["reason"] == (if msg.responseReason.Some? then JString(msg.responseReason.value) else JNull)
    ensures if msg.errorCode.Some? then "error_code" in m && m["error_code"] == ErrorCodeToJson(msg.errorCode.value) else "error_code" !in m
  {
    assert "granted" in m && m["granted"] == JBool(msg.granted);
    assert "reason" in m && m["reason"] == (if msg.responseReason.Some? then JString(msg.responseReason.value) else JNull);
    assert if msg.errorCode.Some? then "error_code" in m && m["error_code"] == ErrorCodeToJson(msg.errorCode.value) else "error_code" !in m;
  }

  lemma DecodeAuthorityResponseAccepts(msg: ServerMessage, m: map<string, Value>)
    requires msg.AuthorityResponse?
    requires "granted" in m && m["granted"] == JBool(msg.granted)
    requires "reason" in m && m["reason"] == (if msg.responseReason.Some? then JString(msg.responseReason.value) else JNull)
    requires if msg.errorCode.Some? then "error_code" in m && m["error_code"] == ErrorCodeToJson(msg.errorCode.value) else "error_code" !in m
    ensures DecodeAuthorityResponse(m) == Ok(msg)
  {
    assert Field(m, "granted", AsBool) == Ok(msg.granted);
    assert OptionalField(m, "reason", AsString) == Ok(msg.responseReason);
    if msg.errorCode.Some? {
      ErrorCodeRoundTrip(msg.errorCode.value);
    }
    assert OptionalField(m, "error_code", AsErrorCode) == Ok(msg.errorCode);
  }

  lemma AuthorityResponseRoundTrip(msg: ServerMessage)
    requires msg.AuthorityResponse?
    ensures DecodeAuthorityResponse(AuthorityResponseMap(msg)) == Ok(msg)
  {
    var m := AuthorityResponseMap(msg);
    AuthorityResponseMapEntries(msg, m);
    DecodeAuthorityResponseAccepts(msg, m);
  }

  function LobbyStateChangedMap(msg: ServerMessage): map<string, Value>
    requires msg.LobbyStateChanged?
  {
    map["lobby_state" := LobbyStateToJson(msg.lobbyState),
        "ready_players" := UuidsToJson(msg.readyPlayers),
        "all_ready" := JBool(msg.allReady)]
  }

  function DecodeLobbyStateChanged(m: map<string, Value>): (r: Decoded<ServerMessage>)
    ensures r.Ok? ==> TagOf(r.value) == LobbyStateChangedTag
  {
    var lobbyState :- Field(m, "lobby_state", AsLobbyState);
    var readyPlayers :- Field(m, "ready_players", AsUuids);
    var allReady :- Field(m, "all_ready", AsBool);
    Ok(LobbyStateChanged(lobbyState, readyPlayers, allReady))
  }

  lemma LobbyStateChangedMapEntries(msg: ServerMessage, m: map<string, Value>)
    requires msg.LobbyStateChanged?
    requires m == LobbyStateChangedMap(msg)
    ensures "lobby_state" in m && m["lobby_state"] == LobbyStateToJson(msg.lobbyState)
    ensures "ready_players" in m && m["ready_players"] == UuidsToJson(msg.readyPlayers)
    ensures "all_ready" in m && m["all_ready"] == JBool(msg.allReady)
  {
    assert "lobby_state" in m && m["lobby_state"] == LobbyStateToJson(msg.lobbyState);
    assert "ready_players" in m && m["ready_players"] == UuidsToJson(msg.readyPlayers);
    assert "all_ready" in m && m["all_ready"] == JBool(msg.allReady);
  }

  lemma DecodeLobbyStateChangedAccepts(msg: ServerMessage, m: map<string, Value>)
    requires msg.LobbyStateChanged?
    requires "lobby_state" in m && m["lobby_state"] == LobbyStateToJson(msg.lobbyState)
    requires "ready_players" in m && m["ready_players"] == UuidsToJson(msg.readyPlayers)
    requires "all_ready" in m && m["all_ready"] == JBool(msg.allReady)
    ensures DecodeLobbyStateChanged(m) == Ok(msg)
  {
    LobbyStateRoundTrip(msg.lobbyState);
    assert Field(m, "lobby_state", AsLobbyState) == Ok(msg.lobbyState);
    UuidsRoundTrip(msg.readyPlayers);
    assert Field(m, "ready_players", AsUuids) == Ok(msg.readyPlayers);
    assert Field(m, "all_ready", AsBool) == Ok(msg.allReady);
  }

  lemma LobbyStateChangedRoundTrip(msg: ServerMessage)
    requires msg.LobbyStateChanged?
    ensures DecodeLobbyStateChanged(LobbyStateChangedMap(msg)) == Ok(msg)
  {
    var m := LobbyStateChangedMap(msg);
    LobbyStateChangedMapEntries(msg, m);
    DecodeLobbyStateChangedAccepts(msg, m);
  }

  function GameStartingMap(msg: ServerMessage): map<string, Value>
    requires msg.GameStarting?
  {
    map["peer_connections" := PeersToJson(msg.peerConnections)]
  }

  function DecodeGameStarting(m: map<string, Value>): (r: Decoded<ServerMessage>)
    ensures r.Ok? ==> TagOf(r.value) == GameStartingTag
  {
    var peerConnections :- Field(m, "peer_connections", AsPeers);
    Ok(GameStarting(peerConnections))
  }

  lemma GameStartingMapEntries(msg: ServerMessage, m: map<string, Value>)
    requires msg.GameStarting?
    requires m == GameStartingMap(msg)
    ensures "peer_connections" in m && m["peer_connections"] == PeersToJson(msg.peerConnections)
  {
  }

  lemma DecodeGameStartingAccepts(msg: ServerMessage, m: map<string, Value>)
    requires msg.GameStarting?
    requires "peer_connections" in m && m["peer_connections"] == PeersToJson(msg.peerConnections)
    ensures DecodeGameStarting(m) == Ok(msg)
  {
    PeersRoundTrip(msg.peerConnections);
    assert Field(m, "peer_connections", AsPeers) == Ok(msg.peerConnections);
  }

  lemma GameStartingRoundTrip(msg: ServerMessage)
    requires msg.GameStarting?
    ensures DecodeGameStarting(GameStartingMap(msg)) == Ok(msg)
  {
    var m := GameStartingMap(msg);
    GameStartingMapEntries(msg, m);
    DecodeGameStartingAccepts(msg, m);
  }

  function ReconnectionFailedMap(msg: ServerMessage): map<string, Value>
    requires msg.ReconnectionFailed?
  {
    map["reason" := JString(msg.reason),
        "error_code" := ErrorCodeToJson(msg.code)]
  }

  function DecodeReconnectionFailed(m: map<string, Value>): (r: Decoded<ServerMessage>)
    ensures r.Ok? ==> TagOf(r.value) == ReconnectionFailedTag
  {
    var reason :- Field(m, "reason", AsString);
    var code :- Field(m, "error_code", AsErrorCode);
    Ok(ReconnectionFailed(reason, code))
  }

  lemma ReconnectionFailedMapEntries(msg: ServerMessage, m: map<string, Value>)
    requires msg.ReconnectionFailed?
    requires m == ReconnectionFailedMap(msg)
    ensures "reason" in m && m["reason"] == JString(msg.reason)
    ensures "error_code" in m && m["error_code"] == ErrorCodeToJson(msg.code)
  {
    assert "reason" in m && m["reason"] == JString(msg.reason);
    assert "error_code" in m && m["error_code"] == ErrorCodeToJson(msg.code);
  }

  lemma DecodeReconnectionFailedAccepts(msg: ServerMessage, m: map<string, Value>)
    requires msg.ReconnectionFailed?
    requires "reason" in m && m["reason"] == JString(msg.reason)
    requires "error_code" in m && m["error_code"] == ErrorCodeToJson(msg.code)
    ensures DecodeReconnectionFailed(m) == Ok(msg)
  {
    assert Field(m, "reason", AsString) == Ok(msg.reason);
    ErrorCodeRoundTrip(msg.code);
    assert Field(m, "error_code", AsErrorCode) == Ok(msg.code);
  }

  lemma ReconnectionFailedRoundTrip(msg: ServerMessage)
    requires msg.ReconnectionFailed?
    ensures DecodeReconnectionFailed(ReconnectionFailedMap(msg)) == Ok(msg)
  {
    var m := ReconnectionFailedMap(msg);
    ReconnectionFailedMapEntries(msg, m);
    DecodeReconnectionFailedAccepts(msg, m);
  }

  function PlayerReconnectedMap(msg: ServerMessage): map<string, Value>
    requires msg.PlayerReconnected?
  {
    map["player_id" := UuidToJson(msg.playerId)]
  }

  function DecodePlayerReconnected(m: map<string, Value>): (r: Decoded<ServerMessage>)
    ensures r.Ok? ==> TagOf(r.value) == PlayerReconnectedTag
  {
    var playerId :- Field(m, "player_id", AsUuid);
    Ok(PlayerReconnected(playerId))
  }

  lemma PlayerReconnectedMapEntries(msg: ServerMessage, m: map<string, Value>)
    requires msg.PlayerReconnected?
    requires m == PlayerReconnectedMap(msg)
    ensures "player_id" in m && m["player_id"] == UuidToJson(msg.playerId)
  {
  }

  lemma DecodePlayerReconnectedAccepts(msg: ServerMessage, m: map<string, Value>)
    requires msg.PlayerReconnected?
    requires "player_id" in m && m["player_id"] == UuidToJson(msg.playerId)
    ensures DecodePlayerReconnected(m) == Ok(msg)
  {
    UuidRoundTrip(msg.playerId);
    assert Field(m, "player_id", AsUuid) == Ok(msg.playerId);
  }

  lemma PlayerReconnectedRoundTrip(msg: ServerMessage)
    requires msg.PlayerReconnected?
    ensures DecodePlayerReconnected(PlayerReconnectedMap(msg)) == Ok(msg)
  {
    var m := PlayerReconnectedMap(msg);
    PlayerReconnectedMapEntries(msg, m);
    DecodePlayerReconnectedAccepts(msg, m);
  }

  function SpectatorJoinFailedMap(msg: ServerMessage): map<string, Value>
    requires msg.SpectatorJoinFailed?
  {
    var m := map["reason" := JString(msg.reason)];
    PutIfSome(m, "error_code", if msg.errorCode.Some? then Some(ErrorCodeToJson(msg.errorCode.value)) else None)
  }

  function DecodeSpectatorJoinFailed(m: map<string, Value>): (r: Decoded<ServerMessage>)
    ensures r.Ok? ==> TagOf(r.value) == SpectatorJoinFailedTag
  {
    var reason :- Field(m, "reason", AsString);
    var errorCode :- OptionalField(m, "error_code", AsErrorCode);
    Ok(SpectatorJoinFailed(reason, errorCode))
  }

  lemma SpectatorJoinFailedMapEntries(msg: ServerMessage, m: map<string, Value>)
    requires msg.SpectatorJoinFailed?
    requires m == SpectatorJoinFailedMap(msg)
    ensures "reason" in m && m["reason"] == JString(msg.reason)
    ensures if msg.errorCode.Some? then "error_code" in m && m["error_code"] == ErrorCodeToJson(msg.errorCode.value) else "error_code" !in m
  {
    assert "reason" in m && m["reason"] == JString(msg.reason);
    assert if msg.errorCode.Some? then "error_code" in m && m["error_code"] == ErrorCodeToJson(msg.errorCode.value) else "error_code" !in m;
  }

  lemma DecodeSpectatorJoinFailedAccepts(msg: ServerMessage, m: map<string, Value>)
    requires msg.SpectatorJoinFailed?
    requires "reason" in m && m["reason"] == JString(msg.reason)
    requires if msg.errorCode.Some? then "error_code" in m && m["error_code"] == ErrorCodeToJson(msg.errorCode.value) else "error_code" !in m
    ensures DecodeSpectatorJoinFailed(m) == Ok(msg)
  {
    assert Field(m, "reason", AsString) == Ok(msg.reason);
    if msg.errorCode.Some? {
      ErrorCodeRoundTrip(msg.errorCode.value);
    }
    assert OptionalField(m, "error_code", AsErrorCode) == Ok(msg.errorCode);
  }

  lemma SpectatorJoinFailedRoundTrip(msg: ServerMessage)
    requires msg.SpectatorJoinFailed?
    ensures DecodeSpectatorJoinFailed(SpectatorJoinFailedMap(msg)) == Ok(msg)
  {
    var m := SpectatorJoinFailedMap(msg);
    SpectatorJoinFailedMapEntries(msg, m);
    DecodeSpectatorJoinFailedAccepts(msg, m);
  }

  function SpectatorLeftMap(msg: ServerMessage): map<string, Value>
    requires msg.SpectatorLeft?
  {
    var m := map["current_spectators" := SpectatorsToJson(msg.currentSpectators)];
    var m := PutIfSome(m, "room_id", if msg.roomId.Some? then Some(UuidToJson(msg.roomId.value)) else None);
    var m := PutIfSome(m, "room_code", if msg.roomCode.Some? then Some(JString(msg.roomCode.value)) else None);
    PutIfSome(m, "reason", if msg.changeReason.Some? then Some(ReasonToJson(msg.changeReason.value)) else None)
  }

  function DecodeSpectatorLeft(m: map<string, Value>): (r: Decoded<ServerMessage>)
    ensures r.Ok? ==> TagOf(r.value) == SpectatorLeftTag
  {
    var roomId :- OptionalField(m, "room_id", AsUuid);
    var roomCode :- OptionalField(m, "room_code", AsString);
    var changeReason :- OptionalField(m, "reason", AsReason);
    var currentSpectators :- DefaultField(m, "current_spectators", AsSpectators, []);
    Ok(SpectatorLeft(roomId, roomCode, changeReason, currentSpectators))
  }

  lemma SpectatorLeftMapEntries(msg: ServerMessage, m: map<string, Value>)
    requires msg.SpectatorLeft?
    requires m == SpectatorLeftMap(msg)
    ensures if msg.roomId.Some? then "room_id" in m && m["room_id"] == UuidToJson(msg.roomId.value) else "room_id" !in m
    ensures if msg.roomCode.Some? then "room_code" in m && m["room_code"] == JString(msg.roomCode.value) else "room_code" !in m
    ensures if msg.changeReason.Some? then "reason" in m && m["reason"] == ReasonToJson(msg.changeReason.value) else "reason" !in m
    ensures "current_spectators" in m && m["current_spectators"] == SpectatorsToJson(msg.currentSpectators)
  {
    assert if msg.roomId.Some? then "room_id" in m && m["room_id"] == UuidToJson(msg.roomId.value) else "room_id" !in m;
    assert if msg.roomCode.Some? then "room_code" in m && m["room_code"] == JString(msg.roomCode.value) else "room_code" !in m;
    assert if msg.changeReason.Some? then "reason" in m && m["reason"] == ReasonToJson(msg.changeReason.value) else "reason" !in m;
    assert "current_spectators" in m && m["current_spectators"] == SpectatorsToJson(msg.currentSpectators);
  }

  lemma DecodeSpectatorLeftAccepts(msg: ServerMessage, m: map<string, Value>)
    requires msg.SpectatorLeft?
    requires if msg.roomId.Some? then "room_id" in m && m["room_id"] == UuidToJson(msg.roomId.value) else "room_id" !in m
    requires if msg.roomCode.Some? then "room_code" in m && m["room_code"] == JString(msg.roomCode.value) else "room_code" !in m
    requires if msg.changeReason.Some? then "reason" in m && m["reason"] == ReasonToJson(msg.changeReason.value) else "reason" !in m
    requires "current_spectators" in m && m["current_spectators"] == SpectatorsToJson(msg.currentSpectators)
    ensures DecodeSpectatorLeft(m) == Ok(msg)
  {
    if msg.roomId.Some? {
      UuidRoundTrip(msg.roomId.value);
    }
    assert OptionalField(m, "room_id", AsUuid) == Ok(msg.roomId);
    assert OptionalField(m, "room_code", AsString) == Ok(msg.roomCode);
    if msg.changeReason.Some? {
      ReasonRoundTrip(msg.changeReason.value);
    }
    assert OptionalField(m, "reason", AsReason) == Ok(msg.changeReason);
    SpectatorsRoundTrip(msg.currentSpectators);
    assert DefaultField(m, "current_spectators", AsSpectators, []) == Ok(msg.currentSpectators);
  }

  lemma SpectatorLeftRoundTrip(msg: ServerMessage)
    requires msg.SpectatorLeft?
    ensures DecodeSpectatorLeft(SpectatorLeftMap(msg)) == Ok(msg)
  {
    var m := SpectatorLeftMap(msg);
    SpectatorLeftMapEntries(msg, m);
    DecodeSpectatorLeftAccepts(msg, m);
  }

  function NewSpectatorJoinedMap(msg: ServerMessage): map<string, Value>
    requires msg.NewSpectatorJoined?
  {
    var m := map["spectator" := SpectatorInfoToJson(msg.spectator),
        "current_spectators" := SpectatorsToJson(msg.currentSpectators)];
    PutIfSome(m, "reason", if msg.changeReason.Some? then Some(ReasonToJson(msg.changeReason.value)) else None)
  }

  function DecodeNewSpectatorJoined(m: map<string, Value>): (r: Decoded<ServerMessage>)
    ensures r.Ok? ==> TagOf(r.value) == NewSpectatorJoinedTag
  {
    var spectator :- Field(m, "spectator", AsSpectatorInfo);
    var currentSpectators :- DefaultField(m, "current_spectators", AsSpectators, []);
    var changeReason :- OptionalField(m, "reason", AsReason);
    Ok(NewSpectatorJoined(spectator, currentSpectators, changeReason))
  }

  lemma NewSpectatorJoinedMapEntries(msg: ServerMessage, m: map<string, Value>)
    requires msg.NewSpectatorJoined?
    requires m == NewSpectatorJoinedMap(msg)
    ensures "spectator" in m && m["spectator"] == SpectatorInfoToJson(msg.spectator)
    ensures "current_spectators" in m && m["current_spectators"] == SpectatorsToJson(msg.currentSpectators)
    ensures if msg.changeReason.Some? then "reason" in m && m["reason"] == ReasonToJson(msg.changeReason.value) else "reason" !in m
  {
    assert "spectator" in m && m["spectator"] == SpectatorInfoToJson(msg.spectator);
    assert "current_spectators" in m && m["current_spectators"] == SpectatorsToJson(msg.currentSpectators);
    assert if msg.changeReason.Some? then "reason" in m && m["reason"] == ReasonToJson(msg.changeReason.value) else "reason" !in m;
  }

  lemma DecodeNewSpectatorJoinedAccepts(msg: ServerMessage, m: map<string, Value>)
    requires msg.NewSpectatorJoined?
    requires "spectator" in m && m["spectator"] == SpectatorInfoToJson(msg.spectator)
    requires "current_spectators" in m && m["current_spectators"] == SpectatorsToJson(msg.currentSpectators)
    requires if msg.changeReason.Some? then "reason" in m && m["reason"] == ReasonToJson(msg.changeReason.value) else "reason" !in m
    ensures DecodeNewSpectatorJoined(m) == Ok(msg)
  {
    SpectatorInfoRoundTrip(msg.spectator);
    assert Field(m, "spectator", AsSpectatorInfo) == Ok(msg.spectator);
    SpectatorsRoundTrip(msg.currentSpectators);
    assert DefaultField(m, "current_spectators", AsSpectators, []) == Ok(msg.currentSpectators);
    if msg.changeReason.Some? {
      ReasonRoundTrip(msg.changeReason.value);
    }
    assert OptionalField(m, "reason", AsReason) == Ok(msg.changeReason);
  }

  lemma NewSpectatorJoinedRoundTrip(msg: ServerMessage)
    requires msg.NewSpectatorJoined?
    ensures DecodeNewSpectatorJoined(NewSpectatorJoinedMap(msg)) == Ok(msg)
  {
    var m := NewSpectatorJoinedMap(msg);
    NewSpectatorJoinedMapEntries(msg, m);
    DecodeNewSpectatorJoinedAccepts(msg, m);
  }

  function SpectatorDisconnectedMap(msg: ServerMessage): map<string, Value>
    requires msg.SpectatorDisconnected?
  {
    var m := map["spectator_id" := UuidToJson(msg.spectatorId),
        "current_spectators" := SpectatorsToJson(msg.currentSpectators)];
    PutIfSome(m, "reason", if msg.changeReason.Some? then Some(ReasonToJson(msg.changeReason.value)) else None)
  }

  function DecodeSpectatorDisconnected(m: map<string, Value>): (r: Decoded<ServerMessage>)
    ensures r.Ok? ==> TagOf(r.value) == SpectatorDisconnectedTag
  {
    var spectatorId :- Field(m, "spectator_id", AsUuid);
    var changeReason :- OptionalField(m, "reason", AsReason);
    var currentSpectators :- DefaultField(m, "current_spectators", AsSpectators, []);
    Ok(SpectatorDisconnected(spectatorId, changeReason, currentSpectators))
  }

  lemma SpectatorDisconnectedMapEntries(msg: ServerMessage, m: map<string, Value>)
    requires msg.SpectatorDisconnected?
    requires m == SpectatorDisconnectedMap(msg)
    ensures "spectator_id" in m && m["spectator_id"] == UuidToJson(msg.spectatorId)
    ensures if msg.changeReason.Some? then "reason" in m && m["reason"] == ReasonToJson(msg.changeReason.value) else "reason" !in m
    ensures "current_spectators" in m && m["current_spectators"] == SpectatorsToJson(msg.currentSpectators)
  {
    assert "spectator_id" in m && m["spectator_id"] == UuidToJson(msg.spectatorId);
    assert if msg.changeReason.Some? then "reason" in m && m["reason"] == ReasonToJson(msg.changeReason.value) else "reason" !in m;
    assert "current_spectators" in m && m["current_spectators"] == SpectatorsToJson(msg.currentSpectators);
  }

  lemma DecodeSpectatorDisconnectedAccepts(msg: ServerMessage, m: map<string, Value>)
    requires msg.SpectatorDisconnected?
    requires "spectator_id" in m && m["spectator_id"] == UuidToJson(msg.spectatorId)
    requires if msg.changeReason.Some? then "reason" in m && m["reason"] == ReasonToJson(msg.changeReason.value) else "reason" !in m
    requires "current_spectators" in m && m["current_spectators"] == SpectatorsToJson(msg.currentSpectators)
    ensures DecodeSpectatorDisconnected(m) == Ok(msg)
  {
    UuidRoundTrip(msg.spectatorId);
    assert Field(m, "spectator_id", AsUuid) == Ok(msg.spectatorId);
    if msg.changeReason.Some? {
      ReasonRoundTrip(msg.changeReason.value);
    }
    assert OptionalField(m, "reason", AsReason) == Ok(msg.changeReason);
    SpectatorsRoundTrip(msg.currentSpectators);
    assert DefaultField(m, "current_spectators", AsSpectators, []) == Ok(msg.currentSpectators);
  }

  lemma SpectatorDisconnectedRoundTrip(msg: ServerMessage)
    requires msg.SpectatorDisconnected?
    ensures DecodeSpectatorDisconnected(SpectatorDisconnectedMap(msg)) == Ok(msg)
  {
    var m := SpectatorDisconnectedMap(msg);
    SpectatorDisconnectedMapEntries(msg, m);
    DecodeSpectatorDisconnectedAccepts(msg, m);
  }

  function ErrorMap(msg: ServerMessage): map<string, Value>
    requires msg.Error?
  {
    var m := map["message" := JString(msg.message)];
    PutIfSome(m, "error_code", if msg.errorCode.Some? then Some(ErrorCodeToJson(msg.errorCode.value)) else None)
  }

  function DecodeError(m: map<string, Value>): (r: Decoded<ServerMessage>)
    ensures r.Ok? ==> TagOf(r.value) == ErrorTag
  {
    var message :- Field(m, "message", AsString);
    var errorCode :- OptionalField(m, "error_code", AsErrorCode);
    Ok(Error(message, errorCode))
  }

  lemma ErrorMapEntries(msg: ServerMessage, m: map<string, Value>)
    requires msg.Error?
    requires m == ErrorMap(msg)
    ensures "message" in m && m["message"] == JString(msg.message)
    ensures if msg.errorCode.Some? then "error_code" in m && m["error_code"] == ErrorCodeToJson(msg.errorCode.value) else "error_code" !in m
  {
    assert "message" in m && m["message"] == JString(msg.message);
    assert if msg.errorCode.Some? then "error_code" in m && m["error_code"] == ErrorCodeToJson(msg.errorCode.value) else "error_code" !in m;
  }

  lemma DecodeErrorAccepts(msg: ServerMessage, m: map<string, Value>)
    requires msg.Error?
    requires "message" in m && m["message"] == JString(msg.message)
    requires if msg.errorCode.Some? then "error_code" in m && m["error_code"] == ErrorCodeToJson(msg.errorCode.value) else "error_code" !in m
    ensures DecodeError(m) == Ok(msg)
  {
    assert Field(m, "message", AsString) == Ok(msg.message);
    if msg.errorCode.Some? {
      ErrorCodeRoundTrip(msg.errorCode.value);
    }
    assert OptionalField(m, "error_code", AsErrorCode) == Ok(msg.errorCode);
  }

  lemma ErrorRoundTrip(msg: ServerMessage)
    requires msg.Error?
    ensures DecodeError(ErrorMap(msg)) == Ok(msg)
  {
    var m := ErrorMap(msg);
    ErrorMapEntries(msg, m);
    DecodeErrorAccepts(msg, m);
  }

  /** `ProtocolInfo` carries its payload struct as its whole content. */
  function DecodeProtocolInfoContent(d: Value): (r: Decoded<ServerMessage>)
    ensures r.Ok? ==> r.value.ProtocolInfo?
  {
    match AsProtocolInfo(d)
    case Ok(p) => Ok(ProtocolInfo(p))
    case Err(e) => Err(e)
  }

  /** `RoomJoined` carries its payload struct as its whole content. */
  function DecodeRoomJoinedContent(d: Value): (r: Decoded<ServerMessage>)
    ensures r.Ok? ==> r.value.RoomJoined?
  {
    match AsRoom(d)
    case Ok(p) => Ok(RoomJoined(p))
    case Err(e) => Err(e)
  }

  /** `SpectatorJoined` carries its payload struct as its whole content. */
  function DecodeSpectatorJoinedContent(d: Value): (r: Decoded<ServerMessage>)
    ensures r.Ok? ==> r.value.SpectatorJoined?
  {
    match AsSpectatorJoined(d)
    case Ok(p) => Ok(SpectatorJoined(p))
    case Err(e) => Err(e)
  }

  // ── Messages ───────────────────────────────────────────────────────

  /** What a message writes under `"data"`; unit variants write nothing. */
  function Content(msg: ServerMessage): (r: Option<Value>)
    ensures r.None? <==> msg.RoomLeft? || msg.Pong?
    decreases msg, 0
  {
    match msg
    case Authenticated(_, _, _) => Some(JObject(AuthenticatedMap(msg)))
    case ProtocolInfo(_) => Some(ProtocolInfoToJson(msg.info))
    case AuthenticationError(_, _) => Some(JObject(AuthenticationErrorMap(msg)))
    case RoomJoined(_) => Some(RoomToJson(msg.joined))
    case RoomJoinFailed(_, _) => Some(JObject(RoomJoinFailedMap(msg)))
    case RoomLeft => None
    case PlayerJoined(_) => Some(JObject(PlayerJoinedMap(msg)))
    case PlayerLeft(_) => Some(JObject(PlayerLeftMap(msg)))
    case ServerGameData(_, _) => Some(JObject(GameDataMap(msg)))
    case GameDataBinary(_, _, _) => Some(JObject(GameDataBinaryMap(msg)))
    case AuthorityChanged(_, _) => Some(JObject(AuthorityChangedMap(msg)))
    case AuthorityResponse(_, _, _) => Some(JObject(AuthorityResponseMap(msg)))
    case LobbyStateChanged(_, _, _) => Some(JObject(LobbyStateChangedMap(msg)))
    case GameStarting(_) => Some(JObject(GameStartingMap(msg)))
    case Pong => None
    case Reconnected(p) => Some(ReconnectedToJson(p))
    case ReconnectionFailed(_, _) => Some(JObject(ReconnectionFailedMap(msg)))
    case PlayerReconnected(_) => Some(JObject(PlayerReconnectedMap(msg)))
    case SpectatorJoined(_) => Some(SpectatorJoinedToJson(msg.spectating))
    case SpectatorJoinFailed(_, _) => Some(JObject(SpectatorJoinFailedMap(msg)))
    case SpectatorLeft(_, _, _, _) => Some(JObject(SpectatorLeftMap(msg)))
    case NewSpectatorJoined(_, _, _) => Some(JObject(NewSpectatorJoinedMap(msg)))
    case SpectatorDisconnected(_, _, _) => Some(JObject(SpectatorDisconnectedMap(msg)))
    case Error(_, _) => Some(JObject(ErrorMap(msg)))
  }

  /** A message as serde writes it: adjacently tagged by `"type"` and `"data"`. */
  function Encode(msg: ServerMessage): Value
    decreases msg, 1
  {
    Tagged(TagName(TagOf(msg)), Content(msg))
  }

  /** Reads the content of the variant named by `t`. */
  function DecodeData(t: Tag, d: Value): (r: Decoded<ServerMessage>)
    decreases d, 1
  {
    match t
    case AuthenticatedTag => (var m :- AsObject(d); DecodeAuthenticated(m))
    case ProtocolInfoTag => DecodeProtocolInfoContent(d)
    case AuthenticationErrorTag => (var m :- AsObject(d); DecodeAuthenticationError(m))
    case RoomJoinedTag => DecodeRoomJoinedContent(d)
    case RoomJoinFailedTag => (var m :- AsObject(d); DecodeRoomJoinFailed(m))
    case RoomLeftTag => DecodeUnit(d, RoomLeft)
    case PlayerJoinedTag => (var m :- AsObject(d); DecodePlayerJoined(m))
    case PlayerLeftTag => (var m :- AsObject(d); DecodePlayerLeft(m))
    case GameDataTag => (var m :- AsObject(d); DecodeGameData(m))
    case GameDataBinaryTag => (var m :- AsObject(d); DecodeGameDataBinary(m))
    case AuthorityChangedTag => (var m :- AsObject(d); DecodeAuthorityChanged(m))
    case AuthorityResponseTag => (var m :- AsObject(d); DecodeAuthorityResponse(m))
    case LobbyStateChangedTag => (var m :- AsObject(d); DecodeLobbyStateChanged(m))
    case GameStartingTag => (var m :- AsObject(d); DecodeGameStarting(m))
    case PongTag => DecodeUnit(d, Pong)
    case ReconnectedTag => DecodeReconnected(d)
    case ReconnectionFailedTag => (var m :- AsObject(d); DecodeReconnectionFailed(m))
    case PlayerReconnectedTag => (var m :- AsObject(d); DecodePlayerReconnected(m))
    case SpectatorJoinedTag => DecodeSpectatorJoinedContent(d)
    case SpectatorJoinFailedTag => (var m :- AsObject(d); DecodeSpectatorJoinFailed(m))
    case SpectatorLeftTag => (var m :- AsObject(d); DecodeSpectatorLeft(m))
    case NewSpectatorJoinedTag => (var m :- AsObject(d); DecodeNewSpectatorJoined(m))
    case SpectatorDisconnectedTag => (var m :- AsObject(d); DecodeSpectatorDisconnected(m))
    case ErrorTag => (var m :- AsObject(d); DecodeError(m))
  }

  /** A message without `"data"`: only a unit variant may leave it out. */
  function DecodeNoData(t: Tag): (r: Decoded<ServerMessage>)
    ensures r.Ok? <==> IsUnit(t)
    ensures r.Ok? ==> TagOf(r.value) == t
  {
    match t
    case RoomLeftTag => Ok(RoomLeft)
    case PongTag => Ok(Pong)
    case _ => Err(MissingField("data"))
  }

  /**
    Reads a message. serde reads an adjacently tagged enum in two forms: an
    object whose `"type"` names the variant (other keys are ignored, and only
    a unit variant may leave out `"data"`), or a sequence `[name, content]` of
    exactly two elements.
  */
  function Decode(j: Value): (r: Decoded<ServerMessage>)
    ensures r.Ok? ==> (j.JObject? && "type" in j.fields) || (j.JArray? && |j.items| == 2)
    decreases j, 2
  {
    match j
    case JObject(m) =>
      var name :- Field(m, "type", AsString);
      (match ParseTag(name)
       case None => Err(UnknownVariant(name))
       case Some(t) => if "data" in m then DecodeData(t, m["data"]) else DecodeNoData(t))
    case JArray(items) => DecodeSequence(items)
    case _ => Err(InvalidType("adjacently tagged enum"))
  }

  /** The sequence form: the variant's name, then its content; the name is read first. */
  function DecodeSequence(items: seq<Value>): (r: Decoded<ServerMessage>)
    ensures r.Ok? ==> |items| == 2
    decreases JArray(items), 1
  {
    if items == [] then Err(InvalidLength(0))
    else
      var name :- AsString(items[0]);
      match ParseTag(name)
      case None => Err(UnknownVariant(name))
      case Some(t) => if |items| == 2 then DecodeData(t, items[1]) else Err(InvalidLength(|items|))
  }

  lemma AuthenticatedDataTag(d: Value)
    ensures DecodeData(AuthenticatedTag, d).Ok? ==> TagOf(DecodeData(AuthenticatedTag, d).value) == AuthenticatedTag
  {
  }

  lemma ProtocolInfoDataTag(d: Value)
    ensures DecodeData(ProtocolInfoTag, d).Ok? ==> TagOf(DecodeData(ProtocolInfoTag, d).value) == ProtocolInfoTag
  {
    if DecodeData(ProtocolInfoTag, d).Ok? {
      TagOfVariant(DecodeData(ProtocolInfoTag, d).value);
    }
  }

  lemma AuthenticationErrorDataTag(d: Value)
    ensures DecodeData(AuthenticationErrorTag, d).Ok? ==> TagOf(DecodeData(AuthenticationErrorTag, d).value) == AuthenticationErrorTag
  {
  }

  lemma RoomJoinedDataTag(d: Value)
    ensures DecodeData(RoomJoinedTag, d).Ok? ==> TagOf(DecodeData(RoomJoinedTag, d).value) == RoomJoinedTag
  {
    if DecodeData(RoomJoinedTag, d).Ok? {
      TagOfVariant(DecodeData(RoomJoinedTag, d).value);
    }
  }

  lemma RoomJoinFailedDataTag(d: Value)
    ensures DecodeData(RoomJoinFailedTag, d).Ok? ==> TagOf(DecodeData(RoomJoinFailedTag, d).value) == RoomJoinFailedTag
  {
  }

  lemma RoomLeftDataTag(d: Value)
    ensures DecodeData(RoomLeftTag, d).Ok? ==> TagOf(DecodeData(RoomLeftTag, d).value) == RoomLeftTag
  {
  }

  lemma PlayerJoinedDataTag(d: Value)
    ensures DecodeData(PlayerJoinedTag, d).Ok? ==> TagOf(DecodeData(PlayerJoinedTag, d).value) == PlayerJoinedTag
  {
  }

  lemma PlayerLeftDataTag(d: Value)
    ensures DecodeData(PlayerLeftTag, d).Ok? ==> TagOf(DecodeData(PlayerLeftTag, d).value) == PlayerLeftTag
  {
  }

  lemma GameDataDataTag(d: Value)
    ensures DecodeData(GameDataTag, d).Ok? ==> TagOf(DecodeData(GameDataTag, d).value) == GameDataTag
  {
  }

  lemma GameDataBinaryDataTag(d: Value)
    ensures DecodeData(GameDataBinaryTag, d).Ok? ==> TagOf(DecodeData(GameDataBinaryTag, d).value) == GameDataBinaryTag
  {
  }

  lemma AuthorityChangedDataTag(d: Value)
    ensures DecodeData(AuthorityChangedTag, d).Ok? ==> TagOf(DecodeData(AuthorityChangedTag, d).value) == AuthorityChangedTag
  {
  }

  lemma AuthorityResponseDataTag(d: Value)
    ensures DecodeData(AuthorityResponseTag, d).Ok? ==> TagOf(DecodeData(AuthorityResponseTag, d).value) == AuthorityResponseTag
  {
  }

  lemma LobbyStateChangedDataTag(d: Value)
    ensures DecodeData(LobbyStateChangedTag, d).Ok? ==> TagOf(DecodeData(LobbyStateChangedTag, d).value) == LobbyStateChangedTag
  {
  }

  lemma GameStartingDataTag(d: Value)
    ensures DecodeData(GameStartingTag, d).Ok? ==> TagOf(DecodeData(GameStartingTag, d).value) == GameStartingTag
  {
  }

  lemma PongDataTag(d: Value)
    ensures DecodeData(PongTag, d).Ok? ==> TagOf(DecodeData(PongTag, d).value) == PongTag
  {
  }

  lemma ReconnectedDataTag(d: Value)
    ensures DecodeData(ReconnectedTag, d).Ok? ==> TagOf(DecodeData(ReconnectedTag, d).value) == ReconnectedTag
  {
    if DecodeData(ReconnectedTag, d).Ok? {
      TagOfVariant(DecodeData(ReconnectedTag, d).value);
    }
  }

  lemma ReconnectionFailedDataTag(d: Value)
    ensures DecodeData(ReconnectionFailedTag, d).Ok? ==> TagOf(DecodeData(ReconnectionFailedTag, d).value) == ReconnectionFailedTag
  {
  }

  lemma PlayerReconnectedDataTag(d: Value)
    ensures DecodeData(PlayerReconnectedTag, d).Ok? ==> TagOf(DecodeData(PlayerReconnectedTag, d).value) == PlayerReconnectedTag
  {
  }

  lemma SpectatorJoinedDataTag(d: Value)
    ensures DecodeData(SpectatorJoinedTag, d).Ok? ==> TagOf(DecodeData(SpectatorJoinedTag, d).value) == SpectatorJoinedTag
  {
    if DecodeData(SpectatorJoinedTag, d).Ok? {
      TagOfVariant(DecodeData(SpectatorJoinedTag, d).value);
    }
  }

  lemma SpectatorJoinFailedDataTag(d: Value)
    ensures DecodeData(SpectatorJoinFailedTag, d).Ok? ==> TagOf(DecodeData(SpectatorJoinFailedTag, d).value) == SpectatorJoinFailedTag
  {
  }

  lemma SpectatorLeftDataTag(d: Value)
    ensures DecodeData(SpectatorLeftTag, d).Ok? ==> TagOf(DecodeData(SpectatorLeftTag, d).value) == SpectatorLeftTag
  {
  }

  lemma NewSpectatorJoinedDataTag(d: Value)
    ensures DecodeData(NewSpectatorJoinedTag, d).Ok? ==> TagOf(DecodeData(NewSpectatorJoinedTag, d).value) == NewSpectatorJoinedTag
  {
  }

  lemma SpectatorDisconnectedDataTag(d: Value)
    ensures DecodeData(SpectatorDisconnectedTag, d).Ok? ==> TagOf(DecodeData(SpectatorDisconnectedTag, d).value) == SpectatorDisconnectedTag
  {
  }

  lemma ErrorDataTag(d: Value)
    ensures DecodeData(ErrorTag, d).Ok? ==> TagOf(DecodeData(ErrorTag, d).value) == ErrorTag
  {
  }

  /** The content of the variant named by `t` can only read as that variant. */
  lemma DecodeDataTag(t: Tag, d: Value)
    ensures DecodeData(t, d).Ok? ==> TagOf(DecodeData(t, d).value) == t
  {
    match t
    case AuthenticatedTag => AuthenticatedDataTag(d);
    case ProtocolInfoTag => ProtocolInfoDataTag(d);
    case AuthenticationErrorTag => AuthenticationErrorDataTag(d);
    case RoomJoinedTag => RoomJoinedDataTag(d);
    case RoomJoinFailedTag => RoomJoinFailedDataTag(d);
    case RoomLeftTag => RoomLeftDataTag(d);
    case PlayerJoinedTag => PlayerJoinedDataTag(d);
    case PlayerLeftTag => PlayerLeftDataTag(d);
    case GameDataTag => GameDataDataTag(d);
    case GameDataBinaryTag => GameDataBinaryDataTag(d);
    case AuthorityChangedTag => AuthorityChangedDataTag(d);
    case AuthorityResponseTag => AuthorityResponseDataTag(d);
    case LobbyStateChangedTag => LobbyStateChangedDataTag(d);
    case GameStartingTag => GameStartingDataTag(d);
    case PongTag => PongDataTag(d);
    case ReconnectedTag => ReconnectedDataTag(d);
    case ReconnectionFailedTag => ReconnectionFailedDataTag(d);
    case PlayerReconnectedTag => PlayerReconnectedDataTag(d);
    case SpectatorJoinedTag => SpectatorJoinedDataTag(d);
    case SpectatorJoinFailedTag => SpectatorJoinFailedDataTag(d);
    case SpectatorLeftTag => SpectatorLeftDataTag(d);
    case NewSpectatorJoinedTag => NewSpectatorJoinedDataTag(d);
    case SpectatorDisconnectedTag => SpectatorDisconnectedDataTag(d);
    case ErrorTag => ErrorDataTag(d);
  }

  /** A message reads as the variant its `"type"` (or the sequence's first element) names. */
  lemma DecodeTag(j: Value)
    ensures Decode(j).Ok? ==> j.JObject? || j.JArray?
    ensures Decode(j).Ok? && j.JObject? ==>
              "type" in j.fields && j.fields["type"] == JString(TagName(TagOf(Decode(j).value)))
    ensures Decode(j).Ok? && j.JArray? ==>
              |j.items| == 2 && j.items[0] == JString(TagName(TagOf(Decode(j).value)))
  {
    if j.JObject? && "type" in j.fields && j.fields["type"].JString? {
      var m := j.fields;
      match ParseTag(m["type"].s)
      case None =>
      case Some(t) =>
        if "data" in m {
          DecodeDataTag(t, m["data"]);
        }
    } else if j.JArray? && |j.items| == 2 && j.items[0].JString? {
      match ParseTag(j.items[0].s)
      case None =>
      case Some(t) =>
        DecodeDataTag(t, j.items[1]);
    }
  }


  // ── Reconnected: the room fields and the missed events ─────────────

  /** `ReconnectedPayload` is one flat object: the room fields and `missed_events` beside them. */
  function ReconnectedToJson(p: ReconnectedPayload): Value
    decreases p, 0
  {
    JObject(RoomMap(p.room)["missed_events" :=
      JArray(seq(|p.missedEvents|, i requires 0 <= i < |p.missedEvents| => Encode(p.missedEvents[i])))])
  }

  /** Reads the room fields, then `missed_events`, whose every element is a server message. */
  function DecodeReconnected(d: Value): (r: Decoded<ServerMessage>)
    ensures r.Ok? ==> r.value.Reconnected?
    decreases d, 0
  {
    var m :- AsObject(d);
    var room :- DecodeRoom(m);
    if "missed_events" !in m then Err(MissingField("missed_events"))
    else if !m["missed_events"].JArray? then Err(InvalidType("array"))
    else
      var events :- DecodeEvents(m["missed_events"].items, 0);
      Ok(Reconnected(ReconnectedPayload(room, events)))
  }

  /** The missed events from index `i` on; the first element that fails fails the array. */
  function DecodeEvents(items: seq<Value>, i: nat): (r: Decoded<seq<ServerMessage>>)
    requires i <= |items|
    ensures r.Ok? ==> |r.value| == |items| - i
    decreases JArray(items), |items| - i
  {
    if i == |items| then Ok([])
    else
      var head :- Decode(items[i]);
      var tail :- DecodeEvents(items, i + 1);
      Ok([head] + tail)
  }

  /** An event list reads back one event followed by the rest. */
  lemma DecodeEventsStep(items: seq<Value>, ms: seq<ServerMessage>, i: nat)
    requires |items| == |ms| && i < |ms|
    requires Decode(items[i]) == Ok(ms[i]) && DecodeEvents(items, i + 1) == Ok(ms[i + 1..])
    ensures DecodeEvents(items, i) == Ok(ms[i..])
  {
    assert ms[i..] == [ms[i]] + ms[i + 1..];
  }

  /** The room fields of a `Reconnected` read back whatever `missed_events` holds. */
  lemma DecodeRoomBesideEvents(room: RoomJoinedPayload, events: Value)
    ensures DecodeRoom(RoomMap(room)["missed_events" := events]) == Ok(room)
  {
    var m := RoomMap(room);
    RoomMapEntries1(room, m);
    RoomMapEntries2(room, m);
    RoomMapEntries3(room, m);
    DecodeRoomAccepts(room, m["missed_events" := events]);
  }

  lemma {:induction false} ReconnectedRoundTrip(p: ReconnectedPayload)
    ensures DecodeReconnected(ReconnectedToJson(p)) == Ok(Reconnected(p))
    decreases p, 1
  {
    var items := seq(|p.missedEvents|, i requires 0 <= i < |p.missedEvents| => Encode(p.missedEvents[i]));
    DecodeRoomBesideEvents(p.room, JArray(items));
    forall k | 0 <= k < |items| ensures Decode(items[k]) == Ok(p.missedEvents[k]) {
      RoundTrip(p.missedEvents[k]);
    }
    EventsDecode(p.missedEvents, items, 0);
  }

  /** An event list whose every item reads back reads back as the whole list. */
  lemma EventsDecode(ms: seq<ServerMessage>, items: seq<Value>, i: nat)
    requires |items| == |ms| && i <= |ms|
    requires forall k :: 0 <= k < |ms| ==> Decode(items[k]) == Ok(ms[k])
    ensures DecodeEvents(items, i) == Ok(ms[i..])
  {
    var j := |ms|;
    assert ms[j..] == [];
    while j > i
      invariant i <= j <= |ms|
      invariant DecodeEvents(items, j) == Ok(ms[j..])
    {
      j := j - 1;
      DecodeEventsStep(items, ms, j);
    }
  }


  lemma AuthenticatedContentRoundTrip(msg: ServerMessage)
    requires msg.Authenticated?
    ensures DecodeData(TagOf(msg), Content(msg).value) == Ok(msg)
  {
    assert TagOf(msg) == AuthenticatedTag;
    AuthenticatedRoundTrip(msg);
    assert DecodeData(AuthenticatedTag, JObject(AuthenticatedMap(msg))) == Ok(msg);
  }

  lemma ProtocolInfoContentRoundTrip(msg: ServerMessage)
    requires msg.ProtocolInfo?
    ensures DecodeData(TagOf(msg), Content(msg).value) == Ok(msg)
  {
    assert TagOf(msg) == ProtocolInfoTag;
    assert Content(msg) == Some(ProtocolInfoToJson(msg.info));
    ProtocolInfoRoundTrip(msg.info);
  }

  lemma AuthenticationErrorContentRoundTrip(msg: ServerMessage)
    requires msg.AuthenticationError?
    ensures DecodeData(TagOf(msg), Content(msg).value) == Ok(msg)
  {
    assert TagOf(msg) == AuthenticationErrorTag;
    AuthenticationErrorRoundTrip(msg);
    assert DecodeData(AuthenticationErrorTag, JObject(AuthenticationErrorMap(msg))) == Ok(msg);
  }

  lemma RoomJoinedContentRoundTrip(msg: ServerMessage)
    requires msg.RoomJoined?
    ensures DecodeData(TagOf(msg), Content(msg).value) == Ok(msg)
  {
    assert TagOf(msg) == RoomJoinedTag;
    assert Content(msg) == Some(RoomToJson(msg.joined));
    RoomRoundTrip(msg.joined);
  }

  lemma RoomJoinFailedContentRoundTrip(msg: ServerMessage)
    requires msg.RoomJoinFailed?
    ensures DecodeData(TagOf(msg), Content(msg).value) == Ok(msg)
  {
    assert TagOf(msg) == RoomJoinFailedTag;
    RoomJoinFailedRoundTrip(msg);
    assert DecodeData(RoomJoinFailedTag, JObject(RoomJoinFailedMap(msg))) == Ok(msg);
  }

  lemma PlayerJoinedContentRoundTrip(msg: ServerMessage)
    requires msg.PlayerJoined?
    ensures DecodeData(TagOf(msg), Content(msg).value) == Ok(msg)
  {
    assert TagOf(msg) == PlayerJoinedTag;
    PlayerJoinedRoundTrip(msg);
    assert DecodeData(PlayerJoinedTag, JObject(PlayerJoinedMap(msg))) == Ok(msg);
  }

  lemma PlayerLeftContentRoundTrip(msg: ServerMessage)
    requires msg.PlayerLeft?
    ensures DecodeData(TagOf(msg), Content(msg).value) == Ok(msg)
  {
    assert TagOf(msg) == PlayerLeftTag;
    PlayerLeftRoundTrip(msg);
    assert DecodeData(PlayerLeftTag, JObject(PlayerLeftMap(msg))) == Ok(msg);
  }

  lemma GameDataContentRoundTrip(msg: ServerMessage)
    requires msg.ServerGameData?
    ensures DecodeData(TagOf(msg), Content(msg).value) == Ok(msg)
  {
    assert TagOf(msg) == GameDataTag;
    GameDataRoundTrip(msg);
    assert DecodeData(GameDataTag, JObject(GameDataMap(msg))) == Ok(msg);
  }

  lemma GameDataBinaryContentRoundTrip(msg: ServerMessage)
    requires msg.GameDataBinary?
    ensures DecodeData(TagOf(msg), Content(msg).value) == Ok(msg)
  {
    assert TagOf(msg) == GameDataBinaryTag;
    GameDataBinaryRoundTrip(msg);
    assert DecodeData(GameDataBinaryTag, JObject(GameDataBinaryMap(msg))) == Ok(msg);
  }

  lemma AuthorityChangedContentRoundTrip(msg: ServerMessage)
    requires msg.AuthorityChanged?
    ensures DecodeData(TagOf(msg), Content(msg).value) == Ok(msg)
  {
    assert TagOf(msg) == AuthorityChangedTag;
    AuthorityChangedRoundTrip(msg);
    assert DecodeData(AuthorityChangedTag, JObject(AuthorityChangedMap(msg))) == Ok(msg);
  }

  lemma AuthorityResponseContentRoundTrip(msg: ServerMessage)
    requires msg.AuthorityResponse?
    ensures DecodeData(TagOf(msg), Content(msg).value) == Ok(msg)
  {
    assert TagOf(msg) == AuthorityResponseTag;
    AuthorityResponseRoundTrip(msg);
    assert DecodeData(AuthorityResponseTag, JObject(AuthorityResponseMap(msg))) == Ok(msg);
  }

  lemma LobbyStateChangedContentRoundTrip(msg: ServerMessage)
    requires msg.LobbyStateChanged?
    ensures DecodeData(TagOf(msg), Content(msg).value) == Ok(msg)
  {
    assert TagOf(msg) == LobbyStateChangedTag;
    LobbyStateChangedRoundTrip(msg);
    assert DecodeData(LobbyStateChangedTag, JObject(LobbyStateChangedMap(msg))) == Ok(msg);
  }

  lemma GameStartingContentRoundTrip(msg: ServerMessage)
    requires msg.GameStarting?
    ensures DecodeData(TagOf(msg), Content(msg).value) == Ok(msg)
  {
    assert TagOf(msg) == GameStartingTag;
    GameStartingRoundTrip(msg);
    assert DecodeData(GameStartingTag, JObject(GameStartingMap(msg))) == Ok(msg);
  }

  lemma {:induction false} ReconnectedContentRoundTrip(msg: ServerMessage)
    requires msg.Reconnected?
    ensures DecodeData(TagOf(msg), Content(msg).value) == Ok(msg)
    decreases msg, 0
  {
    assert TagOf(msg) == ReconnectedTag;
    assert Content(msg) == Some(ReconnectedToJson(msg.reconnected));
    ReconnectedRoundTrip(msg.reconnected);
  }

  lemma ReconnectionFailedContentRoundTrip(msg: ServerMessage)
    requires msg.ReconnectionFailed?
    ensures DecodeData(TagOf(msg), Content(msg).value) == Ok(msg)
  {
    assert TagOf(msg) == ReconnectionFailedTag;
    ReconnectionFailedRoundTrip(msg);
    assert DecodeData(ReconnectionFailedTag, JObject(ReconnectionFailedMap(msg))) == Ok(msg);
  }

  lemma PlayerReconnectedContentRoundTrip(msg: ServerMessage)
    requires msg.PlayerReconnected?
    ensures DecodeData(TagOf(msg), Content(msg).value) == Ok(msg)
  {
    assert TagOf(msg) == PlayerReconnectedTag;
    PlayerReconnectedRoundTrip(msg);
    assert DecodeData(PlayerReconnectedTag, JObject(PlayerReconnectedMap(msg))) == Ok(msg);
  }

  lemma SpectatorJoinedContentRoundTrip(msg: ServerMessage)
    requires msg.SpectatorJoined?
    ensures DecodeData(TagOf(msg), Content(msg).value) == Ok(msg)
  {
    assert TagOf(msg) == SpectatorJoinedTag;
    assert Content(msg) == Some(SpectatorJoinedToJson(msg.spectating));
    SpectatorJoinedRoundTrip(msg.spectating);
  }

  lemma SpectatorJoinFailedContentRoundTrip(msg: ServerMessage)
    requires msg.SpectatorJoinFailed?
    ensures DecodeData(TagOf(msg), Content(msg).value) == Ok(msg)
  {
    assert TagOf(msg) == SpectatorJoinFailedTag;
    SpectatorJoinFailedRoundTrip(msg);
    assert DecodeData(SpectatorJoinFailedTag, JObject(SpectatorJoinFailedMap(msg))) == Ok(msg);
  }

  lemma SpectatorLeftContentRoundTrip(msg: ServerMessage)
    requires msg.SpectatorLeft?
    ensures DecodeData(TagOf(msg), Content(msg).value) == Ok(msg)
  {
    assert TagOf(msg) == SpectatorLeftTag;
    SpectatorLeftRoundTrip(msg);
    assert DecodeData(SpectatorLeftTag, JObject(SpectatorLeftMap(msg))) == Ok(msg);
  }

  lemma NewSpectatorJoinedContentRoundTrip(msg: ServerMessage)
    requires msg.NewSpectatorJoined?
    ensures DecodeData(TagOf(msg), Content(msg).value) == Ok(msg)
  {
    assert TagOf(msg) == NewSpectatorJoinedTag;
    NewSpectatorJoinedRoundTrip(msg);
    assert DecodeData(NewSpectatorJoinedTag, JObject(NewSpectatorJoinedMap(msg))) == Ok(msg);
  }

  lemma SpectatorDisconnectedContentRoundTrip(msg: ServerMessage)
    requires msg.SpectatorDisconnected?
    ensures DecodeData(TagOf(msg), Content(msg).value) == Ok(msg)
  {
    assert TagOf(msg) == SpectatorDisconnectedTag;
    SpectatorDisconnectedRoundTrip(msg);
    assert DecodeData(SpectatorDisconnectedTag, JObject(SpectatorDisconnectedMap(msg))) == Ok(msg);
  }

  lemma ErrorContentRoundTrip(msg: ServerMessage)
    requires msg.Error?
    ensures DecodeData(TagOf(msg), Content(msg).value) == Ok(msg)
  {
    assert TagOf(msg) == ErrorTag;
    ErrorRoundTrip(msg);
    assert DecodeData(ErrorTag, JObject(ErrorMap(msg))) == Ok(msg);
  }

  /** Each variant's content reads back as the message. */
  lemma {:induction false} ContentRoundTrip(msg: ServerMessage)
    ensures Content(msg).Some? ==> DecodeData(TagOf(msg), Content(msg).value) == Ok(msg)
    ensures Content(msg).None? ==> DecodeNoData(TagOf(msg)) == Ok(msg)
    decreases msg, 1
  {
    match msg
    case Authenticated(_, _, _) => AuthenticatedContentRoundTrip(msg);
    case ProtocolInfo(_) => ProtocolInfoContentRoundTrip(msg);
    case AuthenticationError(_, _) => AuthenticationErrorContentRoundTrip(msg);
    case RoomJoined(_) => RoomJoinedContentRoundTrip(msg);
    case RoomJoinFailed(_, _) => RoomJoinFailedContentRoundTrip(msg);
    case RoomLeft =>
    case PlayerJoined(_) => PlayerJoinedContentRoundTrip(msg);
    case PlayerLeft(_) => PlayerLeftContentRoundTrip(msg);
    case ServerGameData(_, _) => GameDataContentRoundTrip(msg);
    case GameDataBinary(_, _, _) => GameDataBinaryContentRoundTrip(msg);
    case AuthorityChanged(_, _) => AuthorityChangedContentRoundTrip(msg);
    case AuthorityResponse(_, _, _) => AuthorityResponseContentRoundTrip(msg);
    case LobbyStateChanged(_, _, _) => LobbyStateChangedContentRoundTrip(msg);
    case GameStarting(_) => GameStartingContentRoundTrip(msg);
    case Pong =>
    case Reconnected(_) => ReconnectedContentRoundTrip(msg);
    case ReconnectionFailed(_, _) => ReconnectionFailedContentRoundTrip(msg);
    case PlayerReconnected(_) => PlayerReconnectedContentRoundTrip(msg);
    case SpectatorJoined(_) => SpectatorJoinedContentRoundTrip(msg);
    case SpectatorJoinFailed(_, _) => SpectatorJoinFailedContentRoundTrip(msg);
    case SpectatorLeft(_, _, _, _) => SpectatorLeftContentRoundTrip(msg);
    case NewSpectatorJoined(_, _, _) => NewSpectatorJoinedContentRoundTrip(msg);
    case SpectatorDisconnected(_, _, _) => SpectatorDisconnectedContentRoundTrip(msg);
    case Error(_, _) => ErrorContentRoundTrip(msg);
  }

  /** Every message reads back from what it writes. */
  lemma {:induction false} RoundTrip(msg: ServerMessage)
    ensures Decode(Encode(msg)) == Ok(msg)
    decreases msg, 2
  {
    ParseTagName(TagOf(msg));
    ContentRoundTrip(msg);
  }

  // ── Envelope facts ─────────────────────────────────────────────────

  /** A unit variant is written as `{"type": name}` alone; every other variant adds `"data"`. */
  lemma EncodeShape(msg: ServerMessage)
    ensures Encode(msg).JObject?
    ensures Encode(msg).fields["type"] == JString(TagName(TagOf(msg)))
    ensures Encode(msg).fields.Keys == if IsUnit(TagOf(msg)) then {"type"} else {"type", "data"}
  {
    var t := TagOf(msg);
    assert Content(msg).None? <==> IsUnit(t);
    assert Encode(msg) == Tagged(TagName(t), Content(msg));
  }

  /** A `"type"` that names no variant is an unknown variant, whatever else the object holds. */
  lemma DecodeUnknownTag(m: map<string, Value>, name: string)
    requires "type" in m && m["type"] == JString(name)
    requires forall t :: TagName(t) != name
    ensures Decode(JObject(m)) == Err(UnknownVariant(name))
  {
    ParseTagRejects(name);
  }

  /** An object without `"type"` is missing that field. */
  lemma DecodeMissingType(m: map<string, Value>)
    requires "type" !in m
    ensures Decode(JObject(m)) == Err(MissingField("type"))
  {
  }

  /** A variant with fields must carry `"data"`; a unit variant may leave it out or give `null`. */
  lemma DecodeDataPresence(t: Tag)
    ensures Decode(Tagged(TagName(t), None)).Ok? <==> IsUnit(t)
    ensures !IsUnit(t) ==> Decode(Tagged(TagName(t), None)) == Err(MissingField("data"))
    ensures IsUnit(t) ==> Decode(Tagged(TagName(t), Some(JNull))) == Decode(Tagged(TagName(t), None))
  {
    ParseTagName(t);
  }

  /** The sequence form `[name, content]` reads exactly as the object `{"type": name, "data": content}`. */
  lemma SequenceFormAgrees(name: string, d: Value)
    ensures Decode(JArray([JString(name), d])) == Decode(JObject(map["type" := JString(name), "data" := d]))
  {
    var m := map["type" := JString(name), "data" := d];
    assert "data" in m && m["data"] == d && m["type"] == JString(name);
  }

  /** A sequence of any other length than two is refused. */
  lemma SequenceFormLength(items: seq<Value>)
    requires |items| != 2
    ensures Decode(JArray(items)).Err?
  {
  }

  /** `["Pong", null]` is a `Pong`. */
  lemma UnitInSequenceForm()
    ensures Decode(JArray([JString("Pong"), JNull])) == Ok(Pong)
  {
    ParseTagName(PongTag);
  }

}
