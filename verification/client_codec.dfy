/**
  The JSON form of the messages a client sends (`ClientMessage`): each is
  adjacently tagged, with the variant name under `"type"` and the variant's
  fields, as an object, under `"data"`.
*/
module ClientCodec {
  import opened Wrappers
  import opened JsonTree
  import opened Protocol
  import opened ProtocolCodec

  // ── Variant names ──────────────────────────────────────────────────

  /** The variants of `ClientMessage`, as the values of the `"type"` key name them. */
  datatype Tag =
    | AuthenticateTag
    | JoinRoomTag
    | LeaveRoomTag
    | GameDataTag
    | AuthorityRequestTag
    | PlayerReadyTag
    | ProvideConnectionInfoTag
    | PingTag
    | ReconnectTag
    | JoinAsSpectatorTag
    | LeaveSpectatorTag

  /** The wire name of a variant: its Rust name, unchanged. */
  function TagName(t: Tag): string {
    match t
    case AuthenticateTag => "Authenticate"
    case JoinRoomTag => "JoinRoom"
    case LeaveRoomTag => "LeaveRoom"
    case GameDataTag => "GameData"
    case AuthorityRequestTag => "AuthorityRequest"
    case PlayerReadyTag => "PlayerReady"
    case ProvideConnectionInfoTag => "ProvideConnectionInfo"
    case PingTag => "Ping"
    case ReconnectTag => "Reconnect"
    case JoinAsSpectatorTag => "JoinAsSpectator"
    case LeaveSpectatorTag => "LeaveSpectator"
  }

  /**
    Reads a variant name; anything else is unknown. The names are compared
    within groups of equal length, which is the same function as comparing
    against every name in turn.
  */
  function ParseTag(s: string): (r: Option<Tag>)
    ensures r.Some? ==> TagName(r.value) == s
  {
    match |s|
    case 4 =>
      if s == TagName(PingTag) then Some(PingTag)
      else None
    case 8 =>
      if s == TagName(JoinRoomTag) then Some(JoinRoomTag)
      else if s == TagName(GameDataTag) then Some(GameDataTag)
      else None
    case 9 =>
      if s == TagName(LeaveRoomTag) then Some(LeaveRoomTag)
      else if s == TagName(ReconnectTag) then Some(ReconnectTag)
      else None
    case 11 =>
      if s == TagName(PlayerReadyTag) then Some(PlayerReadyTag)
      else None
    case 12 =>
      if s == TagName(AuthenticateTag) then Some(AuthenticateTag)
      else None
    case 14 =>
      if s == TagName(LeaveSpectatorTag) then Some(LeaveSpectatorTag)
      else None
    case 15 =>
      if s == TagName(JoinAsSpectatorTag) then Some(JoinAsSpectatorTag)
      else None
    case 16 =>
      if s == TagName(AuthorityRequestTag) then Some(AuthorityRequestTag)
      else None
    case 21 =>
      if s == TagName(ProvideConnectionInfoTag) then Some(ProvideConnectionInfoTag)
      else None
    case _ => None
  }

  /** Every variant name reads back as its variant, so the names are distinct. */
  lemma ParseTagName(t: Tag)
    ensures ParseTag(TagName(t)) == Some(t)
  {
  }

  /** Exactly the variant names are known. */
  lemma ParseTagRejects(s: string)
    ensures ParseTag(s).None? <==> forall t :: TagName(t) != s
  {
    forall t | TagName(t) == s ensures ParseTag(s).Some? {
      ParseTagName(t);
    }
  }

  function TagOf(msg: ClientMessage): Tag {
    match msg
    case Authenticate(_, _, _, _) => AuthenticateTag
    case JoinRoom(_, _, _, _, _, _) => JoinRoomTag
    case LeaveRoom => LeaveRoomTag
    case GameData(_) => GameDataTag
    case AuthorityRequest(_) => AuthorityRequestTag
    case PlayerReady => PlayerReadyTag
    case ProvideConnectionInfo(_) => ProvideConnectionInfoTag
    case Ping => PingTag
    case Reconnect(_, _, _) => ReconnectTag
    case JoinAsSpectator(_, _, _) => JoinAsSpectatorTag
    case LeaveSpectator => LeaveSpectatorTag
  }

  /** The variants without fields, which travel without `"data"`. */
  predicate IsUnit(t: Tag) {
    t == LeaveRoomTag || t == PlayerReadyTag || t == PingTag || t == LeaveSpectatorTag
  }

  /** Each variant's tag, stated one constructor at a time. */
  lemma TagOfVariant(msg: ClientMessage)
    ensures msg.Authenticate? ==> TagOf(msg) == AuthenticateTag
    ensures msg.JoinRoom? ==> TagOf(msg) == JoinRoomTag
    ensures msg.LeaveRoom? ==> TagOf(msg) == LeaveRoomTag
    ensures msg.GameData? ==> TagOf(msg) == GameDataTag
    ensures msg.AuthorityRequest? ==> TagOf(msg) == AuthorityRequestTag
    ensures msg.PlayerReady? ==> TagOf(msg) == PlayerReadyTag
    ensures msg.ProvideConnectionInfo? ==> TagOf(msg) == ProvideConnectionInfoTag
    ensures msg.Ping? ==> TagOf(msg) == PingTag
    ensures msg.Reconnect? ==> TagOf(msg) == ReconnectTag
    ensures msg.JoinAsSpectator? ==> TagOf(msg) == JoinAsSpectatorTag
    ensures msg.LeaveSpectator? ==> TagOf(msg) == LeaveSpectatorTag
  {
  }


  // ── Variant contents ───────────────────────────────────────────────

  function AuthenticateMap(msg: ClientMessage): map<string, Value>
    requires msg.Authenticate?
  {
    var m := map["app_id" := JString(msg.appId)];
    var m := PutIfSome(m, "sdk_version", if msg.sdkVersion.Some? then Some(JString(msg.sdkVersion.value)) else None);
    var m := PutIfSome(m, "platform", if msg.platform.Some? then Some(JString(msg.platform.value)) else None);
    PutIfSome(m, "game_data_format", if msg.gameDataFormat.Some? then Some(EncodingToJson(msg.gameDataFormat.value)) else None)
  }

  function DecodeAuthenticate(m: map<string, Value>): (r: Decoded<ClientMessage>)
    ensures r.Ok? ==> TagOf(r.value) == AuthenticateTag
  {
    var appId :- Field(m, "app_id", AsString);
    var sdkVersion :- OptionalField(m, "sdk_version", AsString);
    var platform :- OptionalField(m, "platform", AsString);
    var gameDataFormat :- OptionalField(m, "game_data_format", AsEncoding);
    Ok(Authenticate(appId, sdkVersion, platform, gameDataFormat))
  }

  lemma AuthenticateMapEntries(msg: ClientMessage, m: map<string, Value>)
    requires msg.Authenticate?
    requires m == AuthenticateMap(msg)
    ensures "app_id" in m && m["app_id"] == JString(msg.appId)
    ensures if msg.sdkVersion.Some? then "sdk_version" in m && m["sdk_version"] == JString(msg.sdkVersion.value) else "sdk_version" !in m
    ensures if msg.platform.Some? then "platform" in m && m["platform"] == JString(msg.platform.value) else "platform" !in m
    ensures if msg.gameDataFormat.Some? then "game_data_format" in m && m["game_data_format"] == EncodingToJson(msg.gameDataFormat.value) else "game_data_format" !in m
  {
    assert "app_id" in m && m["app_id"] == JString(msg.appId);
    assert if msg.sdkVersion.Some? then "sdk_version" in m && m["sdk_version"] == JString(msg.sdkVersion.value) else "sdk_version" !in m;
    assert if msg.platform.Some? then "platform" in m && m["platform"] == JString(msg.platform.value) else "platform" !in m;
    assert if msg.gameDataFormat.Some? then "game_data_format" in m && m["game_data_format"] == EncodingToJson(msg.gameDataFormat.value) else "game_data_format" !in m;
  }

  lemma DecodeAuthenticateAccepts(msg: ClientMessage, m: map<string, Value>)
    requires msg.Authenticate?
    requires "app_id" in m && m["app_id"] == JString(msg.appId)
    requires if msg.sdkVersion.Some? then "sdk_version" in m && m["sdk_version"] == JString(msg.sdkVersion.value) else "sdk_version" !in m
    requires if msg.platform.Some? then "platform" in m && m["platform"] == JString(msg.platform.value) else "platform" !in m
    requires if msg.gameDataFormat.Some? then "game_data_format" in m && m["game_data_format"] == EncodingToJson(msg.gameDataFormat.value) else "game_data_format" !in m
    ensures DecodeAuthenticate(m) == Ok(msg)
  {
    assert Field(m, "app_id", AsString) == Ok(msg.appId);
    assert OptionalField(m, "sdk_version", AsString) == Ok(msg.sdkVersion);
    assert OptionalField(m, "platform", AsString) == Ok(msg.platform);
    if msg.gameDataFormat.Some? {
      EncodingRoundTrip(msg.gameDataFormat.value);
    }
    assert OptionalField(m, "game_data_format", AsEncoding) == Ok(msg.gameDataFormat);
  }

  lemma AuthenticateRoundTrip(msg: ClientMessage)
    requires msg.Authenticate?
    ensures DecodeAuthenticate(AuthenticateMap(msg)) == Ok(msg)
  {
    var m := AuthenticateMap(msg);
    AuthenticateMapEntries(msg, m);
    DecodeAuthenticateAccepts(msg, m);
  }

  function JoinRoomMap(msg: ClientMessage): map<string, Value>
    requires msg.JoinRoom?
  {
    map["game_name" := JString(msg.gameName),
        "room_code" := OrNull(if msg.roomCode.Some? then Some(JString(msg.roomCode.value)) else None),
        "player_name" := JString(msg.playerName),
        "max_players" := OrNull(if msg.maxPlayers.Some? then Some(JInt(msg.maxPlayers.value)) else None),
        "supports_authority" := OrNull(if msg.supportsAuthority.Some? then Some(JBool(msg.supportsAuthority.value)) else None),
        "relay_transport" := OrNull(if msg.relayTransport.Some? then Some(RelayTransportToJson(msg.relayTransport.value)) else None)]
  }

  function DecodeJoinRoom(m: map<string, Value>): (r: Decoded<ClientMessage>)
    ensures r.Ok? ==> TagOf(r.value) == JoinRoomTag
  {
    var gameName :- Field(m, "game_name", AsString);
    var roomCode :- OptionalField(m, "room_code", AsString);
    var playerName :- Field(m, "player_name", AsString);
    var maxPlayers :- OptionalField(m, "max_players", AsU8);
    var supportsAuthority :- OptionalField(m, "supports_authority", AsBool);
    var relayTransport :- OptionalField(m, "relay_transport", AsRelayTransport);
    Ok(JoinRoom(gameName, roomCode, playerName, maxPlayers, supportsAuthority, relayTransport))
  }

  lemma JoinRoomMapEntries(msg: ClientMessage, m: map<string, Value>)
    requires msg.JoinRoom?
    requires m == JoinRoomMap(msg)
    ensures "game_name" in m && m["game_name"] == JString(msg.gameName)
    ensures "room_code" in m && m["room_code"] == (if msg.roomCode.Some? then JString(msg.roomCode.value) else JNull)
    ensures "player_name" in m && m["player_name"] == JString(msg.playerName)
    ensures "max_players" in m && m["max_players"] == (if msg.maxPlayers.Some? then JInt(msg.maxPlayers.value) else JNull)
    ensures "supports_authority" in m && m["supports_authority"] == (if msg.supportsAuthority.Some? then JBool(msg.supportsAuthority.value) else JNull)
    ensures "relay_transport" in m && m["relay_transport"] == (if msg.relayTransport.Some? then RelayTransportToJson(msg.relayTransport.value) else JNull)
  {
    assert "game_name" in m && m["game_name"] == JString(msg.gameName);
    assert "room_code" in m && m["room_code"] == (if msg.roomCode.Some? then JString(msg.roomCode.value) else JNull);
    assert "player_name" in m && m["player_name"] == JString(msg.playerName);
    assert "max_players" in m && m["max_players"] == (if msg.maxPlayers.Some? then JInt(msg.maxPlayers.value) else JNull);
    assert "supports_authority" in m && m["supports_authority"] == (if msg.supportsAuthority.Some? then JBool(msg.supportsAuthority.value) else JNull);
    assert "relay_transport" in m && m["relay_transport"] == (if msg.relayTransport.Some? then RelayTransportToJson(msg.relayTransport.value) else JNull);
  }

  lemma DecodeJoinRoomAccepts(msg: ClientMessage, m: map<string, Value>)
    requires msg.JoinRoom?
    requires "game_name" in m && m["game_name"] == JString(msg.gameName)
    requires "room_code" in m && m["room_code"] == (if msg.roomCode.Some? then JString(msg.roomCode.value) else JNull)
    requires "player_name" in m && m["player_name"] == JString(msg.playerName)
    requires "max_players" in m && m["max_players"] == (if msg.maxPlayers.Some? then JInt(msg.maxPlayers.value) else JNull)
    requires "supports_authority" in m && m["supports_authority"] == (if msg.supportsAuthority.Some? then JBool(msg.supportsAuthority.value) else JNull)
    requires "relay_transport" in m && m["relay_transport"] == (if msg.relayTransport.Some? then RelayTransportToJson(msg.relayTransport.value) else JNull)
    ensures DecodeJoinRoom(m) == Ok(msg)
  {
    assert Field(m, "game_name", AsString) == Ok(msg.gameName);
    assert OptionalField(m, "room_code", AsString) == Ok(msg.roomCode);
    assert Field(m, "player_name", AsString) == Ok(msg.playerName);
    assert OptionalField(m, "max_players", AsU8) == Ok(msg.maxPlayers);
    assert OptionalField(m, "supports_authority", AsBool) == Ok(msg.supportsAuthority);
    if msg.relayTransport.Some? {
      RelayTransportRoundTrip(msg.relayTransport.value);
    }
    assert OptionalField(m, "relay_transport", AsRelayTransport) == Ok(msg.relayTransport);
  }

  lemma JoinRoomRoundTrip(msg: ClientMessage)
    requires msg.JoinRoom?
    ensures DecodeJoinRoom(JoinRoomMap(msg)) == Ok(msg)
  {
    var m := JoinRoomMap(msg);
    JoinRoomMapEntries(msg, m);
    DecodeJoinRoomAccepts(msg, m);
  }

  function GameDataMap(msg: ClientMessage): map<string, Value>
    requires msg.GameData?
  {
    map["data" := msg.data]
  }

  function DecodeGameData(m: map<string, Value>): (r: Decoded<ClientMessage>)
    ensures r.Ok? ==> TagOf(r.value) == GameDataTag
  {
    var data :- Field(m, "data", AsValue);
    Ok(GameData(data))
  }

  lemma GameDataMapEntries(msg: ClientMessage, m: map<string, Value>)
    requires msg.GameData?
    requires m == GameDataMap(msg)
    ensures "data" in m && m["data"] == msg.data
  {
  }

  lemma DecodeGameDataAccepts(msg: ClientMessage, m: map<string, Value>)
    requires msg.GameData?
    requires "data" in m && m["data"] == msg.data
    ensures DecodeGameData(m) == Ok(msg)
  {
    assert Field(m, "data", AsValue) == Ok(msg.data);
  }

  lemma GameDataRoundTrip(msg: ClientMessage)
    requires msg.GameData?
    ensures DecodeGameData(GameDataMap(msg)) == Ok(msg)
  {
    var m := GameDataMap(msg);
    GameDataMapEntries(msg, m);
    DecodeGameDataAccepts(msg, m);
  }

  function AuthorityRequestMap(msg: ClientMessage): map<string, Value>
    requires msg.AuthorityRequest?
  {
    map["become_authority" := JBool(msg.becomeAuthority)]
  }

  function DecodeAuthorityRequest(m: map<string, Value>): (r: Decoded<ClientMessage>)
    ensures r.Ok? ==> TagOf(r.value) == AuthorityRequestTag
  {
    var becomeAuthority :- Field(m, "become_authority", AsBool);
    Ok(AuthorityRequest(becomeAuthority))
  }

  lemma AuthorityRequestMapEntries(msg: ClientMessage, m: map<string, Value>)
    requires msg.AuthorityRequest?
    requires m == AuthorityRequestMap(msg)
    ensures "become_authority" in m && m["become_authority"] == JBool(msg.becomeAuthority)
  {
  }

  lemma DecodeAuthorityRequestAccepts(msg: ClientMessage, m: map<string, Value>)
    requires msg.AuthorityRequest?
    requires "become_authority" in m && m["become_authority"] == JBool(msg.becomeAuthority)
    ensures DecodeAuthorityRequest(m) == Ok(msg)
  {
    assert Field(m, "become_authority", AsBool) == Ok(msg.becomeAuthority);
  }

  lemma AuthorityRequestRoundTrip(msg: ClientMessage)
    requires msg.AuthorityRequest?
    ensures DecodeAuthorityRequest(AuthorityRequestMap(msg)) == Ok(msg)
  {
    var m := AuthorityRequestMap(msg);
    AuthorityRequestMapEntries(msg, m);
    DecodeAuthorityRequestAccepts(msg, m);
  }

  function ProvideConnectionInfoMap(msg: ClientMessage): map<string, Value>
    requires msg.ProvideConnectionInfo?
  {
    map["connection_info" := ConnectionInfoToJson(msg.connectionInfo)]
  }

  function DecodeProvideConnectionInfo(m: map<string, Value>): (r: Decoded<ClientMessage>)
    ensures r.Ok? ==> TagOf(r.value) == ProvideConnectionInfoTag
  {
    var connectionInfo :- Field(m, "connection_info", AsConnectionInfo);
    Ok(ProvideConnectionInfo(connectionInfo))
  }

  lemma ProvideConnectionInfoMapEntries(msg: ClientMessage, m: map<string, Value>)
    requires msg.ProvideConnectionInfo?
    requires m == ProvideConnectionInfoMap(msg)
    ensures "connection_info" in m && m["connection_info"] == ConnectionInfoToJson(msg.connectionInfo)
  {
  }

  lemma DecodeProvideConnectionInfoAccepts(msg: ClientMessage, m: map<string, Value>)
    requires msg.ProvideConnectionInfo?
    requires "connection_info" in m && m["connection_info"] == ConnectionInfoToJson(msg.connectionInfo)
    ensures DecodeProvideConnectionInfo(m) == Ok(msg)
  {
    ConnectionInfoRoundTrip(msg.connectionInfo);
    assert Field(m, "connection_info", AsConnectionInfo) == Ok(msg.connectionInfo);
  }

  lemma ProvideConnectionInfoRoundTrip(msg: ClientMessage)
    requires msg.ProvideConnectionInfo?
    ensures DecodeProvideConnectionInfo(ProvideConnectionInfoMap(msg)) == Ok(msg)
  {
    var m := ProvideConnectionInfoMap(msg);
    ProvideConnectionInfoMapEntries(msg, m);
    DecodeProvideConnectionInfoAccepts(msg, m);
  }

  function ReconnectMap(msg: ClientMessage): map<string, Value>
    requires msg.Reconnect?
  {
    map["player_id" := UuidToJson(msg.playerId),
        "room_id" := UuidToJson(msg.roomId),
        "auth_token" := JString(msg.authToken)]
  }

  function DecodeReconnect(m: map<string, Value>): (r: Decoded<ClientMessage>)
    ensures r.Ok? ==> TagOf(r.value) == ReconnectTag
  {
    var playerId :- Field(m, "player_id", AsUuid);
    var roomId :- Field(m, "room_id", AsUuid);
    var authToken :- Field(m, "auth_token", AsString);
    Ok(Reconnect(playerId, roomId, authToken))
  }

  lemma ReconnectMapEntries(msg: ClientMessage, m: map<string, Value>)
    requires msg.Reconnect?
    requires m == ReconnectMap(msg)
    ensures "player_id" in m && m["player_id"] == UuidToJson(msg.playerId)
    ensures "room_id" in m && m["room_id"] == UuidToJson(msg.roomId)
    ensures "auth_token" in m && m["auth_token"] == JString(msg.authToken)
  {
    assert "player_id" in m && m["player_id"] == UuidToJson(msg.playerId);
    assert "room_id" in m && m["room_id"] == UuidToJson(msg.roomId);
    assert "auth_token" in m && m["auth_token"] == JString(msg.authToken);
  }

  lemma DecodeReconnectAccepts(msg: ClientMessage, m: map<string, Value>)
    requires msg.Reconnect?
    requires "player_id" in m && m["player_id"] == UuidToJson(msg.playerId)
    requires "room_id" in m && m["room_id"] == UuidToJson(msg.roomId)
    requires "auth_token" in m && m["auth_token"] == JString(msg.authToken)
    ensures DecodeReconnect(m) == Ok(msg)
  {
    UuidRoundTrip(msg.playerId);
    assert Field(m, "player_id", AsUuid) == Ok(msg.playerId);
    UuidRoundTrip(msg.roomId);
    assert Field(m, "room_id", AsUuid) == Ok(msg.roomId);
    assert Field(m, "auth_token", AsString) == Ok(msg.authToken);
  }

  lemma ReconnectRoundTrip(msg: ClientMessage)
    requires msg.Reconnect?
    ensures DecodeReconnect(ReconnectMap(msg)) == Ok(msg)
  {
    var m := ReconnectMap(msg);
    ReconnectMapEntries(msg, m);
    DecodeReconnectAccepts(msg, m);
  }

  function JoinAsSpectatorMap(msg: ClientMessage): map<string, Value>
    requires msg.JoinAsSpectator?
  {
    map["game_name" := JString(msg.gameName),
        "room_code" := JString(msg.spectateRoomCode),
        "spectator_name" := JString(msg.spectatorName)]
  }

  function DecodeJoinAsSpectator(m: map<string, Value>): (r: Decoded<ClientMessage>)
    ensures r.Ok? ==> TagOf(r.value) == JoinAsSpectatorTag
  {
    var gameName :- Field(m, "game_name", AsString);
    var spectateRoomCode :- Field(m, "room_code", AsString);
    var spectatorName :- Field(m, "spectator_name", AsString);
    Ok(JoinAsSpectator(gameName, spectateRoomCode, spectatorName))
  }

  lemma JoinAsSpectatorMapEntries(msg: ClientMessage, m: map<string, Value>)
    requires msg.JoinAsSpectator?
    requires m == JoinAsSpectatorMap(msg)
    ensures "game_name" in m && m["game_name"] == JString(msg.gameName)
    ensures "room_code" in m && m["room_code"] == JString(msg.spectateRoomCode)
    ensures "spectator_name" in m && m["spectator_name"] == JString(msg.spectatorName)
  {
    assert "game_name" in m && m["game_name"] == JString(msg.gameName);
    assert "room_code" in m && m["room_code"] == JString(msg.spectateRoomCode);
    assert "spectator_name" in m && m["spectator_name"] == JString(msg.spectatorName);
  }

  lemma DecodeJoinAsSpectatorAccepts(msg: ClientMessage, m: map<string, Value>)
    requires msg.JoinAsSpectator?
    requires "game_name" in m && m["game_name"] == JString(msg.gameName)
    requires "room_code" in m && m["room_code"] == JString(msg.spectateRoomCode)
    requires "spectator_name" in m && m["spectator_name"] == JString(msg.spectatorName)
    ensures DecodeJoinAsSpectator(m) == Ok(msg)
  {
    assert Field(m, "game_name", AsString) == Ok(msg.gameName);
    assert Field(m, "room_code", AsString) == Ok(msg.spectateRoomCode);
    assert Field(m, "spectator_name", AsString) == Ok(msg.spectatorName);
  }

  lemma JoinAsSpectatorRoundTrip(msg: ClientMessage)
    requires msg.JoinAsSpectator?
    ensures DecodeJoinAsSpectator(JoinAsSpectatorMap(msg)) == Ok(msg)
  {
    var m := JoinAsSpectatorMap(msg);
    JoinAsSpectatorMapEntries(msg, m);
    DecodeJoinAsSpectatorAccepts(msg, m);
  }

  // ── Messages ───────────────────────────────────────────────────────

  /** What a message writes under `"data"`; unit variants write nothing. */
  function Content(msg: ClientMessage): (r: Option<Value>)
    ensures r.None? <==> msg.LeaveRoom? || msg.PlayerReady? || msg.Ping? || msg.LeaveSpectator?
  {
    match msg
    case Authenticate(_, _, _, _) => Some(JObject(AuthenticateMap(msg)))
    case JoinRoom(_, _, _, _, _, _) => Some(JObject(JoinRoomMap(msg)))
    case LeaveRoom => None
    case GameData(_) => Some(JObject(GameDataMap(msg)))
    case AuthorityRequest(_) => Some(JObject(AuthorityRequestMap(msg)))
    case PlayerReady => None
    case ProvideConnectionInfo(_) => Some(JObject(ProvideConnectionInfoMap(msg)))
    case Ping => None
    case Reconnect(_, _, _) => Some(JObject(ReconnectMap(msg)))
    case JoinAsSpectator(_, _, _) => Some(JObject(JoinAsSpectatorMap(msg)))
    case LeaveSpectator => None
  }

  /** A message as serde writes it: adjacently tagged by `"type"` and `"data"`. */
  function Encode(msg: ClientMessage): Value
  {
    Tagged(TagName(TagOf(msg)), Content(msg))
  }

  /** Reads the content of the variant named by `t`. */
  function DecodeData(t: Tag, d: Value): (r: Decoded<ClientMessage>)
  {
    match t
    case AuthenticateTag => (var m :- AsObject(d); DecodeAuthenticate(m))
    case JoinRoomTag => (var m :- AsObject(d); DecodeJoinRoom(m))
    case LeaveRoomTag => DecodeUnit(d, LeaveRoom)
    case GameDataTag => (var m :- AsObject(d); DecodeGameData(m))
    case AuthorityRequestTag => (var m :- AsObject(d); DecodeAuthorityRequest(m))
    case PlayerReadyTag => DecodeUnit(d, PlayerReady)
    case ProvideConnectionInfoTag => (var m :- AsObject(d); DecodeProvideConnectionInfo(m))
    case PingTag => DecodeUnit(d, Ping)
    case ReconnectTag => (var m :- AsObject(d); DecodeReconnect(m))
    case JoinAsSpectatorTag => (var m :- AsObject(d); DecodeJoinAsSpectator(m))
    case LeaveSpectatorTag => DecodeUnit(d, LeaveSpectator)
  }

  /** A message without `"data"`: only a unit variant may leave it out. */
  function DecodeNoData(t: Tag): (r: Decoded<ClientMessage>)
    ensures r.Ok? <==> IsUnit(t)
    ensures r.Ok? ==> TagOf(r.value) == t
  {
    match t
    case LeaveRoomTag => Ok(LeaveRoom)
    case PlayerReadyTag => Ok(PlayerReady)
    case PingTag => Ok(Ping)
    case LeaveSpectatorTag => Ok(LeaveSpectator)
    case _ => Err(MissingField("data"))
  }

  /**
    Reads a message. serde reads an adjacently tagged enum in two forms: an
    object whose `"type"` names the variant (other keys are ignored, and only
    a unit variant may leave out `"data"`), or a sequence `[name, content]` of
    exactly two elements.
  */
  function Decode(j: Value): (r: Decoded<ClientMessage>)
    ensures r.Ok? ==> (j.JObject? && "type" in j.fields) || (j.JArray? && |j.items| == 2)
  {
    match j
    case JObject(m) =>
      var name :- Field(m, "type", AsString);
      (match ParseTag(name)
       case None => Err(UnknownVariant(name))
       case Some(t) => if "data" in m then DecodeData(t, m["data"]) else DecodeNoData(t))
    case JArray(items) => DecodeSequence(items)
    case _ => Err(InvalidType("adjacently tagged enum"))
  }

  /** The sequence form: the variant's name, then its content; the name is read first. */
  function DecodeSequence(items: seq<Value>): (r: Decoded<ClientMessage>)
    ensures r.Ok? ==> |items| == 2
  {
    if items == [] then Err(InvalidLength(0))
    else
      var name :- AsString(items[0]);
      match ParseTag(name)
      case None => Err(UnknownVariant(name))
      case Some(t) => if |items| == 2 then DecodeData(t, items[1]) else Err(InvalidLength(|items|))
  }

  lemma AuthenticateDataTag(d: Value)
    ensures DecodeData(AuthenticateTag, d).Ok? ==> TagOf(DecodeData(AuthenticateTag, d).value) == AuthenticateTag
  {
  }

  lemma JoinRoomDataTag(d: Value)
    ensures DecodeData(JoinRoomTag, d).Ok? ==> TagOf(DecodeData(JoinRoomTag, d).value) == JoinRoomTag
  {
  }

  lemma LeaveRoomDataTag(d: Value)
    ensures DecodeData(LeaveRoomTag, d).Ok? ==> TagOf(DecodeData(LeaveRoomTag, d).value) == LeaveRoomTag
  {
  }

  lemma GameDataDataTag(d: Value)
    ensures DecodeData(GameDataTag, d).Ok? ==> TagOf(DecodeData(GameDataTag, d).value) == GameDataTag
  {
  }

  lemma AuthorityRequestDataTag(d: Value)
    ensures DecodeData(AuthorityRequestTag, d).Ok? ==> TagOf(DecodeData(AuthorityRequestTag, d).value) == AuthorityRequestTag
  {
  }

  lemma PlayerReadyDataTag(d: Value)
    ensures DecodeData(PlayerReadyTag, d).Ok? ==> TagOf(DecodeData(PlayerReadyTag, d).value) == PlayerReadyTag
  {
  }

  lemma ProvideConnectionInfoDataTag(d: Value)
    ensures DecodeData(ProvideConnectionInfoTag, d).Ok? ==> TagOf(DecodeData(ProvideConnectionInfoTag, d).value) == ProvideConnectionInfoTag
  {
  }

  lemma PingDataTag(d: Value)
    ensures DecodeData(PingTag, d).Ok? ==> TagOf(DecodeData(PingTag, d).value) == PingTag
  {
  }

  lemma ReconnectDataTag(d: Value)
    ensures DecodeData(ReconnectTag, d).Ok? ==> TagOf(DecodeData(ReconnectTag, d).value) == ReconnectTag
  {
  }

  lemma JoinAsSpectatorDataTag(d: Value)
    ensures DecodeData(JoinAsSpectatorTag, d).Ok? ==> TagOf(DecodeData(JoinAsSpectatorTag, d).value) == JoinAsSpectatorTag
  {
  }

  lemma LeaveSpectatorDataTag(d: Value)
    ensures DecodeData(LeaveSpectatorTag, d).Ok? ==> TagOf(DecodeData(LeaveSpectatorTag, d).value) == LeaveSpectatorTag
  {
  }

  /** The content of the variant named by `t` can only read as that variant. */
  lemma DecodeDataTag(t: Tag, d: Value)
    ensures DecodeData(t, d).Ok? ==> TagOf(DecodeData(t, d).value) == t
  {
    match t
    case AuthenticateTag => AuthenticateDataTag(d);
    case JoinRoomTag => JoinRoomDataTag(d);
    case LeaveRoomTag => LeaveRoomDataTag(d);
    case GameDataTag => GameDataDataTag(d);
    case AuthorityRequestTag => AuthorityRequestDataTag(d);
    case PlayerReadyTag => PlayerReadyDataTag(d);
    case ProvideConnectionInfoTag => ProvideConnectionInfoDataTag(d);
    case PingTag => PingDataTag(d);
    case ReconnectTag => ReconnectDataTag(d);
    case JoinAsSpectatorTag => JoinAsSpectatorDataTag(d);
    case LeaveSpectatorTag => LeaveSpectatorDataTag(d);
  }

  /** A message reads as the variant its `"type"` (or the sequence's first element) names. */
  lemma DecodeTag(j: Value)
    ensures Decode(j).Ok? ==> j.JObject? || j.JArray?
    ensures Decode(j).Ok? && j.JObject? ==>
              "type" in j.fields && j.fields["type"] == JString(TagName(TagOf(Decode(j).value)))
    ensures Decode(j).Ok? && j.JArray? ==>
              |j.items| == 2 && j.items[0] == JString(TagName(TagOf(Decode(j).value)))
  {
    if j.JObject? && "type" in j.fields && j.fields["type"].JString? {
      var m := j.fields;
      match ParseTag(m["type"].s)
      case None =>
      case Some(t) =>
        if "data" in m {
          DecodeDataTag(t, m["data"]);
        }
    } else if j.JArray? && |j.items| == 2 && j.items[0].JString? {
      match ParseTag(j.items[0].s)
      case None =>
      case Some(t) =>
        DecodeDataTag(t, j.items[1]);
    }
  }


  // ── Examples ───────────────────────────────────────────────────────

  /** An `Authenticate` with only an app id decodes with every optional field `None`. */
  lemma AuthenticateWithAppIdOnly(appId: string)
    ensures Decode(JObject(map["type" := JString("Authenticate"),
                               "data" := JObject(map["app_id" := JString(appId)])]))
            == Ok(Authenticate(appId, None, None, None))
  {
    ParseTagName(AuthenticateTag);
  }

  /** `JoinRoom` writes its absent options as `null` rather than leaving them out. */
  lemma JoinRoomWritesNulls(gameName: string, playerName: string)
    ensures var d := Encode(JoinRoom(gameName, None, playerName, None, None, None)).fields["data"];
      d.JObject? && d.fields.Keys == {"game_name", "room_code", "player_name", "max_players", "supports_authority", "relay_transport"}
      && d.fields["room_code"] == JNull && d.fields["max_players"] == JNull
      && d.fields["supports_authority"] == JNull && d.fields["relay_transport"] == JNull
  {
  }


  lemma AuthenticateContentRoundTrip(msg: ClientMessage)
    requires msg.Authenticate?
    ensures DecodeData(TagOf(msg), Content(msg).value) == Ok(msg)
  {
    assert TagOf(msg) == AuthenticateTag;
    AuthenticateRoundTrip(msg);
    assert DecodeData(AuthenticateTag, JObject(AuthenticateMap(msg))) == Ok(msg);
  }

  lemma JoinRoomContentRoundTrip(msg: ClientMessage)
    requires msg.JoinRoom?
    ensures DecodeData(TagOf(msg), Content(msg).value) == Ok(msg)
  {
    assert TagOf(msg) == JoinRoomTag;
    JoinRoomRoundTrip(msg);
    assert DecodeData(JoinRoomTag, JObject(JoinRoomMap(msg))) == Ok(msg);
  }

  lemma GameDataContentRoundTrip(msg: ClientMessage)
    requires msg.GameData?
    ensures DecodeData(TagOf(msg), Content(msg).value) == Ok(msg)
  {
    assert TagOf(msg) == GameDataTag;
    GameDataRoundTrip(msg);
    assert DecodeData(GameDataTag, JObject(GameDataMap(msg))) == Ok(msg);
  }

  lemma AuthorityRequestContentRoundTrip(msg: ClientMessage)
    requires msg.AuthorityRequest?
    ensures DecodeData(TagOf(msg), Content(msg).value) == Ok(msg)
  {
    assert TagOf(msg) == AuthorityRequestTag;
    AuthorityRequestRoundTrip(msg);
    assert DecodeData(AuthorityRequestTag, JObject(AuthorityRequestMap(msg))) == Ok(msg);
  }

  lemma ProvideConnectionInfoContentRoundTrip(msg: ClientMessage)
    requires msg.ProvideConnectionInfo?
    ensures DecodeData(TagOf(msg), Content(msg).value) == Ok(msg)
  {
    assert TagOf(msg) == ProvideConnectionInfoTag;
    ProvideConnectionInfoRoundTrip(msg);
    assert DecodeData(ProvideConnectionInfoTag, JObject(ProvideConnectionInfoMap(msg))) == Ok(msg);
  }

  lemma ReconnectContentRoundTrip(msg: ClientMessage)
    requires msg.Reconnect?
    ensures DecodeData(TagOf(msg), Content(msg).value) == Ok(msg)
  {
    assert TagOf(msg) == ReconnectTag;
    ReconnectRoundTrip(msg);
    assert DecodeData(ReconnectTag, JObject(ReconnectMap(msg))) == Ok(msg);
  }

  lemma JoinAsSpectatorContentRoundTrip(msg: ClientMessage)
    requires msg.JoinAsSpectator?
    ensures DecodeData(TagOf(msg), Content(msg).value) == Ok(msg)
  {
    assert TagOf(msg) == JoinAsSpectatorTag;
    JoinAsSpectatorRoundTrip(msg);
    assert DecodeData(JoinAsSpectatorTag, JObject(JoinAsSpectatorMap(msg))) == Ok(msg);
  }

  /** Each variant's content reads back as the message. */
  lemma ContentRoundTrip(msg: ClientMessage)
    ensures Content(msg).Some? ==> DecodeData(TagOf(msg), Content(msg).value) == Ok(msg)
    ensures Content(msg).None? ==> DecodeNoData(TagOf(msg)) == Ok(msg)
  {
    match msg
    case Authenticate(_, _, _, _) => AuthenticateContentRoundTrip(msg);
    case JoinRoom(_, _, _, _, _, _) => JoinRoomContentRoundTrip(msg);
    case LeaveRoom =>
    case GameData(_) => GameDataContentRoundTrip(msg);
    case AuthorityRequest(_) => AuthorityRequestContentRoundTrip(msg);
    case PlayerReady =>
    case ProvideConnectionInfo(_) => ProvideConnectionInfoContentRoundTrip(msg);
    case Ping =>
    case Reconnect(_, _, _) => ReconnectContentRoundTrip(msg);
    case JoinAsSpectator(_, _, _) => JoinAsSpectatorContentRoundTrip(msg);
    case LeaveSpectator =>
  }

  /** Every message reads back from what it writes. */
  lemma RoundTrip(msg: ClientMessage)
    ensures Decode(Encode(msg)) == Ok(msg)
  {
    ParseTagName(TagOf(msg));
    ContentRoundTrip(msg);
  }

  // ── Envelope facts ─────────────────────────────────────────────────

  /** A unit variant is written as `{"type": name}` alone; every other variant adds `"data"`. */
  lemma EncodeShape(msg: ClientMessage)
    ensures Encode(msg).JObject?
    ensures Encode(msg).fields["type"] == JString(TagName(TagOf(msg)))
    ensures Encode(msg).fields.Keys == if IsUnit(TagOf(msg)) then {"type"} else {"type", "data"}
  {
  }

  /** A `"type"` that names no variant is an unknown variant, whatever else the object holds. */
  lemma DecodeUnknownTag(m: map<string, Value>, name: string)
    requires "type" in m && m["type"] == JString(name)
    requires forall t :: TagName(t) != name
    ensures Decode(JObject(m)) == Err(UnknownVariant(name))
  {
    ParseTagRejects(name);
  }

  /** An object without `"type"` is missing that field. */
  lemma DecodeMissingType(m: map<string, Value>)
    requires "type" !in m
    ensures Decode(JObject(m)) == Err(MissingField("type"))
  {
  }

  /** A variant with fields must carry `"data"`; a unit variant may leave it out or give `null`. */
  lemma DecodeDataPresence(t: Tag)
    ensures Decode(Tagged(TagName(t), None)).Ok? <==> IsUnit(t)
    ensures !IsUnit(t) ==> Decode(Tagged(TagName(t), None)) == Err(MissingField("data"))
    ensures IsUnit(t) ==> Decode(Tagged(TagName(t), Some(JNull))) == Decode(Tagged(TagName(t), None))
  {
    ParseTagName(t);
  }

  /** The sequence form `[name, content]` reads exactly as the object `{"type": name, "data": content}`. */
  lemma SequenceFormAgrees(name: string, d: Value)
    ensures Decode(JArray([JString(name), d])) == Decode(JObject(map["type" := JString(name), "data" := d]))
  {
    var m := map["type" := JString(name), "data" := d];
    assert "data" in m && m["data"] == d && m["type"] == JString(name);
  }

  /** A sequence of any other length than two is refused. */
  lemma SequenceFormLength(items: seq<Value>)
    requires |items| != 2
    ensures Decode(JArray(items)).Err?
  {
  }

  /** `["Ping", null]` is a `Ping`. */
  lemma UnitInSequenceForm()
    ensures Decode(JArray([JString("Ping"), JNull])) == Ok(Ping)
  {
    ParseTagName(PingTag);
  }

}
