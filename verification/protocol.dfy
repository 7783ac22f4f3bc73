/**
  The Signal Fish protocol's data: the string-valued enums with their wire
  names, the connection descriptions, the payload structs and the two message
  unions. Field names follow the Rust source in lowerCamelCase; the wire keys
  are the source's snake_case names and appear in the codec.
*/
module Protocol {
  import opened Wrappers
  import opened JsonTree
  import Uuid
  import ErrorCodes

  type PlayerId = Uuid.Uuid
  type RoomId = Uuid.Uuid
  type ErrorCode = ErrorCodes.ErrorCode

  // ── String-valued enums ────────────────────────────────────────────

  /** Relay transport protocol; wire names are lower case. */
  datatype RelayTransport = Tcp | Udp | Websocket | Auto

  const DEFAULT_RELAY_TRANSPORT: RelayTransport := Auto

  function RelayTransportName(t: RelayTransport): string {
    match t
    case Tcp => "tcp"
    case Udp => "udp"
    case Websocket => "websocket"
    case Auto => "auto"
  }

  function ParseRelayTransport(s: string): (r: Option<RelayTransport>)
    ensures r.Some? ==> RelayTransportName(r.value) == s
  {
    if s == RelayTransportName(Tcp) then Some(Tcp)
    else if s == RelayTransportName(Udp) then Some(Udp)
    else if s == RelayTransportName(Websocket) then Some(Websocket)
    else if s == RelayTransportName(Auto) then Some(Auto)
    else None
  }

  /** Encoding of sequenced game data payloads. */
  datatype GameDataEncoding = Json | MessagePack | Rkyv

  const DEFAULT_GAME_DATA_ENCODING: GameDataEncoding := Json

  function GameDataEncodingName(e: GameDataEncoding): string {
    match e
    case Json => "json"
    case MessagePack => "message_pack"
    case Rkyv => "rkyv"
  }

  function ParseGameDataEncoding(s: string): (r: Option<GameDataEncoding>)
    ensures r.Some? ==> GameDataEncodingName(r.value) == s
  {
    if s == GameDataEncodingName(Json) then Some(Json)
    else if s == GameDataEncodingName(MessagePack) then Some(MessagePack)
    else if s == GameDataEncodingName(Rkyv) then Some(Rkyv)
    else None
  }

  /** Why a spectator's state changed; wire names are snake_case. */
  datatype SpectatorStateChangeReason = Joined | VoluntaryLeave | Disconnected | Removed | RoomClosed

  const DEFAULT_SPECTATOR_REASON: SpectatorStateChangeReason := Joined

  function ReasonName(r: SpectatorStateChangeReason): string {
    match r
    case Joined => "joined"
    case VoluntaryLeave => "voluntary_leave"
    case Disconnected => "disconnected"
    case Removed => "removed"
    case RoomClosed => "room_closed"
  }

  function ParseReason(s: string): (r: Option<SpectatorStateChangeReason>)
    ensures r.Some? ==> ReasonName(r.value) == s
  {
    if s == ReasonName(Joined) then Some(Joined)
    else if s == ReasonName(VoluntaryLeave) then Some(VoluntaryLeave)
    else if s == ReasonName(Disconnected) then Some(Disconnected)
    else if s == ReasonName(Removed) then Some(Removed)
    else if s == ReasonName(RoomClosed) then Some(RoomClosed)
    else None
  }

  /** Lobby readiness; wire names are snake_case. */
  datatype LobbyState = Waiting | Lobby | Finalized

  const DEFAULT_LOBBY_STATE: LobbyState := Waiting

  function LobbyStateName(l: LobbyState): string {
    match l
    case Waiting => "waiting"
    case Lobby => "lobby"
    case Finalized => "finalized"
  }

  function ParseLobbyState(s: string): (r: Option<LobbyState>)
    ensures r.Some? ==> LobbyStateName(r.value) == s
  {
    if s == LobbyStateName(Waiting) then Some(Waiting)
    else if s == LobbyStateName(Lobby) then Some(Lobby)
    else if s == LobbyStateName(Finalized) then Some(Finalized)
    else None
  }

  /** Each enum's wire name reads back as the same value, so the name tables are injective. */
  lemma EnumNamesRoundTrip(t: RelayTransport, e: GameDataEncoding, r: SpectatorStateChangeReason, l: LobbyState)
    ensures ParseRelayTransport(RelayTransportName(t)) == Some(t)
    ensures ParseGameDataEncoding(GameDataEncodingName(e)) == Some(e)
    ensures ParseReason(ReasonName(r)) == Some(r)
    ensures ParseLobbyState(LobbyStateName(l)) == Some(l)
  {
  }

  /** A name outside a table is rejected. */
  lemma EnumNamesRejectOthers(s: string)
    ensures ParseRelayTransport(s).None? <==> forall t :: RelayTransportName(t) != s
    ensures ParseGameDataEncoding(s).None? <==> forall e :: GameDataEncodingName(e) != s
    ensures ParseReason(s).None? <==> forall r :: ReasonName(r) != s
    ensures ParseLobbyState(s).None? <==> forall l :: LobbyStateName(l) != s
  {
    forall t | RelayTransportName(t) == s ensures ParseRelayTransport(s).Some? {
      EnumNamesRoundTrip(t, Json, Joined, Waiting);
    }
    forall e | GameDataEncodingName(e) == s ensures ParseGameDataEncoding(s).Some? {
      EnumNamesRoundTrip(Auto, e, Joined, Waiting);
    }
    forall r | ReasonName(r) == s ensures ParseReason(s).Some? {
      EnumNamesRoundTrip(Auto, Json, r, Waiting);
    }
    forall l | LobbyStateName(l) == s ensures ParseLobbyState(s).Some? {
      EnumNamesRoundTrip(Auto, Json, Joined, l);
    }
  }

  // ── Connection descriptions and payload structs ────────────────────

  /** How to reach a peer; internally tagged by `"type"`. */
  datatype ConnectionInfo =
    | Direct(host: string, port: U16)
    | UnityRelay(allocationId: string, connectionData: string, key: string)
    | Relay(host: string, port: U16, transport: RelayTransport, allocationId: string, token: string,
            clientId: Option<U16>)
    | WebRtc(sdp: Option<string>, iceCandidates: seq<string>)
    | Custom(data: Value)

  datatype PlayerInfo = PlayerInfo(
    id: PlayerId,
    name: string,
    isAuthority: bool,
    isReady: bool,
    connectedAt: string,
    connectionInfo: Option<ConnectionInfo>)

  datatype SpectatorInfo = SpectatorInfo(id: PlayerId, name: string, connectedAt: string)

  datatype PeerConnectionInfo = PeerConnectionInfo(
    playerId: PlayerId,
    playerName: string,
    isAuthority: bool,
    relayType: string,
    connectionInfo: Option<ConnectionInfo>)

  datatype RateLimitInfo = RateLimitInfo(perMinute: U32, perHour: U32, perDay: U32)

  datatype PlayerNameRulesPayload = PlayerNameRulesPayload(
    maxLength: U64,
    minLength: U64,
    allowUnicodeAlphanumeric: bool,
    allowSpaces: bool,
    allowLeadingTrailingWhitespace: bool,
    allowedSymbols: seq<char>,
    additionalAllowedCharacters: Option<string>)

  datatype ProtocolInfoPayload = ProtocolInfoPayload(
    platform: Option<string>,
    sdkVersion: Option<string>,
    minimumVersion: Option<string>,
    recommendedVersion: Option<string>,
    capabilities: seq<string>,
    notes: Option<string>,
    gameDataFormats: seq<GameDataEncoding>,
    playerNameRules: Option<PlayerNameRulesPayload>)

  /** The room fields shared by `RoomJoined` and `Reconnected`. */
  datatype RoomJoinedPayload = RoomJoinedPayload(
    roomId: RoomId,
    roomCode: string,
    playerId: PlayerId,
    gameName: string,
    maxPlayers: U8,
    supportsAuthority: bool,
    currentPlayers: seq<PlayerInfo>,
    isAuthority: bool,
    lobbyState: LobbyState,
    readyPlayers: seq<PlayerId>,
    relayType: string,
    currentSpectators: seq<SpectatorInfo>)

  /** `ReconnectedPayload`: the room fields plus the events missed while away. */
  datatype ReconnectedPayload = ReconnectedPayload(room: RoomJoinedPayload, missedEvents: seq<ServerMessage>)

  datatype SpectatorJoinedPayload = SpectatorJoinedPayload(
    roomId: RoomId,
    roomCode: string,
    spectatorId: PlayerId,
    gameName: string,
    currentPlayers: seq<PlayerInfo>,
    currentSpectators: seq<SpectatorInfo>,
    lobbyState: LobbyState,
    reason: Option<SpectatorStateChangeReason>)

  // ── Messages ───────────────────────────────────────────────────────

  /** Messages from client to server. */
  datatype ClientMessage =
    | Authenticate(appId: string, sdkVersion: Option<string>, platform: Option<string>,
                   gameDataFormat: Option<GameDataEncoding>)
    | JoinRoom(gameName: string, roomCode: Option<string>, playerName: string, maxPlayers: Option<U8>,
               supportsAuthority: Option<bool>, relayTransport: Option<RelayTransport>)
    | LeaveRoom
    | GameData(data: Value)
    | AuthorityRequest(becomeAuthority: bool)
    | PlayerReady
    | ProvideConnectionInfo(connectionInfo: ConnectionInfo)
    | Ping
    | Reconnect(playerId: PlayerId, roomId: RoomId, authToken: string)
    | JoinAsSpectator(gameName: string, spectateRoomCode: string, spectatorName: string)
    | LeaveSpectator

  /** Messages from server to client. */
  datatype ServerMessage =
    | Authenticated(appName: string, organization: Option<string>, rateLimits: RateLimitInfo)
    | ProtocolInfo(info: ProtocolInfoPayload)
    | AuthenticationError(error: string, code: ErrorCode)
    | RoomJoined(joined: RoomJoinedPayload)
    | RoomJoinFailed(reason: string, errorCode: Option<ErrorCode>)
    | RoomLeft
    | PlayerJoined(player: PlayerInfo)
    | PlayerLeft(playerId: PlayerId)
    | ServerGameData(fromPlayer: PlayerId, data: Value)
    | GameDataBinary(fromPlayer: PlayerId, encoding: GameDataEncoding, payload: seq<U8>)
    | AuthorityChanged(authorityPlayer: Option<PlayerId>, youAreAuthority: bool)
    | AuthorityResponse(granted: bool, responseReason: Option<string>, errorCode: Option<ErrorCode>)
    | LobbyStateChanged(lobbyState: LobbyState, readyPlayers: seq<PlayerId>, allReady: bool)
    | GameStarting(peerConnections: seq<PeerConnectionInfo>)
    | Pong
    | Reconnected(reconnected: ReconnectedPayload)
    | ReconnectionFailed(reason: string, code: ErrorCode)
    | PlayerReconnected(playerId: PlayerId)
    | SpectatorJoined(spectating: SpectatorJoinedPayload)
    | SpectatorJoinFailed(reason: string, errorCode: Option<ErrorCode>)
    | SpectatorLeft(roomId: Option<RoomId>, roomCode: Option<string>, changeReason: Option<SpectatorStateChangeReason>,
                    currentSpectators: seq<SpectatorInfo>)
    | NewSpectatorJoined(spectator: SpectatorInfo, currentSpectators: seq<SpectatorInfo>,
                         changeReason: Option<SpectatorStateChangeReason>)
    | SpectatorDisconnected(spectatorId: PlayerId, changeReason: Option<SpectatorStateChangeReason>,
                            currentSpectators: seq<SpectatorInfo>)
    | Error(message: string, errorCode: Option<ErrorCode>)
}
