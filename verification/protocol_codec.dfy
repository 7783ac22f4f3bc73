/**
  The JSON form of the protocol's values, as serde's derived implementations
  write and read it: identifiers and error codes as strings, the enums as
  their wire names, `ConnectionInfo` internally tagged by `"type"`, and the
  payload structs as objects keyed by their snake_case field names.

  Every object codec comes as a `…Map` function that writes the object, a
  `Decode…` function that reads it, `…MapEntries` lemmas saying exactly what
  the written object holds under each key (a skipped `None` is absent), and
  a `Decode…Accepts` lemma saying that any object holding those entries
  decodes to the value, whatever other keys it holds.
*/
module ProtocolCodec {
  import opened Wrappers
  import opened JsonTree
  import Uuid
  import ErrorCodes
  import opened Protocol

  // ── Scalars ────────────────────────────────────────────────────────

  function UuidToJson(u: Uuid.Uuid): Value {
    JString(Uuid.Format(u))
  }

  /** A UUID is read from its hyphenated text. */
  function AsUuid(j: Value): (r: Decoded<Uuid.Uuid>)
    ensures r.Ok? ==> j.JString? && |j.s| == 36
  {
    var s :- AsString(j);
    match Uuid.Parse(s)
    case Some(u) => Ok(u)
    case None => Err(InvalidValue("UUID"))
  }

  lemma UuidRoundTrip(u: Uuid.Uuid)
    ensures AsUuid(UuidToJson(u)) == Ok(u)
  {
    Uuid.ParseFormat(u);
  }

  function ErrorCodeToJson(c: ErrorCode): Value {
    JString(ErrorCodes.Name(c))
  }

  /** An error code is read from its SCREAMING_SNAKE_CASE name; any other string is an unknown variant. */
  function AsErrorCode(j: Value): (r: Decoded<ErrorCode>)
    ensures r.Ok? ==> j == ErrorCodeToJson(r.value)
    ensures j.JString? && ErrorCodes.Parse(j.s).None? ==> r == Err(UnknownVariant(j.s))
  {
    var s :- AsString(j);
    match ErrorCodes.Parse(s)
    case Some(c) => Ok(c)
    case None => Err(UnknownVariant(s))
  }

  lemma ErrorCodeRoundTrip(c: ErrorCode)
    ensures AsErrorCode(ErrorCodeToJson(c)) == Ok(c)
  {
    ErrorCodes.ParseName(c);
  }

  function RelayTransportToJson(t: RelayTransport): Value {
    JString(RelayTransportName(t))
  }

  function AsRelayTransport(j: Value): (r: Decoded<RelayTransport>)
    ensures r.Ok? ==> j == RelayTransportToJson(r.value)
  {
    var s :- AsString(j);
    match ParseRelayTransport(s)
    case Some(t) => Ok(t)
    case None => Err(UnknownVariant(s))
  }

  lemma RelayTransportRoundTrip(t: RelayTransport)
    ensures AsRelayTransport(RelayTransportToJson(t)) == Ok(t)
  {
    EnumNamesRoundTrip(t, Json, Joined, Waiting);
  }

  function EncodingToJson(e: GameDataEncoding): Value {
    JString(GameDataEncodingName(e))
  }

  function AsEncoding(j: Value): (r: Decoded<GameDataEncoding>)
    ensures r.Ok? ==> j == EncodingToJson(r.value)
  {
    var s :- AsString(j);
    match ParseGameDataEncoding(s)
    case Some(e) => Ok(e)
    case None => Err(UnknownVariant(s))
  }

  lemma EncodingRoundTrip(e: GameDataEncoding)
    ensures AsEncoding(EncodingToJson(e)) == Ok(e)
  {
    EnumNamesRoundTrip(Auto, e, Joined, Waiting);
  }

  function ReasonToJson(r: SpectatorStateChangeReason): Value {
    JString(ReasonName(r))
  }

  function AsReason(j: Value): (r: Decoded<SpectatorStateChangeReason>)
    ensures r.Ok? ==> j == ReasonToJson(r.value)
  {
    var s :- AsString(j);
    match ParseReason(s)
    case Some(x) => Ok(x)
    case None => Err(UnknownVariant(s))
  }

  lemma ReasonRoundTrip(r: SpectatorStateChangeReason)
    ensures AsReason(ReasonToJson(r)) == Ok(r)
  {
    EnumNamesRoundTrip(Auto, Json, r, Waiting);
  }

  function LobbyStateToJson(l: LobbyState): Value {
    JString(LobbyStateName(l))
  }

  function AsLobbyState(j: Value): (r: Decoded<LobbyState>)
    ensures r.Ok? ==> j == LobbyStateToJson(r.value)
  {
    var s :- AsString(j);
    match ParseLobbyState(s)
    case Some(l) => Ok(l)
    case None => Err(UnknownVariant(s))
  }

  lemma LobbyStateRoundTrip(l: LobbyState)
    ensures AsLobbyState(LobbyStateToJson(l)) == Ok(l)
  {
    EnumNamesRoundTrip(Auto, Json, Joined, l);
  }

  // ── Arrays ─────────────────────────────────────────────────────────

  function StringToJson(s: string): Value {
    JString(s)
  }

  function StringsToJson(ss: seq<string>): Value {
    ArrayToJson(ss, StringToJson)
  }

  function AsStrings(j: Value): Decoded<seq<string>> {
    AsArray(j, AsString)
  }

  lemma StringsRoundTrip(ss: seq<string>)
    ensures AsStrings(StringsToJson(ss)) == Ok(ss)
  {
    ArrayRoundTrip(ss, StringToJson, AsString);
  }

  function CharsToJson(cs: seq<char>): Value {
    ArrayToJson(cs, CharToJson)
  }

  function AsChars(j: Value): Decoded<seq<char>> {
    AsArray(j, AsChar)
  }

  lemma CharsRoundTrip(cs: seq<char>)
    ensures AsChars(CharsToJson(cs)) == Ok(cs)
  {
    ArrayRoundTrip(cs, CharToJson, AsChar);
  }

  function ByteToJson(b: U8): Value {
    JInt(b)
  }

  /** A byte payload (`serde_bytes`) is written as an array of integers in `0..256`. */
  function BytesToJson(bs: seq<U8>): Value {
    ArrayToJson(bs, ByteToJson)
  }

  function AsBytes(j: Value): Decoded<seq<U8>> {
    AsArray(j, AsU8)
  }

  lemma BytesRoundTrip(bs: seq<U8>)
    ensures AsBytes(BytesToJson(bs)) == Ok(bs)
  {
    ArrayRoundTrip(bs, ByteToJson, AsU8);
  }

  function UuidsToJson(us: seq<Uuid.Uuid>): Value {
    ArrayToJson(us, UuidToJson)
  }

  function AsUuids(j: Value): Decoded<seq<Uuid.Uuid>> {
    AsArray(j, AsUuid)
  }

  lemma UuidsRoundTrip(us: seq<Uuid.Uuid>)
    ensures AsUuids(UuidsToJson(us)) == Ok(us)
  {
    forall i | 0 <= i < |us| ensures AsUuid(UuidToJson(us[i])) == Ok(us[i]) {
      UuidRoundTrip(us[i]);
    }
    ArrayRoundTrip(us, UuidToJson, AsUuid);
  }

  function EncodingsToJson(es: seq<GameDataEncoding>): Value {
    ArrayToJson(es, EncodingToJson)
  }

  function AsEncodings(j: Value): Decoded<seq<GameDataEncoding>> {
    AsArray(j, AsEncoding)
  }

  lemma EncodingsRoundTrip(es: seq<GameDataEncoding>)
    ensures AsEncodings(EncodingsToJson(es)) == Ok(es)
  {
    forall i | 0 <= i < |es| ensures AsEncoding(EncodingToJson(es[i])) == Ok(es[i]) {
      EncodingRoundTrip(es[i]);
    }
    ArrayRoundTrip(es, EncodingToJson, AsEncoding);
  }

  function PlayersToJson(ps: seq<PlayerInfo>): Value {
    ArrayToJson(ps, PlayerInfoToJson)
  }

  function AsPlayers(j: Value): Decoded<seq<PlayerInfo>> {
    AsArray(j, AsPlayerInfo)
  }

  lemma PlayersRoundTrip(ps: seq<PlayerInfo>)
    ensures AsPlayers(PlayersToJson(ps)) == Ok(ps)
  {
    forall i | 0 <= i < |ps| ensures AsPlayerInfo(PlayerInfoToJson(ps[i])) == Ok(ps[i]) {
      PlayerInfoRoundTrip(ps[i]);
    }
    ArrayRoundTrip(ps, PlayerInfoToJson, AsPlayerInfo);
  }

  function SpectatorsToJson(ss: seq<SpectatorInfo>): Value {
    ArrayToJson(ss, SpectatorInfoToJson)
  }

  function AsSpectators(j: Value): Decoded<seq<SpectatorInfo>> {
    AsArray(j, AsSpectatorInfo)
  }

  lemma SpectatorsRoundTrip(ss: seq<SpectatorInfo>)
    ensures AsSpectators(SpectatorsToJson(ss)) == Ok(ss)
  {
    forall i | 0 <= i < |ss| ensures AsSpectatorInfo(SpectatorInfoToJson(ss[i])) == Ok(ss[i]) {
      SpectatorInfoRoundTrip(ss[i]);
    }
    ArrayRoundTrip(ss, SpectatorInfoToJson, AsSpectatorInfo);
  }

  function PeersToJson(ps: seq<PeerConnectionInfo>): Value {
    ArrayToJson(ps, PeerConnectionInfoToJson)
  }

  function AsPeers(j: Value): Decoded<seq<PeerConnectionInfo>> {
    AsArray(j, AsPeerConnectionInfo)
  }

  lemma PeersRoundTrip(ps: seq<PeerConnectionInfo>)
    ensures AsPeers(PeersToJson(ps)) == Ok(ps)
  {
    forall i | 0 <= i < |ps| ensures AsPeerConnectionInfo(PeerConnectionInfoToJson(ps[i])) == Ok(ps[i]) {
      PeerConnectionInfoRoundTrip(ps[i]);
    }
    ArrayRoundTrip(ps, PeerConnectionInfoToJson, AsPeerConnectionInfo);
  }


  // ── ConnectionInfo ─────────────────────────────────────────────────

  /** The value of the `"type"` key of each kind of connection description. */
  function ConnectionTypeName(c: ConnectionInfo): string {
    match c
    case Direct(_, _) => "direct"
    case UnityRelay(_, _, _) => "unity_relay"
    case Relay(_, _, _, _, _, _) => "relay"
    case WebRtc(_, _) => "webrtc"
    case Custom(_) => "custom"
  }

  /**
    Internally tagged: the fields sit beside `"type"` in one flat object.
    A relay's absent client id is left out; a WebRTC description without
    an SDP writes `null`.
  */
  function ConnectionInfoToJson(c: ConnectionInfo): Value {
    match c
    case Direct(_, _) => JObject(DirectMap(c))
    case UnityRelay(_, _, _) => JObject(UnityRelayMap(c))
    case Relay(_, _, _, _, _, _) => JObject(RelayMap(c))
    case WebRtc(_, _) => JObject(WebRtcMap(c))
    case Custom(_) => JObject(CustomMap(c))
  }

  /** Reads a connection description; an unknown `"type"` is an unknown variant. */
  function AsConnectionInfo(j: Value): (r: Decoded<ConnectionInfo>)
    ensures r.Ok? ==> j.JObject? && "type" in j.fields && j.fields["type"] == JString(ConnectionTypeName(r.value))
  {
    var m :- AsObject(j);
    var tag :- Field(m, "type", AsString);
    if tag == "direct" then DecodeDirect(m)
    else if tag == "unity_relay" then DecodeUnityRelay(m)
    else if tag == "relay" then DecodeRelay(m)
    else if tag == "webrtc" then DecodeWebRtc(m)
    else if tag == "custom" then DecodeCustom(m)
    else Err(UnknownVariant(tag))
  }

  lemma ConnectionInfoRoundTrip(c: ConnectionInfo)
    ensures AsConnectionInfo(ConnectionInfoToJson(c)) == Ok(c)
  {
    match c
    case Direct(_, _) => DirectRoundTrip(c);
    case UnityRelay(_, _, _) => UnityRelayRoundTrip(c);
    case Relay(_, _, _, _, _, _) => RelayRoundTrip(c);
    case WebRtc(_, _) => WebRtcRoundTrip(c);
    case Custom(_) => CustomRoundTrip(c);
  }

  function DirectMap(c: ConnectionInfo): map<string, Value>
    requires c.Direct?
  {
    map["type" := JString(ConnectionTypeName(c)),
        "host" := JString(c.host),
        "port" := JInt(c.port)]
  }

  function DecodeDirect(m: map<string, Value>): (r: Decoded<ConnectionInfo>)
    ensures r.Ok? ==> r.value.Direct?
  {
    var host :- Field(m, "host", AsString);
    var port :- Field(m, "port", AsU16);
    Ok(Direct(host, port))
  }

  lemma DirectMapEntries(c: ConnectionInfo, m: map<string, Value>)
    requires c.Direct?
    requires m == DirectMap(c)
    ensures "host" in m && m["host"] == JString(c.host)
    ensures "port" in m && m["port"] == JInt(c.port)
  {
    assert "host" in m && m["host"] == JString(c.host);
    assert "port" in m && m["port"] == JInt(c.port);
  }

  lemma DecodeDirectAccepts(c: ConnectionInfo, m: map<string, Value>)
    requires c.Direct?
    requires "host" in m && m["host"] == JString(c.host)
    requires "port" in m && m["port"] == JInt(c.port)
    ensures DecodeDirect(m) == Ok(c)
  {
    assert Field(m, "host", AsString) == Ok(c.host);
    assert Field(m, "port", AsU16) == Ok(c.port);
  }

  lemma DirectRoundTrip(c: ConnectionInfo)
    requires c.Direct?
    ensures DecodeDirect(DirectMap(c)) == Ok(c)
  {
    var m := DirectMap(c);
    DirectMapEntries(c, m);
    DecodeDirectAccepts(c, m);
  }

  function UnityRelayMap(c: ConnectionInfo): map<string, Value>
    requires c.UnityRelay?
  {
    map["type" := JString(ConnectionTypeName(c)),
        "allocation_id" := JString(c.allocationId),
        "connection_data" := JString(c.connectionData),
        "key" := JString(c.key)]
  }

  function DecodeUnityRelay(m: map<string, Value>): (r: Decoded<ConnectionInfo>)
    ensures r.Ok? ==> r.value.UnityRelay?
  {
    var allocationId :- Field(m, "allocation_id", AsString);
    var connectionData :- Field(m, "connection_data", AsString);
    var key :- Field(m, "key", AsString);
    Ok(UnityRelay(allocationId, connectionData, key))
  }

  lemma UnityRelayMapEntries(c: ConnectionInfo, m: map<string, Value>)
    requires c.UnityRelay?
    requires m == UnityRelayMap(c)
    ensures "allocation_id" in m && m["allocation_id"] == JString(c.allocationId)
    ensures "connection_data" in m && m["connection_data"] == JString(c.connectionData)
    ensures "key" in m && m["key"] == JString(c.key)
  {
    assert "allocation_id" in m && m["allocation_id"] == JString(c.allocationId);
    assert "connection_data" in m && m["connection_data"] == JString(c.connectionData);
    assert "key" in m && m["key"] == JString(c.key);
  }

  lemma DecodeUnityRelayAccepts(c: ConnectionInfo, m: map<string, Value>)
    requires c.UnityRelay?
    requires "allocation_id" in m && m["allocation_id"] == JString(c.allocationId)
    requires "connection_data" in m && m["connection_data"] == JString(c.connectionData)
    requires "key" in m && m["key"] == JString(c.key)
    ensures DecodeUnityRelay(m) == Ok(c)
  {
    assert Field(m, "allocation_id", AsString) == Ok(c.allocationId);
    assert Field(m, "connection_data", AsString) == Ok(c.connectionData);
    assert Field(m, "key", AsString) == Ok(c.key);
  }

  lemma UnityRelayRoundTrip(c: ConnectionInfo)
    requires c.UnityRelay?
    ensures DecodeUnityRelay(UnityRelayMap(c)) == Ok(c)
  {
    var m := UnityRelayMap(c);
    UnityRelayMapEntries(c, m);
    DecodeUnityRelayAccepts(c, m);
  }

  function RelayMap(c: ConnectionInfo): map<string, Value>
    requires c.Relay?
  {
    var m := map["type" := JString(ConnectionTypeName(c)),
        "host" := JString(c.host),
        "port" := JInt(c.port),
        "transport" := RelayTransportToJson(c.transport),
        "allocation_id" := JString(c.allocationId),
        "token" := JString(c.token)];
    PutIfSome(m, "client_id", if c.clientId.Some? then Some(JInt(c.clientId.value)) else None)
  }

  function DecodeRelay(m: map<string, Value>): (r: Decoded<ConnectionInfo>)
    ensures r.Ok? ==> r.value.Relay?
  {
    var host :- Field(m, "host", AsString);
    var port :- Field(m, "port", AsU16);
    var transport :- DefaultField(m, "transport", AsRelayTransport, DEFAULT_RELAY_TRANSPORT);
    var allocationId :- Field(m, "allocation_id", AsString);
    var token :- Field(m, "token", AsString);
    var clientId :- OptionalField(m, "client_id", AsU16);
    Ok(Relay(host, port, transport, allocationId, token, clientId))
  }

  lemma RelayMapEntries(c: ConnectionInfo, m: map<string, Value>)
    requires c.Relay?
    requires m == RelayMap(c)
    ensures "host" in m && m["host"] == JString(c.host)
    ensures "port" in m && m["port"] == JInt(c.port)
    ensures "transport" in m && m["transport"] == RelayTransportToJson(c.transport)
    ensures "allocation_id" in m && m["allocation_id"] == JString(c.allocationId)
    ensures "token" in m && m["token"] == JString(c.token)
    ensures if c.clientId.Some? then "client_id" in m && m["client_id"] == JInt(c.clientId.value) else "client_id" !in m
  {
    assert "host" in m && m["host"] == JString(c.host);
    assert "port" in m && m["port"] == JInt(c.port);
    assert "transport" in m && m["transport"] == RelayTransportToJson(c.transport);
    assert "allocation_id" in m && m["allocation_id"] == JString(c.allocationId);
    assert "token" in m && m["token"] == JString(c.token);
    assert if c.clientId.Some? then "client_id" in m && m["client_id"] == JInt(c.clientId.value) else "client_id" !in m;
  }

  lemma DecodeRelayAccepts(c: ConnectionInfo, m: map<string, Value>)
    requires c.Relay?
    requires "host" in m && m["host"] == JString(c.host)
    requires "port" in m && m["port"] == JInt(c.port)
    requires "transport" in m && m["transport"] == RelayTransportToJson(c.transport)
    requires "allocation_id" in m && m["allocation_id"] == JString(c.allocationId)
    requires "token" in m && m["token"] == JString(c.token)
    requires if c.clientId.Some? then "client_id" in m && m["client_id"] == JInt(c.clientId.value) else "client_id" !in m
    ensures DecodeRelay(m) == Ok(c)
  {
    assert Field(m, "host", AsString) == Ok(c.host);
    assert Field(m, "port", AsU16) == Ok(c.port);
    RelayTransportRoundTrip(c.transport);
    assert DefaultField(m, "transport", AsRelayTransport, DEFAULT_RELAY_TRANSPORT) == Ok(c.transport);
    assert Field(m, "allocation_id", AsString) == Ok(c.allocationId);
    assert Field(m, "token", AsString) == Ok(c.token);
    assert OptionalField(m, "client_id", AsU16) == Ok(c.clientId);
  }

  lemma RelayRoundTrip(c: ConnectionInfo)
    requires c.Relay?
    ensures DecodeRelay(RelayMap(c)) == Ok(c)
  {
    var m := RelayMap(c);
    RelayMapEntries(c, m);
    DecodeRelayAccepts(c, m);
  }

  function WebRtcMap(c: ConnectionInfo): map<string, Value>
    requires c.WebRtc?
  {
    map["type" := JString(ConnectionTypeName(c)),
        "sdp" := OrNull(if c.sdp.Some? then Some(JString(c.sdp.value)) else None),
        "ice_candidates" := StringsToJson(c.iceCandidates)]
  }

  function DecodeWebRtc(m: map<string, Value>): (r: Decoded<ConnectionInfo>)
    ensures r.Ok? ==> r.value.WebRtc?
  {
    var sdp :- OptionalField(m, "sdp", AsString);
    var iceCandidates :- Field(m, "ice_candidates", AsStrings);
    Ok(WebRtc(sdp, iceCandidates))
  }

  lemma WebRtcMapEntries(c: ConnectionInfo, m: map<string, Value>)
    requires c.WebRtc?
    requires m == WebRtcMap(c)
    ensures "sdp" in m && m["sdp"] == (if c.sdp.Some? then JString(c.sdp.value) else JNull)
    ensures "ice_candidates" in m && m["ice_candidates"] == StringsToJson(c.iceCandidates)
  {
    assert "sdp" in m && m["sdp"] == (if c.sdp.Some? then JString(c.sdp.value) else JNull);
    assert "ice_candidates" in m && m["ice_candidates"] == StringsToJson(c.iceCandidates);
  }

  lemma DecodeWebRtcAccepts(c: ConnectionInfo, m: map<string, Value>)
    requires c.WebRtc?
    requires "sdp" in m && m["sdp"] == (if c.sdp.Some? then JString(c.sdp.value) else JNull)
    requires "ice_candidates" in m && m["ice_candidates"] == StringsToJson(c.iceCandidates)
    ensures DecodeWebRtc(m) == Ok(c)
  {
    assert OptionalField(m, "sdp", AsString) == Ok(c.sdp);
    StringsRoundTrip(c.iceCandidates);
    assert Field(m, "ice_candidates", AsStrings) == Ok(c.iceCandidates);
  }

  lemma WebRtcRoundTrip(c: ConnectionInfo)
    requires c.WebRtc?
    ensures DecodeWebRtc(WebRtcMap(c)) == Ok(c)
  {
    var m := WebRtcMap(c);
    WebRtcMapEntries(c, m);
    DecodeWebRtcAccepts(c, m);
  }

  function CustomMap(c: ConnectionInfo): map<string, Value>
    requires c.Custom?
  {
    map["type" := JString(ConnectionTypeName(c)),
        "data" := c.data]
  }

  function DecodeCustom(m: map<string, Value>): (r: Decoded<ConnectionInfo>)
    ensures r.Ok? ==> r.value.Custom?
  {
    var data :- Field(m, "data", AsValue);
    Ok(Custom(data))
  }

  lemma CustomMapEntries(c: ConnectionInfo, m: map<string, Value>)
    requires c.Custom?
    requires m == CustomMap(c)
    ensures "data" in m && m["data"] == c.data
  {
  }

  lemma DecodeCustomAccepts(c: ConnectionInfo, m: map<string, Value>)
    requires c.Custom?
    requires "data" in m && m["data"] == c.data
    ensures DecodeCustom(m) == Ok(c)
  {
    assert Field(m, "data", AsValue) == Ok(c.data);
  }

  lemma CustomRoundTrip(c: ConnectionInfo)
    requires c.Custom?
    ensures DecodeCustom(CustomMap(c)) == Ok(c)
  {
    var m := CustomMap(c);
    CustomMapEntries(c, m);
    DecodeCustomAccepts(c, m);
  }

  // ── Payload structs ────────────────────────────────────────────────

  // PlayerInfo

  function PlayerInfoMap(p: PlayerInfo): map<string, Value>
  {
    var m := map["id" := UuidToJson(p.id),
        "name" := JString(p.name),
        "is_authority" := JBool(p.isAuthority),
        "is_ready" := JBool(p.isReady),
        "connected_at" := JString(p.connectedAt)];
    PutIfSome(m, "connection_info", if p.connectionInfo.Some? then Some(ConnectionInfoToJson(p.connectionInfo.value)) else None)
  }

  function PlayerInfoToJson(p: PlayerInfo): Value {
    JObject(PlayerInfoMap(p))
  }

  function DecodePlayerInfo(m: map<string, Value>): Decoded<PlayerInfo>
  {
    var id :- Field(m, "id", AsUuid);
    var name :- Field(m, "name", AsString);
    var isAuthority :- Field(m, "is_authority", AsBool);
    var isReady :- Field(m, "is_ready", AsBool);
    var connectedAt :- Field(m, "connected_at", AsString);
    var connectionInfo :- OptionalField(m, "connection_info", AsConnectionInfo);
    Ok(PlayerInfo(id, name, isAuthority, isReady, connectedAt, connectionInfo))
  }

  function AsPlayerInfo(j: Value): Decoded<PlayerInfo> {
    var m :- AsObject(j);
    DecodePlayerInfo(m)
  }

  lemma PlayerInfoMapEntries(p: PlayerInfo, m: map<string, Value>)
    requires m == PlayerInfoMap(p)
    ensures "id" in m && m["id"] == UuidToJson(p.id)
    ensures "name" in m && m["name"] == JString(p.name)
    ensures "is_authority" in m && m["is_authority"] == JBool(p.isAuthority)
    ensures "is_ready" in m && m["is_ready"] == JBool(p.isReady)
    ensures "connected_at" in m && m["connected_at"] == JString(p.connectedAt)
    ensures if p.connectionInfo.Some? then "connection_info" in m && m["connection_info"] == ConnectionInfoToJson(p.connectionInfo.value) else "connection_info" !in m
  {
    assert "id" in m && m["id"] == UuidToJson(p.id);
    assert "name" in m && m["name"] == JString(p.name);
    assert "is_authority" in m && m["is_authority"] == JBool(p.isAuthority);
    assert "is_ready" in m && m["is_ready"] == JBool(p.isReady);
    assert "connected_at" in m && m["connected_at"] == JString(p.connectedAt);
    assert if p.connectionInfo.Some? then "connection_info" in m && m["connection_info"] == ConnectionInfoToJson(p.connectionInfo.value) else "connection_info" !in m;
  }

  lemma DecodePlayerInfoAccepts(p: PlayerInfo, m: map<string, Value>)
    requires "id" in m && m["id"] == UuidToJson(p.id)
    requires "name" in m && m["name"] == JString(p.name)
    requires "is_authority" in m && m["is_authority"] == JBool(p.isAuthority)
    requires "is_ready" in m && m["is_ready"] == JBool(p.isReady)
    requires "connected_at" in m && m["connected_at"] == JString(p.connectedAt)
    requires if p.connectionInfo.Some? then "connection_info" in m && m["connection_info"] == ConnectionInfoToJson(p.connectionInfo.value) else "connection_info" !in m
    ensures DecodePlayerInfo(m) == Ok(p)
  {
    UuidRoundTrip(p.id);
    assert Field(m, "id", AsUuid) == Ok(p.id);
    assert Field(m, "name", AsString) == Ok(p.name);
    assert Field(m, "is_authority", AsBool) == Ok(p.isAuthority);
    assert Field(m, "is_ready", AsBool) == Ok(p.isReady);
    assert Field(m, "connected_at", AsString) == Ok(p.connectedAt);
    if p.connectionInfo.Some? {
      ConnectionInfoRoundTrip(p.connectionInfo.value);
    }
    assert OptionalField(m, "connection_info", AsConnectionInfo) == Ok(p.connectionInfo);
  }

  lemma PlayerInfoRoundTrip(p: PlayerInfo)
    ensures AsPlayerInfo(PlayerInfoToJson(p)) == Ok(p)
  {
    var m := PlayerInfoMap(p);
    PlayerInfoMapEntries(p, m);
    DecodePlayerInfoAccepts(p, m);
  }

  // SpectatorInfo

  function SpectatorInfoMap(s: SpectatorInfo): map<string, Value>
  {
    map["id" := UuidToJson(s.id),
        "name" := JString(s.name),
        "connected_at" := JString(s.connectedAt)]
  }

  function SpectatorInfoToJson(s: SpectatorInfo): Value {
    JObject(SpectatorInfoMap(s))
  }

  function DecodeSpectatorInfo(m: map<string, Value>): Decoded<SpectatorInfo>
  {
    var id :- Field(m, "id", AsUuid);
    var name :- Field(m, "name", AsString);
    var connectedAt :- Field(m, "connected_at", AsString);
    Ok(SpectatorInfo(id, name, connectedAt))
  }

  function AsSpectatorInfo(j: Value): Decoded<SpectatorInfo> {
    var m :- AsObject(j);
    DecodeSpectatorInfo(m)
  }

  lemma SpectatorInfoMapEntries(s: SpectatorInfo, m: map<string, Value>)
    requires m == SpectatorInfoMap(s)
    ensures "id" in m && m["id"] == UuidToJson(s.id)
    ensures "name" in m && m["name"] == JString(s.name)
    ensures "connected_at" in m && m["connected_at"] == JString(s.connectedAt)
  {
    assert "id" in m && m["id"] == UuidToJson(s.id);
    assert "name" in m && m["name"] == JString(s.name);
    assert "connected_at" in m && m["connected_at"] == JString(s.connectedAt);
  }

  lemma DecodeSpectatorInfoAccepts(s: SpectatorInfo, m: map<string, Value>)
    requires "id" in m && m["id"] == UuidToJson(s.id)
    requires "name" in m && m["name"] == JString(s.name)
    requires "connected_at" in m && m["connected_at"] == JString(s.connectedAt)
    ensures DecodeSpectatorInfo(m) == Ok(s)
  {
    UuidRoundTrip(s.id);
    assert Field(m, "id", AsUuid) == Ok(s.id);
    assert Field(m, "name", AsString) == Ok(s.name);
    assert Field(m, "connected_at", AsString) == Ok(s.connectedAt);
  }

  lemma SpectatorInfoRoundTrip(s: SpectatorInfo)
    ensures AsSpectatorInfo(SpectatorInfoToJson(s)) == Ok(s)
  {
    var m := SpectatorInfoMap(s);
    SpectatorInfoMapEntries(s, m);
    DecodeSpectatorInfoAccepts(s, m);
  }

  // PeerConnectionInfo

  function PeerConnectionInfoMap(p: PeerConnectionInfo): map<string, Value>
  {
    var m := map["player_id" := UuidToJson(p.playerId),
        "player_name" := JString(p.playerName),
        "is_authority" := JBool(p.isAuthority),
        "relay_type" := JString(p.relayType)];
    PutIfSome(m, "connection_info", if p.connectionInfo.Some? then Some(ConnectionInfoToJson(p.connectionInfo.value)) else None)
  }

  function PeerConnectionInfoToJson(p: PeerConnectionInfo): Value {
    JObject(PeerConnectionInfoMap(p))
  }

  function DecodePeerConnectionInfo(m: map<string, Value>): Decoded<PeerConnectionInfo>
  {
    var playerId :- Field(m, "player_id", AsUuid);
    var playerName :- Field(m, "player_name", AsString);
    var isAuthority :- Field(m, "is_authority", AsBool);
    var relayType :- Field(m, "relay_type", AsString);
    var connectionInfo :- OptionalField(m, "connection_info", AsConnectionInfo);
    Ok(PeerConnectionInfo(playerId, playerName, isAuthority, relayType, connectionInfo))
  }

  function AsPeerConnectionInfo(j: Value): Decoded<PeerConnectionInfo> {
    var m :- AsObject(j);
    DecodePeerConnectionInfo(m)
  }

  lemma PeerConnectionInfoMapEntries(p: PeerConnectionInfo, m: map<string, Value>)
    requires m == PeerConnectionInfoMap(p)
    ensures "player_id" in m && m["player_id"] == UuidToJson(p.playerId)
    ensures "player_name" in m && m["player_name"] == JString(p.playerName)
    ensures "is_authority" in m && m["is_authority"] == JBool(p.isAuthority)
    ensures "relay_type" in m && m["relay_type"] == JString(p.relayType)
    ensures if p.connectionInfo.Some? then "connection_info" in m && m["connection_info"] == ConnectionInfoToJson(p.connectionInfo.value) else "connection_info" !in m
  {
    assert "player_id" in m && m["player_id"] == UuidToJson(p.playerId);
    assert "player_name" in m && m["player_name"] == JString(p.playerName);
    assert "is_authority" in m && m["is_authority"] == JBool(p.isAuthority);
    assert "relay_type" in m && m["relay_type"] == JString(p.relayType);
    assert if p.connectionInfo.Some? then "connection_info" in m && m["connection_info"] == ConnectionInfoToJson(p.connectionInfo.value) else "connection_info" !in m;
  }

  lemma DecodePeerConnectionInfoAccepts(p: PeerConnectionInfo, m: map<string, Value>)
    requires "player_id" in m && m["player_id"] == UuidToJson(p.playerId)
    requires "player_name" in m && m["player_name"] == JString(p.playerName)
    requires "is_authority" in m && m["is_authority"] == JBool(p.isAuthority)
    requires "relay_type" in m && m["relay_type"] == JString(p.relayType)
    requires if p.connectionInfo.Some? then "connection_info" in m && m["connection_info"] == ConnectionInfoToJson(p.connectionInfo.value) else "connection_info" !in m
    ensures DecodePeerConnectionInfo(m) == Ok(p)
  {
    UuidRoundTrip(p.playerId);
    assert Field(m, "player_id", AsUuid) == Ok(p.playerId);
    assert Field(m, "player_name", AsString) == Ok(p.playerName);
    assert Field(m, "is_authority", AsBool) == Ok(p.isAuthority);
    assert Field(m, "relay_type", AsString) == Ok(p.relayType);
    if p.connectionInfo.Some? {
      ConnectionInfoRoundTrip(p.connectionInfo.value);
    }
    assert OptionalField(m, "connection_info", AsConnectionInfo) == Ok(p.connectionInfo);
  }

  lemma PeerConnectionInfoRoundTrip(p: PeerConnectionInfo)
    ensures AsPeerConnectionInfo(PeerConnectionInfoToJson(p)) == Ok(p)
  {
    var m := PeerConnectionInfoMap(p);
    PeerConnectionInfoMapEntries(p, m);
    DecodePeerConnectionInfoAccepts(p, m);
  }

  // RateLimitInfo

  function RateLimitInfoMap(r: RateLimitInfo): map<string, Value>
  {
    map["per_minute" := JInt(r.perMinute),
        "per_hour" := JInt(r.perHour),
        "per_day" := JInt(r.perDay)]
  }

  function RateLimitInfoToJson(r: RateLimitInfo): Value {
    JObject(RateLimitInfoMap(r))
  }

  function DecodeRateLimitInfo(m: map<string, Value>): Decoded<RateLimitInfo>
  {
    var perMinute :- Field(m, "per_minute", AsU32);
    var perHour :- Field(m, "per_hour", AsU32);
    var perDay :- Field(m, "per_day", AsU32);
    Ok(RateLimitInfo(perMinute, perHour, perDay))
  }

  function AsRateLimitInfo(j: Value): Decoded<RateLimitInfo> {
    var m :- AsObject(j);
    DecodeRateLimitInfo(m)
  }

  lemma RateLimitInfoMapEntries(r: RateLimitInfo, m: map<string, Value>)
    requires m == RateLimitInfoMap(r)
    ensures "per_minute" in m && m["per_minute"] == JInt(r.perMinute)
    ensures "per_hour" in m && m["per_hour"] == JInt(r.perHour)
    ensures "per_day" in m && m["per_day"] == JInt(r.perDay)
  {
    assert "per_minute" in m && m["per_minute"] == JInt(r.perMinute);
    assert "per_hour" in m && m["per_hour"] == JInt(r.perHour);
    assert "per_day" in m && m["per_day"] == JInt(r.perDay);
  }

  lemma DecodeRateLimitInfoAccepts(r: RateLimitInfo, m: map<string, Value>)
    requires "per_minute" in m && m["per_minute"] == JInt(r.perMinute)
    requires "per_hour" in m && m["per_hour"] == JInt(r.perHour)
    requires "per_day" in m && m["per_day"] == JInt(r.perDay)
    ensures DecodeRateLimitInfo(m) == Ok(r)
  {
    assert Field(m, "per_minute", AsU32) == Ok(r.perMinute);
    assert Field(m, "per_hour", AsU32) == Ok(r.perHour);
    assert Field(m, "per_day", AsU32) == Ok(r.perDay);
  }

  lemma RateLimitInfoRoundTrip(r: RateLimitInfo)
    ensures AsRateLimitInfo(RateLimitInfoToJson(r)) == Ok(r)
  {
    var m := RateLimitInfoMap(r);
    RateLimitInfoMapEntries(r, m);
    DecodeRateLimitInfoAccepts(r, m);
  }

  // PlayerNameRulesPayload

  function PlayerNameRulesMap(p: PlayerNameRulesPayload): map<string, Value>
  {
    var m := map["max_length" := JInt(p.maxLength),
        "min_length" := JInt(p.minLength),
        "allow_unicode_alphanumeric" := JBool(p.allowUnicodeAlphanumeric),
        "allow_spaces" := JBool(p.allowSpaces),
        "allow_leading_trailing_whitespace" := JBool(p.allowLeadingTrailingWhitespace),
        "allowed_symbols" := CharsToJson(p.allowedSymbols)];
    PutIfSome(m, "additional_allowed_characters", if p.additionalAllowedCharacters.Some? then Some(JString(p.additionalAllowedCharacters.value)) else None)
  }

  function PlayerNameRulesToJson(p: PlayerNameRulesPayload): Value {
    JObject(PlayerNameRulesMap(p))
  }

  function DecodePlayerNameRules(m: map<string, Value>): Decoded<PlayerNameRulesPayload>
  {
    var maxLength :- Field(m, "max_length", AsU64);
    var minLength :- Field(m, "min_length", AsU64);
    var allowUnicodeAlphanumeric :- Field(m, "allow_unicode_alphanumeric", AsBool);
    var allowSpaces :- Field(m, "allow_spaces", AsBool);
    var allowLeadingTrailingWhitespace :- Field(m, "allow_leading_trailing_whitespace", AsBool);
    var allowedSymbols :- DefaultField(m, "allowed_symbols", AsChars, []);
    var additionalAllowedCharacters :- OptionalField(m, "additional_allowed_characters", AsString);
    Ok(PlayerNameRulesPayload(maxLength, minLength, allowUnicodeAlphanumeric, allowSpaces, allowLeadingTrailingWhitespace, allowedSymbols, additionalAllowedCharacters))
  }

  function AsPlayerNameRules(j: Value): Decoded<PlayerNameRulesPayload> {
    var m :- AsObject(j);
    DecodePlayerNameRules(m)
  }

  /** What the encoder writes under `max_length`, `min_length`, `allow_unicode_alphanumeric`, `allow_spaces`. */
  lemma PlayerNameRulesMapEntries1(p: PlayerNameRulesPayload, m: map<string, Value>)
    requires m == PlayerNameRulesMap(p)
    ensures "max_length" in m && m["max_length"] == JInt(p.maxLength)
    ensures "min_length" in m && m["min_length"] == JInt(p.minLength)
    ensures "allow_unicode_alphanumeric" in m && m["allow_unicode_alphanumeric"] == JBool(p.allowUnicodeAlphanumeric)
    ensures "allow_spaces" in m && m["allow_spaces"] == JBool(p.allowSpaces)
  {
    assert "max_length" in m && m["max_length"] == JInt(p.maxLength);
    assert "min_length" in m && m["min_length"] == JInt(p.minLength);
    assert "allow_unicode_alphanumeric" in m && m["allow_unicode_alphanumeric"] == JBool(p.allowUnicodeAlphanumeric);
    assert "allow_spaces" in m && m["allow_spaces"] == JBool(p.allowSpaces);
  }

  /** What the encoder writes under `allow_leading_trailing_whitespace`, `allowed_symbols`, `additional_allowed_characters`. */
  lemma PlayerNameRulesMapEntries2(p: PlayerNameRulesPayload, m: map<string, Value>)
    requires m == PlayerNameRulesMap(p)
    ensures "allow_leading_trailing_whitespace" in m && m["allow_leading_trailing_whitespace"] == JBool(p.allowLeadingTrailingWhitespace)
    ensures "allowed_symbols" in m && m["allowed_symbols"] == CharsToJson(p.allowedSymbols)
    ensures if p.additionalAllowedCharacters.Some? then "additional_allowed_characters" in m && m["additional_allowed_characters"] == JString(p.additionalAllowedCharacters.value) else "additional_allowed_characters" !in m
  {
    assert "allow_leading_trailing_whitespace" in m && m["allow_leading_trailing_whitespace"] == JBool(p.allowLeadingTrailingWhitespace);
    assert "allowed_symbols" in m && m["allowed_symbols"] == CharsToJson(p.allowedSymbols);
    assert if p.additionalAllowedCharacters.Some? then "additional_allowed_characters" in m && m["additional_allowed_characters"] == JString(p.additionalAllowedCharacters.value) else "additional_allowed_characters" !in m;
  }

  lemma DecodePlayerNameRulesAccepts(p: PlayerNameRulesPayload, m: map<string, Value>)
    requires "max_length" in m && m["max_length"] == JInt(p.maxLength)
    requires "min_length" in m && m["min_length"] == JInt(p.minLength)
    requires "allow_unicode_alphanumeric" in m && m["allow_unicode_alphanumeric"] == JBool(p.allowUnicodeAlphanumeric)
    requires "allow_spaces" in m && m["allow_spaces"] == JBool(p.allowSpaces)
    requires "allow_leading_trailing_whitespace" in m && m["allow_leading_trailing_whitespace"] == JBool(p.allowLeadingTrailingWhitespace)
    requires "allowed_symbols" in m && m["allowed_symbols"] == CharsToJson(p.allowedSymbols)
    requires if p.additionalAllowedCharacters.Some? then "additional_allowed_characters" in m && m["additional_allowed_characters"] == JString(p.additionalAllowedCharacters.value) else "additional_allowed_characters" !in m
    ensures DecodePlayerNameRules(m) == Ok(p)
  {
    assert Field(m, "max_length", AsU64) == Ok(p.maxLength);
    assert Field(m, "min_length", AsU64) == Ok(p.minLength);
    assert Field(m, "allow_unicode_alphanumeric", AsBool) == Ok(p.allowUnicodeAlphanumeric);
    assert Field(m, "allow_spaces", AsBool) == Ok(p.allowSpaces);
    assert Field(m, "allow_leading_trailing_whitespace", AsBool) == Ok(p.allowLeadingTrailingWhitespace);
    CharsRoundTrip(p.allowedSymbols);
    assert DefaultField(m, "allowed_symbols", AsChars, []) == Ok(p.allowedSymbols);
    assert OptionalField(m, "additional_allowed_characters", AsString) == Ok(p.additionalAllowedCharacters);
  }

  lemma PlayerNameRulesRoundTrip(p: PlayerNameRulesPayload)
    ensures AsPlayerNameRules(PlayerNameRulesToJson(p)) == Ok(p)
  {
    var m := PlayerNameRulesMap(p);
    PlayerNameRulesMapEntries1(p, m);
    PlayerNameRulesMapEntries2(p, m);
    DecodePlayerNameRulesAccepts(p, m);
  }

  // ProtocolInfoPayload

  function ProtocolInfoMap(p: ProtocolInfoPayload): map<string, Value>
  {
    var m := map["capabilities" := StringsToJson(p.capabilities),
        "game_data_formats" := EncodingsToJson(p.gameDataFormats)];
    var m := PutIfSome(m, "platform", if p.platform.Some? then Some(JString(p.platform.value)) else None);
    var m := PutIfSome(m, "sdk_version", if p.sdkVersion.Some? then Some(JString(p.sdkVersion.value)) else None);
    var m := PutIfSome(m, "minimum_version", if p.minimumVersion.Some? then Some(JString(p.minimumVersion.value)) else None);
    var m := PutIfSome(m, "recommended_version", if p.recommendedVersion.Some? then Some(JString(p.recommendedVersion.value)) else None);
    var m := PutIfSome(m, "notes", if p.notes.Some? then Some(JString(p.notes.value)) else None);
    PutIfSome(m, "player_name_rules", if p.playerNameRules.Some? then Some(PlayerNameRulesToJson(p.playerNameRules.value)) else None)
  }

  function ProtocolInfoToJson(p: ProtocolInfoPayload): Value {
    JObject(ProtocolInfoMap(p))
  }

  function DecodeProtocolInfo(m: map<string, Value>): Decoded<ProtocolInfoPayload>
  {
    var platform :- OptionalField(m, "platform", AsString);
    var sdkVersion :- OptionalField(m, "sdk_version", AsString);
    var minimumVersion :- OptionalField(m, "minimum_version", AsString);
    var recommendedVersion :- OptionalField(m, "recommended_version", AsString);
    var capabilities :- DefaultField(m, "capabilities", AsStrings, []);
    var notes :- OptionalField(m, "notes", AsString);
    var gameDataFormats :- DefaultField(m, "game_data_formats", AsEncodings, []);
    var playerNameRules :- OptionalField(m, "player_name_rules", AsPlayerNameRules);
    Ok(ProtocolInfoPayload(platform, sdkVersion, minimumVersion, recommendedVersion, capabilities, notes, gameDataFormats, playerNameRules))
  }

  function AsProtocolInfo(j: Value): Decoded<ProtocolInfoPayload> {
    var m :- AsObject(j);
    DecodeProtocolInfo(m)
  }

  /** What the encoder writes under `platform`, `sdk_version`. */
  lemma ProtocolInfoMapEntries1(p: ProtocolInfoPayload, m: map<string, Value>)
    requires m == ProtocolInfoMap(p)
    ensures if p.platform.Some? then "platform" in m && m["platform"] == JString(p.platform.value) else "platform" !in m
    ensures if p.sdkVersion.Some? then "sdk_version" in m && m["sdk_version"] == JString(p.sdkVersion.value) else "sdk_version" !in m
  {
    assert if p.platform.Some? then "platform" in m && m["platform"] == JString(p.platform.value) else "platform" !in m;
    assert if p.sdkVersion.Some? then "sdk_version" in m && m["sdk_version"] == JString(p.sdkVersion.value) else "sdk_version" !in m;
  }

  /** What the encoder writes under `minimum_version`, `recommended_version`. */
  lemma ProtocolInfoMapEntries2(p: ProtocolInfoPayload, m: map<string, Value>)
    requires m == ProtocolInfoMap(p)
    ensures if p.minimumVersion.Some? then "minimum_version" in m && m["minimum_version"] == JString(p.minimumVersion.value) else "minimum_version" !in m
    ensures if p.recommendedVersion.Some? then "recommended_version" in m && m["recommended_version"] == JString(p.recommendedVersion.value) else "recommended_version" !in m
  {
    assert if p.minimumVersion.Some? then "minimum_version" in m && m["minimum_version"] == JString(p.minimumVersion.value) else "minimum_version" !in m;
    assert if p.recommendedVersion.Some? then "recommended_version" in m && m["recommended_version"] == JString(p.recommendedVersion.value) else "recommended_version" !in m;
  }

  /** What the encoder writes under `capabilities`, `notes`. */
  lemma ProtocolInfoMapEntries3(p: ProtocolInfoPayload, m: map<string, Value>)
    requires m == ProtocolInfoMap(p)
    ensures "capabilities" in m && m["capabilities"] == StringsToJson(p.capabilities)
    ensures if p.notes.Some? then "notes" in m && m["notes"] == JString(p.notes.value) else "notes" !in m
  {
    assert "capabilities" in m && m["capabilities"] == StringsToJson(p.capabilities);
    assert if p.notes.Some? then "notes" in m && m["notes"] == JString(p.notes.value) else "notes" !in m;
  }

  /** What the encoder writes under `game_data_formats`, `player_name_rules`. */
  lemma ProtocolInfoMapEntries4(p: ProtocolInfoPayload, m: map<string, Value>)
    requires m == ProtocolInfoMap(p)
    ensures "game_data_formats" in m && m["game_data_formats"] == EncodingsToJson(p.gameDataFormats)
    ensures if p.playerNameRules.Some? then "player_name_rules" in m && m["player_name_rules"] == PlayerNameRulesToJson(p.playerNameRules.value) else "player_name_rules" !in m
  {
    assert "game_data_formats" in m && m["game_data_formats"] == EncodingsToJson(p.gameDataFormats);
    assert if p.playerNameRules.Some? then "player_name_rules" in m && m["player_name_rules"] == PlayerNameRulesToJson(p.playerNameRules.value) else "player_name_rules" !in m;
  }

  lemma DecodeProtocolInfoAccepts(p: ProtocolInfoPayload, m: map<string, Value>)
    requires if p.platform.Some? then "platform" in m && m["platform"] == JString(p.platform.value) else "platform" !in m
    requires if p.sdkVersion.Some? then "sdk_version" in m && m["sdk_version"] == JString(p.sdkVersion.value) else "sdk_version" !in m
    requires if p.minimumVersion.Some? then "minimum_version" in m && m["minimum_version"] == JString(p.minimumVersion.value) else "minimum_version" !in m
    requires if p.recommendedVersion.Some? then "recommended_version" in m && m["recommended_version"] == JString(p.recommendedVersion.value) else "recommended_version" !in m
    requires "capabilities" in m && m["capabilities"] == StringsToJson(p.capabilities)
    requires if p.notes.Some? then "notes" in m && m["notes"] == JString(p.notes.value) else "notes" !in m
    requires "game_data_formats" in m && m["game_data_formats"] == EncodingsToJson(p.gameDataFormats)
    requires if p.playerNameRules.Some? then "player_name_rules" in m && m["player_name_rules"] == PlayerNameRulesToJson(p.playerNameRules.value) else "player_name_rules" !in m
    ensures DecodeProtocolInfo(m) == Ok(p)
  {
    assert OptionalField(m, "platform", AsString) == Ok(p.platform);
    assert OptionalField(m, "sdk_version", AsString) == Ok(p.sdkVersion);
    assert OptionalField(m, "minimum_version", AsString) == Ok(p.minimumVersion);
    assert OptionalField(m, "recommended_version", AsString) == Ok(p.recommendedVersion);
    StringsRoundTrip(p.capabilities);
    assert DefaultField(m, "capabilities", AsStrings, []) == Ok(p.capabilities);
    assert OptionalField(m, "notes", AsString) == Ok(p.notes);
    EncodingsRoundTrip(p.gameDataFormats);
    assert DefaultField(m, "game_data_formats", AsEncodings, []) == Ok(p.gameDataFormats);
    if p.playerNameRules.Some? {
      PlayerNameRulesRoundTrip(p.playerNameRules.value);
    }
    assert OptionalField(m, "player_name_rules", AsPlayerNameRules) == Ok(p.playerNameRules);
  }

  lemma ProtocolInfoRoundTrip(p: ProtocolInfoPayload)
    ensures AsProtocolInfo(ProtocolInfoToJson(p)) == Ok(p)
  {
    var m := ProtocolInfoMap(p);
    ProtocolInfoMapEntries1(p, m);
    ProtocolInfoMapEntries2(p, m);
    ProtocolInfoMapEntries3(p, m);
    ProtocolInfoMapEntries4(p, m);
    DecodeProtocolInfoAccepts(p, m);
  }

  // SpectatorJoinedPayload

  function SpectatorJoinedMap(p: SpectatorJoinedPayload): map<string, Value>
  {
    var m := map["room_id" := UuidToJson(p.roomId),
        "room_code" := JString(p.roomCode),
        "spectator_id" := UuidToJson(p.spectatorId),
        "game_name" := JString(p.gameName),
        "current_players" := PlayersToJson(p.currentPlayers),
        "current_spectators" := SpectatorsToJson(p.currentSpectators),
        "lobby_state" := LobbyStateToJson(p.lobbyState)];
    PutIfSome(m, "reason", if p.reason.Some? then Some(ReasonToJson(p.reason.value)) else None)
  }

  function SpectatorJoinedToJson(p: SpectatorJoinedPayload): Value {
    JObject(SpectatorJoinedMap(p))
  }

  function DecodeSpectatorJoined(m: map<string, Value>): Decoded<SpectatorJoinedPayload>
  {
    var roomId :- Field(m, "room_id", AsUuid);
    var roomCode :- Field(m, "room_code", AsString);
    var spectatorId :- Field(m, "spectator_id", AsUuid);
    var gameName :- Field(m, "game_name", AsString);
    var currentPlayers :- Field(m, "current_players", AsPlayers);
    var currentSpectators :- Field(m, "current_spectators", AsSpectators);
    var lobbyState :- Field(m, "lobby_state", AsLobbyState);
    var reason :- OptionalField(m, "reason", AsReason);
    Ok(SpectatorJoinedPayload(roomId, roomCode, spectatorId, gameName, currentPlayers, currentSpectators, lobbyState, reason))
  }

  function AsSpectatorJoined(j: Value): Decoded<SpectatorJoinedPayload> {
    var m :- AsObject(j);
    DecodeSpectatorJoined(m)
  }

  /** What the encoder writes under `room_id`, `room_code`, `spectator_id`, `game_name`. */
  lemma SpectatorJoinedMapEntries1(p: SpectatorJoinedPayload, m: map<string, Value>)
    requires m == SpectatorJoinedMap(p)
    ensures "room_id" in m && m["room_id"] == UuidToJson(p.roomId)
    ensures "room_code" in m && m["room_code"] == JString(p.roomCode)
    ensures "spectator_id" in m && m["spectator_id"] == UuidToJson(p.spectatorId)
    ensures "game_name" in m && m["game_name"] == JString(p.gameName)
  {
    assert "room_id" in m && m["room_id"] == UuidToJson(p.roomId);
    assert "room_code" in m && m["room_code"] == JString(p.roomCode);
    assert "spectator_id" in m && m["spectator_id"] == UuidToJson(p.spectatorId);
    assert "game_name" in m && m["game_name"] == JString(p.gameName);
  }

  /** What the encoder writes under `current_players`, `current_spectators`, `lobby_state`, `reason`. */
  lemma SpectatorJoinedMapEntries2(p: SpectatorJoinedPayload, m: map<string, Value>)
    requires m == SpectatorJoinedMap(p)
    ensures "current_players" in m && m["current_players"] == PlayersToJson(p.currentPlayers)
    ensures "current_spectators" in m && m["current_spectators"] == SpectatorsToJson(p.currentSpectators)
    ensures "lobby_state" in m && m["lobby_state"] == LobbyStateToJson(p.lobbyState)
    ensures if p.reason.Some? then "reason" in m && m["reason"] == ReasonToJson(p.reason.value) else "reason" !in m
  {
    assert "current_players" in m && m["current_players"] == PlayersToJson(p.currentPlayers);
    assert "current_spectators" in m && m["current_spectators"] == SpectatorsToJson(p.currentSpectators);
    assert "lobby_state" in m && m["lobby_state"] == LobbyStateToJson(p.lobbyState);
    assert if p.reason.Some? then "reason" in m && m["reason"] == ReasonToJson(p.reason.value) else "reason" !in m;
  }

  lemma DecodeSpectatorJoinedAccepts(p: SpectatorJoinedPayload, m: map<string, Value>)
    requires "room_id" in m && m["room_id"] == UuidToJson(p.roomId)
    requires "room_code" in m && m["room_code"] == JString(p.roomCode)
    requires "spectator_id" in m && m["spectator_id"] == UuidToJson(p.spectatorId)
    requires "game_name" in m && m["game_name"] == JString(p.gameName)
    requires "current_players" in m && m["current_players"] == PlayersToJson(p.currentPlayers)
    requires "current_spectators" in m && m["current_spectators"] == SpectatorsToJson(p.currentSpectators)
    requires "lobby_state" in m && m["lobby_state"] == LobbyStateToJson(p.lobbyState)
    requires if p.reason.Some? then "reason" in m && m["reason"] == ReasonToJson(p.reason.value) else "reason" !in m
    ensures DecodeSpectatorJoined(m) == Ok(p)
  {
    UuidRoundTrip(p.roomId);
    assert Field(m, "room_id", AsUuid) == Ok(p.roomId);
    assert Field(m, "room_code", AsString) == Ok(p.roomCode);
    UuidRoundTrip(p.spectatorId);
    assert Field(m, "spectator_id", AsUuid) == Ok(p.spectatorId);
    assert Field(m, "game_name", AsString) == Ok(p.gameName);
    PlayersRoundTrip(p.currentPlayers);
    assert Field(m, "current_players", AsPlayers) == Ok(p.currentPlayers);
    SpectatorsRoundTrip(p.currentSpectators);
    assert Field(m, "current_spectators", AsSpectators) == Ok(p.currentSpectators);
    LobbyStateRoundTrip(p.lobbyState);
    assert Field(m, "lobby_state", AsLobbyState) == Ok(p.lobbyState);
    if p.reason.Some? {
      ReasonRoundTrip(p.reason.value);
    }
    assert OptionalField(m, "reason", AsReason) == Ok(p.reason);
  }

  lemma SpectatorJoinedRoundTrip(p: SpectatorJoinedPayload)
    ensures AsSpectatorJoined(SpectatorJoinedToJson(p)) == Ok(p)
  {
    var m := SpectatorJoinedMap(p);
    SpectatorJoinedMapEntries1(p, m);
    SpectatorJoinedMapEntries2(p, m);
    DecodeSpectatorJoinedAccepts(p, m);
  }

  // RoomJoinedPayload

  /** The room fields of `RoomJoined`; `Reconnected` holds the same fields and `missed_events` beside them. */
  function RoomMap(p: RoomJoinedPayload): map<string, Value>
  {
    map["room_id" := UuidToJson(p.roomId),
        "room_code" := JString(p.roomCode),
        "player_id" := UuidToJson(p.playerId),
        "game_name" := JString(p.gameName),
        "max_players" := JInt(p.maxPlayers),
        "supports_authority" := JBool(p.supportsAuthority),
        "current_players" := PlayersToJson(p.currentPlayers),
        "is_authority" := JBool(p.isAuthority),
        "lobby_state" := LobbyStateToJson(p.lobbyState),
        "ready_players" := UuidsToJson(p.readyPlayers),
        "relay_type" := JString(p.relayType),
        "current_spectators" := SpectatorsToJson(p.currentSpectators)]
  }

  function RoomToJson(p: RoomJoinedPayload): Value {
    JObject(RoomMap(p))
  }

  function DecodeRoom(m: map<string, Value>): Decoded<RoomJoinedPayload>
  {
    var roomId :- Field(m, "room_id", AsUuid);
    var roomCode :- Field(m, "room_code", AsString);
    var playerId :- Field(m, "player_id", AsUuid);
    var gameName :- Field(m, "game_name", AsString);
    var maxPlayers :- Field(m, "max_players", AsU8);
    var supportsAuthority :- Field(m, "supports_authority", AsBool);
    var currentPlayers :- Field(m, "current_players", AsPlayers);
    var isAuthority :- Field(m, "is_authority", AsBool);
    var lobbyState :- Field(m, "lobby_state", AsLobbyState);
    var readyPlayers :- Field(m, "ready_players", AsUuids);
    var relayType :- Field(m, "relay_type", AsString);
    var currentSpectators :- DefaultField(m, "current_spectators", AsSpectators, []);
    Ok(RoomJoinedPayload(roomId, roomCode, playerId, gameName, maxPlayers, supportsAuthority, currentPlayers, isAuthority, lobbyState, readyPlayers, relayType, currentSpectators))
  }

  function AsRoom(j: Value): Decoded<RoomJoinedPayload> {
    var m :- AsObject(j);
    DecodeRoom(m)
  }

  /** What the encoder writes under `room_id`, `room_code`, `player_id`, `game_name`. */
  lemma RoomMapEntries1(p: RoomJoinedPayload, m: map<string, Value>)
    requires m == RoomMap(p)
    ensures "room_id" in m && m["room_id"] == UuidToJson(p.roomId)
    ensures "room_code" in m && m["room_code"] == JString(p.roomCode)
    ensures "player_id" in m && m["player_id"] == UuidToJson(p.playerId)
    ensures "game_name" in m && m["game_name"] == JString(p.gameName)
  {
    assert "room_id" in m && m["room_id"] == UuidToJson(p.roomId);
    assert "room_code" in m && m["room_code"] == JString(p.roomCode);
    assert "player_id" in m && m["player_id"] == UuidToJson(p.playerId);
    assert "game_name" in m && m["game_name"] == JString(p.gameName);
  }

  /** What the encoder writes under `max_players`, `supports_authority`, `current_players`, `is_authority`. */
  lemma RoomMapEntries2(p: RoomJoinedPayload, m: map<string, Value>)
    requires m == RoomMap(p)
    ensures "max_players" in m && m["max_players"] == JInt(p.maxPlayers)
    ensures "supports_authority" in m && m["supports_authority"] == JBool(p.supportsAuthority)
    ensures "current_players" in m && m["current_players"] == PlayersToJson(p.currentPlayers)
    ensures "is_authority" in m && m["is_authority"] == JBool(p.isAuthority)
  {
    assert "max_players" in m && m["max_players"] == JInt(p.maxPlayers);
    assert "supports_authority" in m && m["supports_authority"] == JBool(p.supportsAuthority);
    assert "current_players" in m && m["current_players"] == PlayersToJson(p.currentPlayers);
    assert "is_authority" in m && m["is_authority"] == JBool(p.isAuthority);
  }

  /** What the encoder writes under `lobby_state`, `ready_players`, `relay_type`, `current_spectators`. */
  lemma RoomMapEntries3(p: RoomJoinedPayload, m: map<string, Value>)
    requires m == RoomMap(p)
    ensures "lobby_state" in m && m["lobby_state"] == LobbyStateToJson(p.lobbyState)
    ensures "ready_players" in m && m["ready_players"] == UuidsToJson(p.readyPlayers)
    ensures "relay_type" in m && m["relay_type"] == JString(p.relayType)
    ensures "current_spectators" in m && m["current_spectators"] == SpectatorsToJson(p.currentSpectators)
  {
    assert "lobby_state" in m && m["lobby_state"] == LobbyStateToJson(p.lobbyState);
    assert "ready_players" in m && m["ready_players"] == UuidsToJson(p.readyPlayers);
    assert "relay_type" in m && m["relay_type"] == JString(p.relayType);
    assert "current_spectators" in m && m["current_spectators"] == SpectatorsToJson(p.currentSpectators);
  }

  lemma DecodeRoomAccepts(p: RoomJoinedPayload, m: map<string, Value>)
    requires "room_id" in m && m["room_id"] == UuidToJson(p.roomId)
    requires "room_code" in m && m["room_code"] == JString(p.roomCode)
    requires "player_id" in m && m["player_id"] == UuidToJson(p.playerId)
    requires "game_name" in m && m["game_name"] == JString(p.gameName)
    requires "max_players" in m && m["max_players"] == JInt(p.maxPlayers)
    requires "supports_authority" in m && m["supports_authority"] == JBool(p.supportsAuthority)
    requires "current_players" in m && m["current_players"] == PlayersToJson(p.currentPlayers)
    requires "is_authority" in m && m["is_authority"] == JBool(p.isAuthority)
    requires "lobby_state" in m && m["lobby_state"] == LobbyStateToJson(p.lobbyState)
    requires "ready_players" in m && m["ready_players"] == UuidsToJson(p.readyPlayers)
    requires "relay_type" in m && m["relay_type"] == JString(p.relayType)
    requires "current_spectators" in m && m["current_spectators"] == SpectatorsToJson(p.currentSpectators)
    ensures DecodeRoom(m) == Ok(p)
  {
    UuidRoundTrip(p.roomId);
    assert Field(m, "room_id", AsUuid) == Ok(p.roomId);
    assert Field(m, "room_code", AsString) == Ok(p.roomCode);
    UuidRoundTrip(p.playerId);
    assert Field(m, "player_id", AsUuid) == Ok(p.playerId);
    assert Field(m, "game_name", AsString) == Ok(p.gameName);
    assert Field(m, "max_players", AsU8) == Ok(p.maxPlayers);
    assert Field(m, "supports_authority", AsBool) == Ok(p.supportsAuthority);
    PlayersRoundTrip(p.currentPlayers);
    assert Field(m, "current_players", AsPlayers) == Ok(p.currentPlayers);
    assert Field(m, "is_authority", AsBool) == Ok(p.isAuthority);
    LobbyStateRoundTrip(p.lobbyState);
    assert Field(m, "lobby_state", AsLobbyState) == Ok(p.lobbyState);
    UuidsRoundTrip(p.readyPlayers);
    assert Field(m, "ready_players", AsUuids) == Ok(p.readyPlayers);
    assert Field(m, "relay_type", AsString) == Ok(p.relayType);
    SpectatorsRoundTrip(p.currentSpectators);
    assert DefaultField(m, "current_spectators", AsSpectators, []) == Ok(p.currentSpectators);
  }

  lemma RoomRoundTrip(p: RoomJoinedPayload)
    ensures AsRoom(RoomToJson(p)) == Ok(p)
  {
    var m := RoomMap(p);
    RoomMapEntries1(p, m);
    RoomMapEntries2(p, m);
    RoomMapEntries3(p, m);
    DecodeRoomAccepts(p, m);
  }


  // ── Wire-shape facts ───────────────────────────────────────────────

  /** The fields of a connection description are not nested under a `"data"` key. */
  lemma ConnectionInfoIsFlat(c: ConnectionInfo)
    ensures var m := ConnectionInfoToJson(c).fields;
      m["type"] == JString(ConnectionTypeName(c)) &&
      match c
      case Direct(h, p) => m.Keys == {"type", "host", "port"} && m["host"] == JString(h) && m["port"] == JInt(p)
      case UnityRelay(_, _, _) => m.Keys == {"type", "allocation_id", "connection_data", "key"}
      case Relay(_, _, _, _, _, id) =>
        m.Keys == {"type", "host", "port", "transport", "allocation_id", "token"} + (if id.Some? then {"client_id"} else {})
      case WebRtc(sdp, _) => m.Keys == {"type", "sdp", "ice_candidates"} && (sdp.None? ==> m["sdp"] == JNull)
      case Custom(d) => m.Keys == {"type", "data"} && m["data"] == d
  {
  }

  /** A relay description without `"transport"` gets the default transport, `Auto`. */
  lemma RelayTransportDefaultsToAuto(host: string, port: U16, allocationId: string, token: string)
    ensures AsConnectionInfo(JObject(map["type" := JString("relay"), "host" := JString(host), "port" := JInt(port),
                                         "allocation_id" := JString(allocationId), "token" := JString(token)]))
            == Ok(Relay(host, port, Auto, allocationId, token, None))
  {
    var c := Relay(host, port, Auto, allocationId, token, None);
    var m := map["type" := JString("relay"), "host" := JString(host), "port" := JInt(port),
                 "allocation_id" := JString(allocationId), "token" := JString(token)];
    assert "transport" !in m;
    assert DecodeRelay(m) == Ok(c);
  }

  /** An empty object is a valid protocol description: every field is optional or defaults to empty. */
  lemma ProtocolInfoDefaults()
    ensures AsProtocolInfo(JObject(map[])) == Ok(ProtocolInfoPayload(None, None, None, None, [], None, [], None))
  {
  }


}
