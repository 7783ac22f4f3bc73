/**
  The client engine: the configuration builders, the state the client handle
  shares with its background transport loop, the command and event channels,
  and the loop itself, taken one ready input at a time.

  The pure part specifies each operation on a snapshot of the whole engine
  (`Machine`); the class `SignalFishClient` holds the same state in fields and
  its methods are proved to follow that specification.
*/
module Client {
  import opened Wrappers
  import opened JsonTree
  import opened Protocol
  import opened Errors
  import ClientCodec
  import ServerCodec

  // ── Configuration ──────────────────────────────────────────────────

  const DEFAULT_EVENT_CHANNEL_CAPACITY: U64 := 256
  /** `DEFAULT_SHUTDOWN_TIMEOUT`, one second, in milliseconds. */
  const DEFAULT_SHUTDOWN_TIMEOUT_MS: nat := 1000

  /** `SignalFishConfig`; the shutdown timeout is kept in milliseconds. */
  datatype Config = Config(
    appId: string,
    sdkVersion: Option<string>,
    platform: Option<string>,
    gameDataFormat: Option<GameDataEncoding>,
    eventChannelCapacity: U64,
    shutdownTimeoutMs: nat)

  /** `SignalFishConfig::new`; `crateVersion` is the crate version compiled into the library. */
  function NewConfig(appId: string, crateVersion: string): (c: Config)
    ensures c.appId == appId && c.sdkVersion == Some(crateVersion)
    ensures c.platform == None && c.gameDataFormat == None
    ensures c.eventChannelCapacity == 256 && c.shutdownTimeoutMs == 1000
  {
    Config(appId, Some(crateVersion), None, None, DEFAULT_EVENT_CHANNEL_CAPACITY, DEFAULT_SHUTDOWN_TIMEOUT_MS)
  }

  /** `capacity.max(1)`: a bounded channel needs room for at least one event. */
  function ClampCapacity(capacity: U64): (r: U64)
    ensures r >= 1
    ensures capacity >= 1 ==> r == capacity
    ensures capacity == 0 ==> r == 1
  {
    if capacity < 1 then 1 else capacity
  }

  function WithEventChannelCapacity(c: Config, capacity: U64): (r: Config)
    ensures r.eventChannelCapacity >= 1
    ensures capacity >= 1 ==> r.eventChannelCapacity == capacity
    ensures r.(eventChannelCapacity := c.eventChannelCapacity) == c
  {
    c.(eventChannelCapacity := ClampCapacity(capacity))
  }

  function WithShutdownTimeout(c: Config, timeoutMs: nat): (r: Config)
    ensures r.shutdownTimeoutMs == timeoutMs
    ensures r.(shutdownTimeoutMs := c.shutdownTimeoutMs) == c
  {
    c.(shutdownTimeoutMs := timeoutMs)
  }

  /** A capacity set on the builder and clamped again by `start` is the builder's value. */
  lemma CapacityClampedTwice(c: Config, capacity: U64)
    ensures ClampCapacity(WithEventChannelCapacity(c, capacity).eventChannelCapacity)
            == WithEventChannelCapacity(c, capacity).eventChannelCapacity
  {
  }

  // ── Join parameters ────────────────────────────────────────────────

  /** `JoinRoomParams`: only the game and player names are required. */
  datatype JoinRoomParams = JoinRoomParams(
    gameName: string,
    playerName: string,
    roomCode: Option<string>,
    maxPlayers: Option<U8>,
    supportsAuthority: Option<bool>,
    relayTransport: Option<RelayTransport>)

  function NewJoinRoomParams(gameName: string, playerName: string): (p: JoinRoomParams)
    ensures p.gameName == gameName && p.playerName == playerName
    ensures p.roomCode == None && p.maxPlayers == None
    ensures p.supportsAuthority == None && p.relayTransport == None
  {
    JoinRoomParams(gameName, playerName, None, None, None, None)
  }

  function WithRoomCode(p: JoinRoomParams, roomCode: string): (r: JoinRoomParams)
    ensures r.roomCode == Some(roomCode) && r.(roomCode := p.roomCode) == p
  {
    p.(roomCode := Some(roomCode))
  }

  function WithMaxPlayers(p: JoinRoomParams, maxPlayers: U8): (r: JoinRoomParams)
    ensures r.maxPlayers == Some(maxPlayers) && r.(maxPlayers := p.maxPlayers) == p
  {
    p.(maxPlayers := Some(maxPlayers))
  }

  function WithSupportsAuthority(p: JoinRoomParams, supportsAuthority: bool): (r: JoinRoomParams)
    ensures r.supportsAuthority == Some(supportsAuthority) && r.(supportsAuthority := p.supportsAuthority) == p
  {
    p.(supportsAuthority := Some(supportsAuthority))
  }

  function WithRelayTransport(p: JoinRoomParams, relayTransport: RelayTransport): (r: JoinRoomParams)
    ensures r.relayTransport == Some(relayTransport) && r.(relayTransport := p.relayTransport) == p
  {
    p.(relayTransport := Some(relayTransport))
  }

  /** The message `join_room` sends. */
  function JoinRoomMessage(p: JoinRoomParams): ClientMessage {
    JoinRoom(p.gameName, p.roomCode, p.playerName, p.maxPlayers, p.supportsAuthority, p.relayTransport)
  }

  /** The parameters a `JoinRoom` message carries. */
  function ParamsOf(m: ClientMessage): JoinRoomParams
    requires m.JoinRoom?
  {
    JoinRoomParams(m.gameName, m.playerName, m.roomCode, m.maxPlayers, m.supportsAuthority, m.relayTransport)
  }

  /** Every parameter reaches the server: the message read back from the wire gives the parameters back. */
  lemma JoinRoomCarriesParams(p: JoinRoomParams)
    ensures ClientCodec.Decode(ClientCodec.Encode(JoinRoomMessage(p))).Ok?
    ensures ParamsOf(ClientCodec.Decode(ClientCodec.Encode(JoinRoomMessage(p))).value) == p
  {
    ClientCodec.RoundTrip(JoinRoomMessage(p));
  }

  // ── Events and shared state ────────────────────────────────────────

  /** `SignalFishEvent`: the two synthetic connection events and one event per server message. */
  datatype Event = Connected | Disconnected(reason: Option<string>) | FromServer(msg: ServerMessage)

  /** `ClientState`: what the client handle and the transport loop share. */
  datatype SharedState = SharedState(
    connected: bool,
    authenticated: bool,
    playerId: Option<PlayerId>,
    roomId: Option<RoomId>,
    roomCode: Option<string>)

  /** `ClientState::new`. */
  function NewSharedState(): (s: SharedState)
    ensures s.connected && !s.authenticated
    ensures s.playerId == None && s.roomId == None && s.roomCode == None
  {
    SharedState(true, false, None, None, None)
  }

  /** The client is in a room exactly when it knows both the room's id and its code. */
  predicate RoomPaired(s: SharedState) {
    s.roomId.Some? <==> s.roomCode.Some?
  }

  /** `update_state`: what a server message does to the shared state. */
  function UpdatedState(s: SharedState, msg: ServerMessage): (r: SharedState)
    ensures r.connected == s.connected
    ensures RoomPaired(s) ==> RoomPaired(r)
  {
    match msg
    case Authenticated(_, _, _) => s.(authenticated := true)
    case RoomJoined(p) => s.(playerId := Some(p.playerId), roomId := Some(p.roomId), roomCode := Some(p.roomCode))
    case RoomLeft => s.(roomId := None, roomCode := None)
    case Reconnected(p) =>
      s.(playerId := Some(p.room.playerId), roomId := Some(p.room.roomId), roomCode := Some(p.room.roomCode))
    case SpectatorJoined(p) =>
      s.(playerId := Some(p.spectatorId), roomId := Some(p.roomId), roomCode := Some(p.roomCode))
    case SpectatorLeft(_, _, _, _) => s.(roomId := None, roomCode := None)
    case _ => s
  }

  /** The messages `update_state` acts on. */
  predicate ChangesState(msg: ServerMessage) {
    msg.Authenticated? || msg.RoomJoined? || msg.RoomLeft? || msg.Reconnected?
    || msg.SpectatorJoined? || msg.SpectatorLeft?
  }

  /** `Authenticated` only raises the authenticated flag. */
  lemma AuthenticatedRaisesFlag(s: SharedState, msg: ServerMessage)
    requires msg.Authenticated?
    ensures UpdatedState(s, msg).authenticated
    ensures UpdatedState(s, msg).(authenticated := s.authenticated) == s
  {
  }

  /**
    Joining or rejoining a room records the room's id and code and the id the
    client plays under: its player id, or its spectator id when it spectates.
    Nothing else changes.
  */
  lemma JoiningRecordsRoom(s: SharedState, msg: ServerMessage)
    requires msg.RoomJoined? || msg.Reconnected? || msg.SpectatorJoined?
    ensures var r := UpdatedState(s, msg);
      && r.connected == s.connected && r.authenticated == s.authenticated
      && (msg.RoomJoined? ==> r.playerId == Some(msg.joined.playerId) && r.roomId == Some(msg.joined.roomId)
                              && r.roomCode == Some(msg.joined.roomCode))
      && (msg.Reconnected? ==> r.playerId == Some(msg.reconnected.room.playerId)
                               && r.roomId == Some(msg.reconnected.room.roomId)
                               && r.roomCode == Some(msg.reconnected.room.roomCode))
      && (msg.SpectatorJoined? ==> r.playerId == Some(msg.spectating.spectatorId)
                                   && r.roomId == Some(msg.spectating.roomId)
                                   && r.roomCode == Some(msg.spectating.roomCode))
  {
  }

  /** Leaving a room or spectator mode forgets the room but keeps the player id. */
  lemma LeavingForgetsRoom(s: SharedState, msg: ServerMessage)
    requires msg.RoomLeft? || msg.SpectatorLeft?
    ensures var r := UpdatedState(s, msg);
      r.roomId == None && r.roomCode == None && r.playerId == s.playerId
      && r.connected == s.connected && r.authenticated == s.authenticated
  {
  }

  /** Every other message leaves the shared state as it was. */
  lemma OtherMessagesChangeNothing(s: SharedState, msg: ServerMessage)
    requires !ChangesState(msg)
    ensures UpdatedState(s, msg) == s
  {
  }

  /** The first half of `emit_disconnected`: both flags drop, the room fields stay. */
  function Disconnect(s: SharedState): (r: SharedState)
    ensures !r.connected && !r.authenticated
    ensures r.playerId == s.playerId && r.roomId == s.roomId && r.roomCode == s.roomCode
  {
    s.(connected := false, authenticated := false)
  }


  // ── The event channel ──────────────────────────────────────────────

  /** The bounded event channel: the events not yet received, its capacity, and whether the receiver still exists. */
  datatype EventChannel = EventChannel(buffered: seq<Event>, capacity: nat, receiverAlive: bool)

  /** Whether `try_send` succeeds: someone listens and there is room. */
  predicate Accepts(q: EventChannel) {
    q.receiverAlive && |q.buffered| < q.capacity
  }

  /** `emit_event`: `try_send`, dropping the event when the channel is full or closed. */
  function TrySend(q: EventChannel, e: Event): (r: EventChannel)
    ensures r.capacity == q.capacity && r.receiverAlive == q.receiverAlive
    ensures Accepts(q) ==> r.buffered == q.buffered + [e]
    ensures !Accepts(q) ==> r.buffered == q.buffered
    ensures |q.buffered| <= q.capacity ==> |r.buffered| <= r.capacity
  {
    if Accepts(q) then q.(buffered := q.buffered + [e]) else q
  }

  /**
    Whether the blocking `send` that `emit_disconnected` waits in can return:
    there is room, or the receiver is gone and the send fails.
  */
  predicate SendCompletes(q: EventChannel) {
    !q.receiverAlive || |q.buffered| < q.capacity
  }

  /**
    The blocking `send` once it returns: the event is delivered unless the
    receiver is gone. It returns only when `SendCompletes`, so the channel
    stays within its capacity.
  */
  function SendAndWait(q: EventChannel, e: Event): (r: EventChannel)
    ensures r.capacity == q.capacity && r.receiverAlive == q.receiverAlive
    ensures q.receiverAlive ==> r.buffered == q.buffered + [e]
    ensures !q.receiverAlive ==> r.buffered == q.buffered
    ensures SendCompletes(q) && |q.buffered| <= q.capacity ==> |r.buffered| <= r.capacity
  {
    if q.receiverAlive then q.(buffered := q.buffered + [e]) else q
  }

  /** `recv` on the event receiver takes the oldest buffered event. */
  function Recv(q: EventChannel): (r: (EventChannel, Option<Event>))
    ensures q.buffered == [] ==> r == (q, None)
    ensures q.buffered != [] ==> r.1 == Some(q.buffered[0]) && r.0 == q.(buffered := q.buffered[1..])
  {
    if q.buffered == [] then (q, None) else (q.(buffered := q.buffered[1..]), Some(q.buffered[0]))
  }

  /** Dropping the receiver discards what it had not read and makes every later send fail. */
  function ReceiverDropped(q: EventChannel): (r: EventChannel)
    ensures !r.receiverAlive && r.buffered == [] && r.capacity == q.capacity
  {
    EventChannel([], q.capacity, false)
  }

  // ── The engine ─────────────────────────────────────────────────────

  /**
    Where the transport loop is. Besides `select!`, it waits at three points
    inside a branch: in `transport.send`, in `transport.close()`, and in the
    blocking send of `emit_disconnected`. An abort can land at any of them.
  */
  datatype Phase =
    | Spawned                              // the task exists but has not run yet
    | Selecting                            // waiting in `select!`
    | Sending(msg: ClientMessage)          // a command taken from the queue, `transport.send` not yet returned
    | Closing                              // in a shutdown branch, `transport.close()` not yet returned
    | Notifying(reason: Option<string>)    // in `emit_disconnected`: flags cleared, `Disconnected` not yet sent
    | Exited                               // the loop has returned, or its task was dropped

  /** The loop has reached `emit_disconnected`, or is gone: it takes and sends no more commands. */
  predicate Ending(p: Phase) {
    p.Notifying? || p.Exited?
  }

  /** The loop has not entered a shutdown branch yet, so it may still close the transport. */
  predicate CanClose(p: Phase) {
    p.Spawned? || p.Selecting? || p.Sending?
  }

  /**
    Everything the handle and the loop hold: the shared state, the commands
    queued and not yet taken by the loop, the event channel, where the loop
    is, the JSON texts the transport accepted (as trees), how often the
    transport was asked to close, the handle's `shutdown_tx` and `task` (both
    `Option`s that `shutdown` takes), and whether the handle, and with it
    `cmd_tx`, still exists.
  */
  datatype Machine = Machine(
    state: SharedState,
    commands: seq<ClientMessage>,
    events: EventChannel,
    phase: Phase,
    sent: seq<Value>,
    closeCalls: nat,
    shutdownTx: bool,
    task: bool,
    handleAlive: bool)

  /** The commands the loop has not finished sending: the one in flight, then the queue. */
  function Pending(m: Machine): seq<ClientMessage> {
    if m.phase.Sending? then [m.phase.msg] + m.commands else m.commands
  }

  /**
    What the engine keeps true, whatever the inputs. The channel never holds
    more than its capacity. While the handle exists, `connected` says that the
    loop has not reached `emit_disconnected`, and a loop that has not exited
    still has its task held; once the handle is dropped, its task and
    `shutdown_tx` are gone.
  */
  ghost predicate Inv(m: Machine) {
    && RoomPaired(m.state)
    && m.events.capacity >= 1
    && |m.events.buffered| <= m.events.capacity
    && (m.handleAlive ==> (m.state.connected <==> !Ending(m.phase)))
    && (m.handleAlive && !m.phase.Exited? ==> m.task)
    && (!m.handleAlive ==> !m.task && !m.shutdownTx)
  }

  /** The `Authenticate` that `start` builds from the configuration. */
  function AuthenticateFor(config: Config): (msg: ClientMessage)
    ensures msg.Authenticate? && msg.appId == config.appId && msg.sdkVersion == config.sdkVersion
    ensures msg.platform == config.platform && msg.gameDataFormat == config.gameDataFormat
  {
    Authenticate(config.appId, config.sdkVersion, config.platform, config.gameDataFormat)
  }

  /**
    `start`: fresh shared state, an empty event channel, the `Authenticate`
    queued as the first command, and the loop's task spawned but not yet run.
  */
  function Started(config: Config): Machine {
    var capacity := ClampCapacity(config.eventChannelCapacity);
    Machine(NewSharedState(), [AuthenticateFor(config)], EventChannel([], capacity, true),
            Spawned, [], 0, true, true, true)
  }

  /** After `start`, `Authenticate` heads the command queue and the channel is still empty. */
  lemma StartQueuesAuthenticate(config: Config)
    ensures Inv(Started(config))
    ensures Started(config).phase.Spawned? && Started(config).events.buffered == []
    ensures Started(config).events.capacity == ClampCapacity(config.eventChannelCapacity)
    ensures Started(config).commands == [AuthenticateFor(config)]
    ensures Started(config).state == NewSharedState() && Started(config).sent == []
  {
  }

  /** `send`: refused while disconnected or once the loop, and with it the command receiver, is gone; queued at the back otherwise. */
  function SendOutcome(m: Machine): Option<SignalFishError> {
    if !m.state.connected || m.phase.Exited? then Some(NotConnected) else None
  }

  function AfterSend(m: Machine, msg: ClientMessage): Machine {
    if SendOutcome(m).None? then m.(commands := m.commands + [msg]) else m
  }

  /** A refused `send` changes nothing; an accepted one only appends its message to the queue. */
  lemma SendQueuesAtBack(m: Machine, msg: ClientMessage)
    requires Inv(m) && m.handleAlive
    ensures SendOutcome(m) == Some(NotConnected) <==> !m.state.connected
    ensures SendOutcome(m).Some? ==> AfterSend(m, msg) == m
    ensures SendOutcome(m).None? ==> AfterSend(m, msg).commands == m.commands + [msg]
    ensures AfterSend(m, msg).(commands := m.commands) == m
    ensures Inv(AfterSend(m, msg))
  {
  }

  const SHUT_DOWN_REASON := "client shut down"

  /** What `recv` on the transport produced. */
  datatype Received =
    | Text(message: Option<ServerMessage>)   // a text frame, as `ReadFrame` reads it
    | Failed(error: SignalFishError)
    | ClosedCleanly

  /**
    A text frame read as a server message: `None` when it is not JSON (`json`
    is `None`) or when the JSON is not a server message.
  */
  function ReadFrame(json: Option<Value>): (r: Option<ServerMessage>)
    ensures json.None? ==> r.None?
  {
    if json.None? then None
    else
      match ServerCodec.Decode(json.value)
      case Err(_) => None
      case Ok(msg) => Some(msg)
  }

  /** A frame holding a message as the server writes it is read back as that message. */
  lemma ReadFrameOfEncode(msg: ServerMessage)
    ensures ReadFrame(Some(ServerCodec.Encode(msg))) == Some(msg)
  {
    ServerCodec.RoundTrip(msg);
  }

  /**
    What happens next: the task runs for the first time, a branch of the
    loop's `select!` fires, an await inside a branch returns, the task is
    cancelled where it waits, or the event receiver, which runs beside the
    loop, acts. Any ready input may come; the model does not choose among them.
  */
  datatype Input =
    | Poll                                          // the task runs for the first time
    | NextCommand                                   // branch 1 takes a queued command
    | SendDone(sendError: Option<SignalFishError>)  // `transport.send` returns
    | CommandsClosed                                // branch 1 finds every command sender gone: the handle was dropped
    | ShutdownSignal                                // branch 2: `shutdown_tx` was sent or dropped
    | CloseDone                                     // `transport.close()` returns
    | Incoming(received: Received)                  // branch 3
    | Delivery                                      // the blocking send of `Disconnected` returns
    | Cancelled                                     // the task is aborted where it waits
    | EventTaken                                    // the receiver takes its oldest event
    | ReceiverGone                                  // the receiver is dropped

  /** The inputs that are the loop's own, as opposed to the receiver's. */
  predicate LoopInput(i: Input) {
    !i.EventTaken? && !i.ReceiverGone?
  }

  /** When each input can come. */
  predicate Ready(m: Machine, i: Input) {
    match i
    case Poll => m.phase.Spawned?
    case NextCommand => m.phase.Selecting? && m.commands != []
    case SendDone(_) => m.phase.Sending?
    case CommandsClosed => m.phase.Selecting? && m.commands == [] && !m.handleAlive
    case ShutdownSignal => m.phase.Selecting? && !m.shutdownTx
    case CloseDone => m.phase.Closing?
    case Incoming(_) => m.phase.Selecting?
    case Delivery => m.phase.Notifying? && SendCompletes(m.events)
    case Cancelled => !m.phase.Exited? && !m.task
    case EventTaken => true
    case ReceiverGone => true
  }

  /** `emit_disconnected` up to its blocking send: both flags drop at once. */
  function Notified(m: Machine, reason: Option<string>): Machine {
    m.(state := Disconnect(m.state), phase := Notifying(reason))
  }

  /** One step of the engine. */
  function Next(m: Machine, i: Input): Machine {
    if !Ready(m, i) then m
    else
      match i
      case Poll => m.(events := TrySend(m.events, Connected), phase := Selecting)
      case NextCommand => m.(commands := m.commands[1..], phase := Sending(m.commands[0]))
      case SendDone(sendError) =>
        if sendError.Some? then Notified(m, Some(SEND_LEAD + Display(sendError.value)))
        else m.(sent := m.sent + [ClientCodec.Encode(m.phase.msg)], phase := Selecting)
      case CommandsClosed => m.(closeCalls := m.closeCalls + 1, phase := Closing)
      case ShutdownSignal => m.(closeCalls := m.closeCalls + 1, phase := Closing)
      case CloseDone => Notified(m, Some(SHUT_DOWN_REASON))
      case Incoming(Text(message)) =>
        if message.None? then m
        else m.(state := UpdatedState(m.state, message.value), events := TrySend(m.events, FromServer(message.value)))
      case Incoming(Failed(e)) => Notified(m, Some(RECEIVE_LEAD + Display(e)))
      case Incoming(ClosedCleanly) => Notified(m, None)
      case Delivery => m.(events := SendAndWait(m.events, Event.Disconnected(m.phase.reason)), phase := Exited)
      case Cancelled => m.(phase := Exited)
      case EventTaken => m.(events := Recv(m.events).0)
      case ReceiverGone => m.(events := ReceiverDropped(m.events))
  }

  /** The inputs that set the loop on its way out: a failed send or receive, the server closing, or a shutdown branch. */
  predicate Stops(i: Input) {
    match i
    case SendDone(sendError) => sendError.Some?
    case CommandsClosed => true
    case ShutdownSignal => true
    case Incoming(r) => !r.Text?
    case _ => false
  }

  /** The two shutdown branches, which close the transport before `emit_disconnected`. */
  predicate Closes(i: Input) {
    i.CommandsClosed? || i.ShutdownSignal?
  }

  /** The `Disconnected` reason each way out gives. */
  function StopReason(i: Input): Option<string>
    requires Stops(i)
  {
    match i
    case SendDone(sendError) => Some(SEND_LEAD + Display(sendError.value))
    case CommandsClosed => Some(SHUT_DOWN_REASON)
    case ShutdownSignal => Some(SHUT_DOWN_REASON)
    case Incoming(Failed(e)) => Some(RECEIVE_LEAD + Display(e))
    case Incoming(ClosedCleanly) => None
  }

  /** The reason a loop on its way out will report. */
  function EndReason(p: Phase): Option<string> {
    if p.Notifying? then p.reason else Some(SHUT_DOWN_REASON)
  }

  /** The receiver acting on the channel keeps the invariant, as long as the capacity stays and it holds no more. */
  lemma ChannelKeepsInv(m: Machine, q: EventChannel)
    requires Inv(m) && q.capacity == m.events.capacity && |q.buffered| <= q.capacity
    ensures Inv(m.(events := q))
  {
  }

  /** The engine's invariant holds after every step. */
  lemma NextKeepsInv(m: Machine, i: Input)
    requires Inv(m)
    ensures Inv(Next(m, i))
  {
  }

  /**
    The task's first act is `emit_event(Connected)` into the still empty
    channel; then it enters `select!`.
  */
  lemma FirstPollEmitsConnected(config: Config)
    ensures var r := Next(Started(config), Poll);
      && r.phase.Selecting? && r.events.buffered == [Connected]
      && r.(events := Started(config).events, phase := Spawned) == Started(config)
  {
  }

  /** Once the loop has exited, none of its inputs changes anything; only the receiver still acts on the channel. */
  lemma StoppedLoopIgnoresInput(m: Machine, i: Input)
    requires m.phase.Exited?
    ensures LoopInput(i) ==> Next(m, i) == m
    ensures Next(m, i) == m.(events := Next(m, i).events)
  {
  }

  /**
    A step that sets the loop on its way out. The shutdown branches ask the
    transport to close and wait for it, with both flags still up; the others
    enter `emit_disconnected` at once: both flags drop, the room fields stay,
    and the loop waits to send `Disconnected` with their reason.
  */
  lemma StoppingTurn(m: Machine, i: Input)
    requires Ready(m, i) && Stops(i)
    ensures var r := Next(m, i);
      && r.sent == m.sent && r.events == m.events && r.commands == m.commands
      && (Closes(i) ==> r.phase.Closing? && r.closeCalls == m.closeCalls + 1 && r.state == m.state)
      && (!Closes(i) ==> r.phase == Notifying(StopReason(i)) && r.closeCalls == m.closeCalls
                         && r.state == Disconnect(m.state))
  {
  }

  /** When `close` returns, the shutdown branch enters `emit_disconnected` with "client shut down". */
  lemma CloseDoneTurn(m: Machine)
    requires Ready(m, CloseDone)
    ensures var r := Next(m, CloseDone);
      && r.phase == Notifying(Some(SHUT_DOWN_REASON)) && r.state == Disconnect(m.state)
      && r.closeCalls == m.closeCalls && r.events == m.events && r.sent == m.sent && r.commands == m.commands
  {
  }

  /**
    The blocking send of `Disconnected` returns only when there is room or the
    receiver is gone; it delivers the event unless the receiver is gone, and
    the loop breaks.
  */
  lemma DeliveryTurn(m: Machine)
    requires Inv(m)
    ensures Ready(m, Delivery) <==> m.phase.Notifying? && (!m.events.receiverAlive || |m.events.buffered| < m.events.capacity)
    ensures Ready(m, Delivery) ==>
      var r := Next(m, Delivery);
      && r.phase.Exited? && r.state == m.state && r.closeCalls == m.closeCalls
      && r.events.buffered == m.events.buffered + (if m.events.receiverAlive then [Event.Disconnected(m.phase.reason)] else [])
      && |r.events.buffered| <= r.events.capacity
  {
  }

  /**
    A cancelled loop is dropped where it waits: it neither closes the
    transport nor emits `Disconnected`, and leaves the shared state, flags
    included, as it was.
  */
  lemma CancelledTurn(m: Machine)
    requires Ready(m, Cancelled)
    ensures var r := Next(m, Cancelled);
      && r.phase.Exited? && r.state == m.state && r.events == m.events
      && r.closeCalls == m.closeCalls && r.sent == m.sent && r.commands == m.commands
    ensures Emitted(m, Cancelled) == []
  {
  }

  /** The steps that keep the loop going. */
  predicate Continues(i: Input) {
    i.Poll? || i.NextCommand? || (i.SendDone? && i.sendError.None?) || (i.Incoming? && i.received.Text?)
  }

  /** A step that keeps the loop going closes nothing, keeps `connected` and never emits `Disconnected`. */
  lemma ContinuingTurn(m: Machine, i: Input)
    requires Ready(m, i) && Continues(i)
    ensures var r := Next(m, i);
      && (r.phase.Selecting? || r.phase.Sending?) && r.closeCalls == m.closeCalls
      && r.state.connected == m.state.connected
      && r.events.buffered == m.events.buffered + Emitted(m, i)
      && forall k :: 0 <= k < |Emitted(m, i)| ==> !Emitted(m, i)[k].Disconnected?
  {
  }

  /** A frame that is not a server message is skipped: the loop goes on and nothing changes. */
  lemma UnreadableFrameIgnored(m: Machine, json: Option<Value>)
    requires json.Some? ==> ServerCodec.Decode(json.value).Err?
    ensures Next(m, Incoming(Text(ReadFrame(json)))) == m
  {
  }

  /** A server message updates the shared state and is offered to the event channel. */
  lemma ServerMessageTurn(m: Machine, msg: ServerMessage)
    requires m.phase.Selecting?
    ensures var r := Next(m, Incoming(Text(ReadFrame(Some(ServerCodec.Encode(msg))))));
      r == m.(state := UpdatedState(m.state, msg), events := TrySend(m.events, FromServer(msg)))
  {
    ReadFrameOfEncode(msg);
  }

  /**
    The command at the front of the queue is the one the transport is given
    next; once its send returns, the loop is back in `select!` with nothing
    else changed.
  */
  lemma CommandTurn(m: Machine)
    requires m.phase.Selecting? && m.commands != []
    ensures Run(m, [NextCommand, SendDone(None)])
            == m.(commands := m.commands[1..], sent := m.sent + [ClientCodec.Encode(m.commands[0])])
  {
    var turns := [NextCommand, SendDone(None)];
    assert turns[1..] == [SendDone(None)] && turns[1..][1..] == [];
  }

  // ── Runs of several steps ──────────────────────────────────────────

  /** The engine after `inputs`, one after the other. */
  function Run(m: Machine, inputs: seq<Input>): Machine
    decreases |inputs|
  {
    if inputs == [] then m else Run(Next(m, inputs[0]), inputs[1..])
  }

  /** Running `a` and then `b` is running `a + b`. */
  lemma {:induction false} RunAppend(m: Machine, a: seq<Input>, b: seq<Input>)
    ensures Run(m, a + b) == Run(Run(m, a), b)
    decreases |a|
  {
    if a == [] {
      assert a + b == b;
    } else {
      assert (a + b)[0] == a[0] && (a + b)[1..] == a[1..] + b;
      RunAppend(Next(m, a[0]), a[1..], b);
    }
  }

  /** The loop never touches what the handle holds. */
  lemma {:induction false} RunKeepsHandle(m: Machine, inputs: seq<Input>)
    ensures var r := Run(m, inputs);
      r.handleAlive == m.handleAlive && r.shutdownTx == m.shutdownTx && r.task == m.task
    decreases |inputs|
  {
    if inputs != [] {
      RunKeepsHandle(Next(m, inputs[0]), inputs[1..]);
    }
  }

  /** A run that starts with `i` is the step `i` followed by the rest. */
  lemma RunCons(m: Machine, i: Input, rest: seq<Input>)
    ensures Run(m, [i] + rest) == Run(Next(m, i), rest)
    ensures RunEmitted(m, [i] + rest) == Emitted(m, i) + RunEmitted(Next(m, i), rest)
  {
    assert ([i] + rest)[0] == i && ([i] + rest)[1..] == rest;
  }

  /** A run from step `k` on is step `k` followed by the run from step `k + 1` on. */
  lemma RunStep(m: Machine, inputs: seq<Input>, k: nat)
    requires k < |inputs|
    ensures Run(m, inputs[k..]) == Run(Next(m, inputs[k]), inputs[k + 1..])
    ensures RunEmitted(m, inputs[k..]) == Emitted(m, inputs[k]) + RunEmitted(Next(m, inputs[k]), inputs[k + 1..])
  {
    assert inputs[k..][0] == inputs[k] && inputs[k..][1..] == inputs[k + 1..];
  }

  /** The invariant holds after any run. */
  lemma {:induction false} RunKeepsInv(m: Machine, inputs: seq<Input>)
    requires Inv(m)
    ensures Inv(Run(m, inputs))
    decreases |inputs|
  {
    if inputs != [] {
      NextKeepsInv(m, inputs[0]);
      RunKeepsInv(Next(m, inputs[0]), inputs[1..]);
    }
  }

  /** An exited loop stays as it is, whatever comes, and emits nothing; only the receiver drains the channel. */
  lemma {:induction false} RunStoppedIgnores(m: Machine, inputs: seq<Input>)
    requires m.phase.Exited?
    ensures Run(m, inputs) == m.(events := Run(m, inputs).events)
    ensures RunEmitted(m, inputs) == []
    decreases |inputs|
  {
    if inputs != [] {
      StoppedLoopIgnoresInput(m, inputs[0]);
      RunStoppedIgnores(Next(m, inputs[0]), inputs[1..]);
    }
  }

  /** A step of a loop on its way out: it takes, sends and closes nothing more, and emits at most its `Disconnected`. */
  lemma PastDecisionStep(m: Machine, i: Input)
    requires !CanClose(m.phase)
    ensures var r := Next(m, i);
      && !CanClose(r.phase) && (Ending(m.phase) ==> Ending(r.phase))
      && (!r.phase.Exited? ==> EndReason(r.phase) == EndReason(m.phase))
      && r.commands == m.commands && r.sent == m.sent && r.closeCalls == m.closeCalls
      && r.state.playerId == m.state.playerId && r.state.roomId == m.state.roomId
      && r.state.roomCode == m.state.roomCode
      && (r.state.authenticated ==> m.state.authenticated)
      && (m.phase.Exited? ==> r.phase.Exited? && Emitted(m, i) == [])
      && (Emitted(m, i) == [] || (Emitted(m, i) == [Event.Disconnected(EndReason(m.phase))] && r.phase.Exited?))
  {
  }

  /**
    Once a loop is on its way out, no run makes it take, send or close
    anything more, or raise `authenticated`; all it can still emit is one
    `Disconnected` with the reason it set out with.
  */
  lemma {:induction false} RunPastDecision(m: Machine, inputs: seq<Input>)
    requires !CanClose(m.phase)
    ensures var r := Run(m, inputs);
      && !CanClose(r.phase) && (Ending(m.phase) ==> Ending(r.phase))
      && r.commands == m.commands && r.sent == m.sent && r.closeCalls == m.closeCalls
      && r.state.playerId == m.state.playerId && r.state.roomId == m.state.roomId
      && r.state.roomCode == m.state.roomCode
      && (r.state.authenticated ==> m.state.authenticated)
    ensures m.phase.Exited? ==> RunEmitted(m, inputs) == []
    ensures RunEmitted(m, inputs) == [] || RunEmitted(m, inputs) == [Event.Disconnected(EndReason(m.phase))]
    decreases |inputs|
  {
    if inputs != [] {
      var x := Next(m, inputs[0]);
      PastDecisionStep(m, inputs[0]);
      RunPastDecision(x, inputs[1..]);
      if Emitted(m, inputs[0]) != [] {
        assert RunEmitted(x, inputs[1..]) == [];
      }
    }
  }

  /** Over a run the transport is closed at most once, and only by a loop that entered a shutdown branch. */
  lemma {:induction false} RunClosesAtMostOnce(m: Machine, inputs: seq<Input>)
    ensures Run(m, inputs).closeCalls <= m.closeCalls + (if CanClose(m.phase) then 1 else 0)
    ensures CanClose(Run(m, inputs).phase) ==> CanClose(m.phase) && Run(m, inputs).closeCalls == m.closeCalls
    decreases |inputs|
  {
    if inputs != [] {
      var x := Next(m, inputs[0]);
      if CanClose(x.phase) {
        RunClosesAtMostOnce(x, inputs[1..]);
      } else {
        RunPastDecision(x, inputs[1..]);
      }
    }
  }

  /** The JSON texts of `msgs`, in order. */
  function EncodeAll(msgs: seq<ClientMessage>): (r: seq<Value>)
    ensures |r| == |msgs|
  {
    if msgs == [] then [] else [ClientCodec.Encode(msgs[0])] + EncodeAll(msgs[1..])
  }

  /** `n` commands taken from the queue, each followed by a send that succeeds. */
  function CommandTurns(n: nat): seq<Input> {
    if n == 0 then [] else [NextCommand, SendDone(None)] + CommandTurns(n - 1)
  }

  /** `n` successful command sends hand the first `n` queued commands to the transport, in queue order. */
  lemma {:induction false} CommandsLeaveInOrder(m: Machine, n: nat)
    requires m.phase.Selecting? && n <= |m.commands|
    ensures var r := Run(m, CommandTurns(n));
      && r.sent == m.sent + EncodeAll(m.commands[..n]) && r.commands == m.commands[n..]
      && r.phase.Selecting? && r.state == m.state && r.events == m.events
    decreases n
  {
    if n > 0 {
      var m' := m.(commands := m.commands[1..], sent := m.sent + [ClientCodec.Encode(m.commands[0])]);
      CommandTurn(m);
      RunAppend(m, [NextCommand, SendDone(None)], CommandTurns(n - 1));
      CommandsLeaveInOrder(m', n - 1);
      assert m.commands[..n][1..] == m'.commands[..n - 1];
      assert m'.commands[n - 1..] == m.commands[n..];
      Reassociate(m.sent, [ClientCodec.Encode(m.commands[0])], EncodeAll(m'.commands[..n - 1]));
    } else {
      assert m.commands[..0] == [] && m.commands[0..] == m.commands;
      assert m.sent + EncodeAll([]) == m.sent;
    }
  }

  /**
    From `m` to `r` the loop finished commands from the front of its pending
    ones only, the transport accepted the first of them in order, and at most
    one more was lost, to a send that failed or was cancelled, after which
    the loop takes no more.
  */
  ghost predicate Drained(m: Machine, r: Machine) {
    DrainedQueue(Pending(m), m.sent, Pending(r), r.sent, Ending(r.phase))
  }

  /** `Drained` on the pending commands and the transport's record alone. */
  ghost predicate DrainedQueue(q: seq<ClientMessage>, sent: seq<Value>, q': seq<ClientMessage>, sent': seq<Value>,
                               ended': bool) {
    && |q'| <= |q| && |sent| <= |sent'|
    && var taken := |q| - |q'|;
       var handed := |sent'| - |sent|;
       && handed <= taken <= handed + 1
       && q' == q[taken..]
       && sent' == sent + EncodeAll(q[..handed])
       && (taken == handed + 1 ==> ended')
  }

  lemma DrainedKeep(q: seq<ClientMessage>, s: seq<Value>, ended: bool)
    ensures DrainedQueue(q, s, q, s, ended)
  {
    assert q[0..] == q;
    assert q[..0] == [];
    assert s + [] == s;
  }

  lemma DrainedOne(q: seq<ClientMessage>, s: seq<Value>, ended: bool)
    requires q != []
    ensures DrainedQueue(q, s, q[1..], s + [ClientCodec.Encode(q[0])], ended)
  {
    assert q[..1] == [q[0]];
  }

  lemma DrainedLost(q: seq<ClientMessage>, s: seq<Value>)
    requires q != []
    ensures DrainedQueue(q, s, q[1..], s, true)
  {
    assert q[..0] == [];
    assert s + [] == s;
  }

  /**
    What a step does to the pending commands: a send that returns finishes the
    front one, handed to the transport or lost with the loop on its way out;
    a cancelled send loses it; every other step keeps them.
  */
  lemma NextPending(m: Machine, i: Input)
    ensures var r := Next(m, i);
      && (Ready(m, i) && (i.SendDone? || (i.Cancelled? && m.phase.Sending?)) ==>
            && Pending(m) != [] && Pending(r) == Pending(m)[1..]
            && r.sent == m.sent + (if i.SendDone? && i.sendError.None? then [ClientCodec.Encode(Pending(m)[0])] else [])
            && (!(i.SendDone? && i.sendError.None?) ==> Ending(r.phase)))
      && (!(Ready(m, i) && (i.SendDone? || (i.Cancelled? && m.phase.Sending?))) ==>
            Pending(r) == Pending(m) && r.sent == m.sent)
  {
    var r := Next(m, i);
    if Ready(m, i) && i.NextCommand? {
      assert Pending(r) == [m.commands[0]] + m.commands[1..] == m.commands;
    } else if Ready(m, i) && i.SendDone? && i.sendError.Some? {
      assert m.sent + [] == m.sent;
    } else if Ready(m, i) && i.Cancelled? && m.phase.Sending? {
      assert m.sent + [] == m.sent;
    }
  }

  /** A step finishes at most the front pending command: sent, or lost as the loop sets out to stop. */
  lemma DrainedStep(m: Machine, i: Input)
    ensures Drained(m, Next(m, i))
  {
    var r := Next(m, i);
    NextPending(m, i);
    if Ready(m, i) && (i.SendDone? || (i.Cancelled? && m.phase.Sending?)) {
      if i.SendDone? && i.sendError.None? {
        DrainedOne(Pending(m), m.sent, Ending(r.phase));
      } else {
        DrainedLost(Pending(m), m.sent);
      }
    } else {
      DrainedKeep(Pending(m), m.sent, Ending(r.phase));
    }
  }

  lemma {:induction false} EncodeAllAppend(a: seq<ClientMessage>, b: seq<ClientMessage>)
    ensures EncodeAll(a + b) == EncodeAll(a) + EncodeAll(b)
  {
    if a == [] {
      assert a + b == b;
    } else {
      assert (a + b)[1..] == a[1..] + b;
      EncodeAllAppend(a[1..], b);
    }
  }

  lemma DrainedTrans(m: Machine, x: Machine, y: Machine)
    requires Drained(m, x) && Drained(x, y)
    requires Ending(x.phase) ==> Pending(y) == Pending(x) && y.sent == x.sent && Ending(y.phase)
    ensures Drained(m, y)
  {
    if !Ending(x.phase) {
      QueueTrans(Pending(m), m.sent, Pending(x), x.sent, Pending(y), y.sent, Ending(y.phase));
    }
  }

  lemma QueueTrans(q: seq<ClientMessage>, s: seq<Value>, q1: seq<ClientMessage>, s1: seq<Value>,
                   q2: seq<ClientMessage>, s2: seq<Value>, ended2: bool)
    requires DrainedQueue(q, s, q1, s1, false) && DrainedQueue(q1, s1, q2, s2, ended2)
    ensures DrainedQueue(q, s, q2, s2, ended2)
  {
    var t1, h1 := |q| - |q1|, |s1| - |s|;
    var t2, h2 := |q1| - |q2|, |s2| - |s1|;
    assert q2 == q[t1 + t2..];
    assert q[..h1 + h2] == q[..h1] + q1[..h2];
    SentTrans(s, s1, s2, q[..h1], q1[..h2]);
  }

  lemma SentTrans(s: seq<Value>, s1: seq<Value>, s2: seq<Value>, a: seq<ClientMessage>, b: seq<ClientMessage>)
    requires s1 == s + EncodeAll(a) && s2 == s1 + EncodeAll(b)
    ensures s2 == s + EncodeAll(a + b)
  {
    EncodeAllAppend(a, b);
    Reassociate(s, EncodeAll(a), EncodeAll(b));
  }

  /** Any run drains the pending commands from the front, in order. */
  lemma {:induction false} RunDrainsFront(m: Machine, inputs: seq<Input>)
    ensures Drained(m, Run(m, inputs))
    decreases |inputs|
  {
    if inputs == [] {
      DrainedKeep(Pending(m), m.sent, Ending(m.phase));
    } else {
      var x := Next(m, inputs[0]);
      DrainedStep(m, inputs[0]);
      RunDrainsFront(x, inputs[1..]);
      if Ending(x.phase) {
        RunPastDecision(x, inputs[1..]);
      }
      DrainedTrans(m, x, Run(x, inputs[1..]));
    }
  }

  // ── What the receiver sees ─────────────────────────────────────────

  /**
    `h` is every event the channel ever accepted, oldest first; the buffered
    events are its tail. Nothing comes before the task first runs; after
    that, unless the receiver was already gone, `Connected` is first, and it
    comes only once. No `Disconnected` comes before the loop exits, and after
    that at most one, as the last event.
  */
  ghost predicate History(m: Machine, h: seq<Event>) {
    HistoryOf(m.phase, m.events, h)
  }

  /** `History` on the loop's phase and the channel alone. */
  ghost predicate HistoryOf(p: Phase, q: EventChannel, h: seq<Event>) {
    && (p.Spawned? ==> h == [])
    && (q.receiverAlive && !p.Spawned? && !p.Exited? ==> h != [])
    && (h != [] ==> h[0] == Connected)
    && (forall k :: 0 < k < |h| ==> !h[k].Connected?)
    && |q.buffered| <= |h| && h[|h| - |q.buffered|..] == q.buffered
    && (!p.Exited? ==> forall k :: 0 <= k < |h| ==> !h[k].Disconnected?)
    && (p.Exited? ==> forall k :: 0 <= k < |h| - 1 ==> !h[k].Disconnected?)
  }

  /** A loop that is dropped where it waits leaves a history of the exited shape. */
  lemma HistoryAbort(p: Phase, q: EventChannel, h: seq<Event>)
    requires HistoryOf(p, q, h)
    ensures HistoryOf(Exited, q, h)
  {
  }

  /** The `Disconnected` a loop waiting in `emit_disconnected` sends, if the receiver is still there. */
  function Farewell(m: Machine): seq<Event> {
    if m.phase.Notifying? && m.events.receiverAlive then [Event.Disconnected(m.phase.reason)] else []
  }

  /**
    The events a step puts on the channel: `Connected` or a server message's
    event if there is room, or the final `Disconnected`.
  */
  function Emitted(m: Machine, i: Input): (r: seq<Event>)
    ensures |r| <= 1
  {
    if !Ready(m, i) then []
    else
      match i
      case Poll => if Accepts(m.events) then [Connected] else []
      case Incoming(Text(message)) =>
        if message.Some? && Accepts(m.events) then [FromServer(message.value)] else []
      case Delivery => Farewell(m)
      case _ => []
  }

  /**
    A step of the loop appends exactly the events `Emitted` names; `Connected`
    comes only from the first run of the task, which emits it whenever the
    channel takes it, and `Disconnected` only as the loop exits.
  */
  lemma NextAppendsEmitted(m: Machine, i: Input)
    requires Inv(m) && LoopInput(i)
    ensures var r, e := Next(m, i), Emitted(m, i);
      && r.events.buffered == m.events.buffered + e && r.events.receiverAlive == m.events.receiverAlive
      && (e != [] ==> m.events.receiverAlive && (e[0].Connected? <==> m.phase.Spawned?))
      && (r.phase.Spawned? ==> m.phase.Spawned? && e == [])
      && (m.phase.Exited? ==> r.phase.Exited? && e == [])
      && (!r.phase.Exited? ==> forall k :: 0 <= k < |e| ==> !e[k].Disconnected?)
      && (!m.phase.Exited? && r.phase.Exited? ==> e == (if i.Delivery? then Farewell(m) else []))
      && (m.phase.Spawned? && !r.phase.Spawned? && !r.phase.Exited? ==> e == (if Accepts(m.events) then [Connected] else []))
  {
    if !Ready(m, i) || !(i.Poll? || i.Delivery? || (i.Incoming? && i.received.Text?)) {
      assert m.events.buffered + [] == m.events.buffered;
    }
  }

  /** Appending one step's events keeps the history's shape. */
  lemma ExtendHistory(p: Phase, q: EventChannel, p': Phase, q': EventChannel, h: seq<Event>, e: seq<Event>)
    requires HistoryOf(p, q, h) && q.capacity >= 1 && |e| <= 1
    requires q'.buffered == q.buffered + e && q'.receiverAlive == q.receiverAlive
    requires e != [] ==> q.receiverAlive && (e[0].Connected? <==> p.Spawned?)
    requires p'.Spawned? ==> p.Spawned? && e == []
    requires p.Exited? ==> p'.Exited? && e == []
    requires !p'.Exited? ==> forall k :: 0 <= k < |e| ==> !e[k].Disconnected?
    requires p.Spawned? && !p'.Spawned? && !p'.Exited? ==> e == (if Accepts(q) then [Connected] else [])
    ensures HistoryOf(p', q', h + e)
  {
    var h' := h + e;
    assert h'[|h'| - |q'.buffered|..] == h[|h| - |q.buffered|..] + e;
    if p.Spawned? {
      assert h == [] && q.buffered == [];
    }
  }

  /** The receiver taking its oldest event keeps the history: what it takes was accepted before. */
  lemma RecvKeepsHistory(p: Phase, q: EventChannel, h: seq<Event>)
    requires HistoryOf(p, q, h)
    ensures HistoryOf(p, Recv(q).0, h)
  {
    if q.buffered != [] {
      assert h[|h| - |Recv(q).0.buffered|..] == h[|h| - |q.buffered|..][1..];
    }
  }

  /** Dropping the receiver keeps the history: no more events come to anyone. */
  lemma DropKeepsHistory(p: Phase, q: EventChannel, h: seq<Event>)
    requires HistoryOf(p, q, h)
    ensures HistoryOf(p, ReceiverDropped(q), h)
  {
    assert h[|h| - 0..] == [];
  }

  /** A step of the loop keeps the history's shape, growing it by what the step emits. */
  lemma LoopKeepsHistory(m: Machine, i: Input, h: seq<Event>)
    requires Inv(m) && History(m, h) && LoopInput(i)
    ensures History(Next(m, i), h + Emitted(m, i))
  {
    NextAppendsEmitted(m, i);
    ExtendHistory(m.phase, m.events, Next(m, i).phase, Next(m, i).events, h, Emitted(m, i));
  }

  /** The history keeps its shape across every step, growing by what the step emits. */
  lemma NextKeepsHistory(m: Machine, i: Input, h: seq<Event>)
    requires Inv(m) && History(m, h)
    ensures History(Next(m, i), h + Emitted(m, i))
  {
    if i.EventTaken? {
      assert Next(m, i) == m.(events := Recv(m.events).0) && Emitted(m, i) == [];
      RecvKeepsHistory(m.phase, m.events, h);
      assert h + [] == h;
    } else if i.ReceiverGone? {
      assert Next(m, i) == m.(events := ReceiverDropped(m.events)) && Emitted(m, i) == [];
      DropKeepsHistory(m.phase, m.events, h);
      assert h + [] == h;
    } else {
      LoopKeepsHistory(m, i, h);
    }
  }

  /** The events a run puts on the channel, step by step. */
  function RunEmitted(m: Machine, inputs: seq<Input>): seq<Event>
    decreases |inputs|
  {
    if inputs == [] then [] else Emitted(m, inputs[0]) + RunEmitted(Next(m, inputs[0]), inputs[1..])
  }

  /** A run keeps the history's shape, growing it by exactly what its steps emit. */
  lemma {:induction false} RunKeepsHistory(m: Machine, inputs: seq<Input>, h: seq<Event>)
    requires Inv(m) && History(m, h)
    ensures History(Run(m, inputs), h + RunEmitted(m, inputs))
    decreases |inputs|
  {
    if inputs == [] {
      assert h + [] == h;
    } else {
      var x, rest := Next(m, inputs[0]), inputs[1..];
      var e, later := Emitted(m, inputs[0]), RunEmitted(Next(m, inputs[0]), inputs[1..]);
      assert RunEmitted(m, inputs) == e + later;
      assert Run(m, inputs) == Run(x, rest);
      NextKeepsInv(m, inputs[0]);
      NextKeepsHistory(m, inputs[0], h);
      RunKeepsHistory(x, rest, h + e);
      Reassociate(h, e, later);
    }
  }

  lemma Reassociate<T>(a: seq<T>, b: seq<T>, c: seq<T>)
    ensures (a + b) + c == a + (b + c)
  {
  }

  /** The invariant, the history and the order of commands all survive a step. */
  lemma StepKeepsValid(m: Machine, i: Input, h: seq<Event>, auth: ClientMessage)
    requires Inv(m) && History(m, h) && AuthFirst(m, auth)
    ensures Inv(Next(m, i)) && History(Next(m, i), h + Emitted(m, i)) && AuthFirst(Next(m, i), auth)
    ensures Next(m, i).handleAlive == m.handleAlive
  {
    NextKeepsInv(m, i);
    NextKeepsHistory(m, i, h);
    NextKeepsAuthFirst(m, i, auth);
  }

  // ── Authenticate goes out first ────────────────────────────────────

  /** `auth` is the first message the transport accepted, or still heads the pending commands. */
  ghost predicate AuthFirst(m: Machine, auth: ClientMessage) {
    && (m.sent != [] ==> m.sent[0] == ClientCodec.Encode(auth))
    && (m.sent == [] && !Ending(m.phase) ==> Pending(m) != [] && Pending(m)[0] == auth)
  }

  lemma StartSendsAuthFirst(config: Config)
    ensures AuthFirst(Started(config), AuthenticateFor(config))
  {
  }

  /** Draining the pending commands from the front keeps `auth` first. */
  lemma DrainedKeepsAuthFirst(m: Machine, r: Machine, auth: ClientMessage)
    requires AuthFirst(m, auth) && Drained(m, r)
    requires Ending(m.phase) ==> r.sent == m.sent && Ending(r.phase)
    ensures AuthFirst(r, auth)
  {
    var handed := |r.sent| - |m.sent|;
    if m.sent == [] && handed > 0 {
      assert Pending(m)[..handed][0] == auth;
      assert r.sent[0] == EncodeAll(Pending(m)[..handed])[0];
    }
  }

  lemma NextKeepsAuthFirst(m: Machine, i: Input, auth: ClientMessage)
    requires AuthFirst(m, auth)
    ensures AuthFirst(Next(m, i), auth)
  {
    DrainedStep(m, i);
    if Ending(m.phase) {
      PastDecisionStep(m, i);
    }
    DrainedKeepsAuthFirst(m, Next(m, i), auth);
  }

  lemma {:induction false} RunKeepsAuthFirst(m: Machine, inputs: seq<Input>, auth: ClientMessage)
    requires AuthFirst(m, auth)
    ensures AuthFirst(Run(m, inputs), auth)
    decreases |inputs|
  {
    if inputs != [] {
      NextKeepsAuthFirst(m, inputs[0], auth);
      RunKeepsAuthFirst(Next(m, inputs[0]), inputs[1..], auth);
    }
  }

  lemma SendKeepsAuthFirst(m: Machine, msg: ClientMessage, auth: ClientMessage)
    requires AuthFirst(m, auth)
    ensures AuthFirst(AfterSend(m, msg), auth)
  {
  }

  /** The first message the server reads from this client is the `Authenticate` built from the configuration. */
  lemma ServerReadsAuthFirst(m: Machine, auth: ClientMessage)
    requires AuthFirst(m, auth) && m.sent != []
    ensures ClientCodec.Decode(m.sent[0]) == Ok(auth)
  {
    ClientCodec.RoundTrip(auth);
  }

  // ── Shutdown ───────────────────────────────────────────────────────

  /** `shutdown_tx` taken and sent: from here on the loop's shutdown branch is ready. */
  function Signalled(m: Machine): Machine {
    m.(shutdownTx := false)
  }

  /** `task.abort()`, with the task taken: the loop is dropped wherever it waits. */
  function Aborted(m: Machine): Machine {
    m.(phase := Exited, task := false)
  }

  /**
    `shutdown`: signal the loop through `shutdown_tx` (taken, so only the first
    call signals), take the task and wait while the engine takes `turns`, the
    steps that fit in the shutdown timeout; abort the loop if it has not
    exited by then; and clear `connected`.
  */
  function ShutDown(m: Machine, turns: seq<Input>): Machine {
    var s := Signalled(m);
    var r := if s.task then Aborted(Run(s, turns)) else s;
    r.(state := r.state.(connected := false))
  }

  /** The events the loop emits while `shutdown` waits for it. */
  function ShutdownEmitted(m: Machine, turns: seq<Input>): seq<Event> {
    if m.task then RunEmitted(Signalled(m), turns) else []
  }

  /** An abort loses the command in flight, if any, and nothing else. */
  lemma DrainedAbort(m: Machine, x: Machine)
    requires Drained(m, x)
    ensures Drained(m, Aborted(x))
  {
    if x.phase.Sending? {
      assert Pending(x) == [x.phase.msg] + x.commands;
      assert Pending(Aborted(x)) == Pending(x)[1..];
    }
  }

  /**
    However the steps go, `shutdown` leaves the loop exited and the client
    disconnected, both `Option`s taken; the transport accepted only pending
    commands, from the front and in order, and was closed at most once. On a
    loop that had already exited it only clears `connected`.
  */
  lemma ShutdownStops(m: Machine, turns: seq<Input>)
    requires Inv(m) && m.handleAlive
    ensures var r := ShutDown(m, turns);
      && Inv(r) && r.phase.Exited? && !r.state.connected && !r.shutdownTx && !r.task && r.handleAlive
      && Drained(m, r)
      && r.closeCalls <= m.closeCalls + (if CanClose(m.phase) then 1 else 0)
      && (m.phase.Exited? ==>
            r == m.(events := r.events, shutdownTx := false, task := false, state := m.state.(connected := false)))
  {
    var s := Signalled(m);
    RunKeepsHandle(s, turns);
    RunKeepsInv(s, turns);
    RunDrainsFront(s, turns);
    RunClosesAtMostOnce(s, turns);
    if s.task {
      DrainedAbort(s, Run(s, turns));
    } else {
      DrainedKeep(Pending(m), m.sent, true);
    }
    if m.phase.Exited? {
      RunStoppedIgnores(s, turns);
    }
  }

  /**
    The first branch to set the loop on its way out decides how it ends. The
    shutdown branch closes the transport; a failed send or receive, or the
    server closing, may win the race instead, and then nothing is closed and
    `Disconnected` carries that reason. Either way nothing more is sent, and
    the loop emits at most that one `Disconnected`: it is lost if the timeout
    aborts the loop first.
  */
  lemma ShutdownFirstStopDecides(m: Machine, i: Input, rest: seq<Input>)
    requires Inv(m) && m.handleAlive && Ready(Signalled(m), i) && Stops(i)
    ensures var r := ShutDown(m, [i] + rest);
      && r.closeCalls == m.closeCalls + (if Closes(i) then 1 else 0)
      && r.commands == m.commands && r.sent == m.sent
      && r.state.playerId == m.state.playerId && r.state.roomId == m.state.roomId
      && r.state.roomCode == m.state.roomCode
      && (r.state.authenticated ==> Closes(i) && m.state.authenticated)
    ensures ShutdownEmitted(m, [i] + rest) == [] || ShutdownEmitted(m, [i] + rest) == [Event.Disconnected(StopReason(i))]
  {
    var s := Signalled(m);
    var turns := [i] + rest;
    assert turns[0] == i && turns[1..] == rest;
    StoppingTurn(s, i);
    RunPastDecision(Next(s, i), rest);
  }

  /**
    When the shutdown branch fires first and the blocking send returns in
    time, which it can only when the channel has room or the receiver is gone,
    the transport is closed once, both flags drop, and `Disconnected` says
    "client shut down" to a receiver that is still there.
  */
  lemma ShutdownSignalFirst(m: Machine, rest: seq<Input>)
    requires Inv(m) && m.handleAlive && m.phase.Selecting? && SendCompletes(m.events)
    ensures var r := ShutDown(m, [ShutdownSignal, CloseDone, Delivery] + rest);
      && r.closeCalls == m.closeCalls + 1 && r.sent == m.sent && r.commands == m.commands
      && !r.state.connected && !r.state.authenticated
    ensures ShutdownEmitted(m, [ShutdownSignal, CloseDone, Delivery] + rest)
            == (if m.events.receiverAlive then [Event.Disconnected(Some(SHUT_DOWN_REASON))] else [])
  {
    var s := Signalled(m);
    var x1 := Next(s, ShutdownSignal);
    var x2 := Next(x1, CloseDone);
    var x3 := Next(x2, Delivery);
    assert [ShutdownSignal, CloseDone, Delivery] + rest == [ShutdownSignal] + ([CloseDone] + ([Delivery] + rest));
    RunCons(s, ShutdownSignal, [CloseDone] + ([Delivery] + rest));
    RunCons(x1, CloseDone, [Delivery] + rest);
    RunCons(x2, Delivery, rest);
    assert x1.phase.Closing? && x1.closeCalls == m.closeCalls + 1;
    assert x2.phase == Notifying(Some(SHUT_DOWN_REASON));
    assert x3.phase.Exited?;
    RunStoppedIgnores(x3, rest);
  }

  /**
    With the channel full and nobody draining it, the shutdown branch closes
    the transport and drops both flags, but its blocking send never returns:
    the timeout aborts it, and no `Disconnected` is ever delivered although
    the receiver still exists.
  */
  lemma ShutdownFullChannelLosesDisconnected(m: Machine, rest: seq<Input>)
    requires Inv(m) && m.handleAlive && m.phase.Selecting?
    requires m.events.receiverAlive && |m.events.buffered| == m.events.capacity
    requires forall k :: 0 <= k < |rest| ==> LoopInput(rest[k])
    ensures var r := ShutDown(m, [ShutdownSignal, CloseDone] + rest);
      && r.events == m.events && r.closeCalls == m.closeCalls + 1
      && !r.state.connected && !r.state.authenticated
    ensures ShutdownEmitted(m, [ShutdownSignal, CloseDone] + rest) == []
  {
    var s := Signalled(m);
    var x1 := Next(s, ShutdownSignal);
    var x2 := Next(x1, CloseDone);
    assert [ShutdownSignal, CloseDone] + rest == [ShutdownSignal] + ([CloseDone] + rest);
    RunCons(s, ShutdownSignal, [CloseDone] + rest);
    RunCons(x1, CloseDone, rest);
    assert x2.phase == Notifying(Some(SHUT_DOWN_REASON)) && x2.task;
    RunBlocked(x2, rest);
  }

  /** A loop blocked in `emit_disconnected` on a full channel that nobody drains stays blocked. */
  lemma {:induction false} RunBlocked(m: Machine, inputs: seq<Input>)
    requires m.phase.Notifying? && m.task
    requires m.events.receiverAlive && |m.events.buffered| >= m.events.capacity
    requires forall k :: 0 <= k < |inputs| ==> LoopInput(inputs[k])
    ensures Run(m, inputs) == m && RunEmitted(m, inputs) == []
    decreases |inputs|
  {
    if inputs != [] {
      assert LoopInput(inputs[0]);
      assert Next(m, inputs[0]) == m;
      RunBlocked(m, inputs[1..]);
    }
  }

  /**
    The same with a fresh client of capacity one: once the task has emitted
    `Connected`, the channel is full, and a `shutdown` whose signal wins
    closes the transport but never delivers `Disconnected`.
  */
  lemma ShutdownLosesDisconnectedExample(config: Config)
    requires ClampCapacity(config.eventChannelCapacity) == 1
    ensures var m := Next(Started(config), Poll);
      && m.events.buffered == [Connected] && m.events.receiverAlive
      && ShutDown(m, [ShutdownSignal, CloseDone]).closeCalls == 1
      && ShutdownEmitted(m, [ShutdownSignal, CloseDone]) == []
  {
    var m := Next(Started(config), Poll);
    StartQueuesAuthenticate(config);
    NextKeepsInv(Started(config), Poll);
    ShutdownFullChannelLosesDisconnected(m, []);
    assert [ShutdownSignal, CloseDone] + [] == [ShutdownSignal, CloseDone];
  }

  /**
    A loop that has not exited when the timeout expires is aborted where it
    waits: no `Disconnected` is ever delivered, the transport is not closed by
    the abort (only by a shutdown branch the loop had entered), and
    `authenticated` stays as the loop left it.
  */
  lemma ShutdownTimesOut(m: Machine, turns: seq<Input>, h: seq<Event>)
    requires Inv(m) && m.handleAlive && History(m, h)
    requires !Run(Signalled(m), turns).phase.Exited?
    ensures var x, r := Run(Signalled(m), turns), ShutDown(m, turns);
      && r.closeCalls == x.closeCalls && r.closeCalls <= m.closeCalls + 1
      && (CanClose(x.phase) ==> r.closeCalls == m.closeCalls)
      && r.state.authenticated == x.state.authenticated
    ensures forall e :: e in h + ShutdownEmitted(m, turns) ==> !e.Disconnected?
  {
    var s := Signalled(m);
    assert m.task by {
      if !m.task {
        RunStoppedIgnores(s, turns);
      }
    }
    var x := Run(s, turns);
    RunKeepsHistory(s, turns, h);
    NoDisconnectedYet(x.phase, x.events, h + RunEmitted(s, turns));
    RunClosesAtMostOnce(s, turns);
  }

  /** Before the loop exits, no event of the history is a `Disconnected`. */
  lemma NoDisconnectedYet(p: Phase, q: EventChannel, h: seq<Event>)
    requires HistoryOf(p, q, h) && !p.Exited?
    ensures forall e :: e in h ==> !e.Disconnected?
  {
    forall e | e in h
      ensures !e.Disconnected?
    {
      var k :| 0 <= k < |h| && h[k] == e;
    }
  }

  /** A second `shutdown` changes nothing, whatever the loop would do. */
  lemma ShutdownIdempotent(m: Machine, first: seq<Input>, second: seq<Input>)
    ensures ShutDown(ShutDown(m, first), second) == ShutDown(m, first)
  {
    RunKeepsHandle(Signalled(m), first);
  }

  lemma ShutdownKeepsAuthFirst(m: Machine, turns: seq<Input>, auth: ClientMessage)
    requires AuthFirst(m, auth)
    ensures AuthFirst(ShutDown(m, turns), auth)
  {
    RunKeepsAuthFirst(Signalled(m), turns, auth);
  }

  /** The history keeps its shape across `shutdown`, growing by what the loop emitted meanwhile. */
  lemma ShutdownKeepsHistory(m: Machine, turns: seq<Input>, h: seq<Event>)
    requires Inv(m) && History(m, h)
    ensures History(ShutDown(m, turns), h + ShutdownEmitted(m, turns))
  {
    var s := Signalled(m);
    if m.task {
      var x := Run(s, turns);
      RunKeepsHistory(s, turns, h);
      HistoryAbort(x.phase, x.events, h + RunEmitted(s, turns));
    } else {
      assert h + [] == h;
    }
  }

  /** Sending on `shutdown_tx` keeps everything the engine promises. */
  lemma SignalKeepsValid(m: Machine, h: seq<Event>, auth: ClientMessage)
    requires Inv(m) && m.handleAlive && History(m, h) && AuthFirst(m, auth)
    ensures Inv(Signalled(m)) && History(Signalled(m), h) && AuthFirst(Signalled(m), auth)
  {
  }

  /** `shutdown` keeps everything the engine promises. */
  lemma ShutdownKeepsValid(m: Machine, turns: seq<Input>, h: seq<Event>, auth: ClientMessage)
    requires Inv(m) && m.handleAlive && History(m, h) && AuthFirst(m, auth)
    ensures var r := ShutDown(m, turns);
      && Inv(r) && r.handleAlive && History(r, h + ShutdownEmitted(m, turns)) && AuthFirst(r, auth)
  {
    ShutdownStops(m, turns);
    ShutdownKeepsHistory(m, turns, h);
    ShutdownKeepsAuthFirst(m, turns, auth);
  }

  // ── Dropping the handle ────────────────────────────────────────────

  /**
    Dropping the handle: `Drop` aborts the task if the handle still holds it
    and does not send on `shutdown_tx`; `cmd_tx` and `shutdown_tx` go with the
    handle.
  */
  function Dropped(m: Machine): Machine {
    m.(handleAlive := false, shutdownTx := false, task := false)
  }

  /**
    Once the handle is gone, a loop that has not exited can be cancelled; one
    waiting in `select!` has its shutdown branch, and with an empty queue its
    command branch, ready too. Cancellation ends it with no close and no
    `Disconnected`.
  */
  lemma DropEndsLoop(m: Machine)
    requires Inv(m) && m.handleAlive
    ensures Inv(Dropped(m))
    ensures !m.phase.Exited? ==> Ready(Dropped(m), Cancelled)
    ensures m.phase.Selecting? ==> Ready(Dropped(m), ShutdownSignal)
    ensures m.phase.Selecting? && m.commands == [] ==> Ready(Dropped(m), CommandsClosed)
    ensures var r := Next(Dropped(m), Cancelled);
      r.phase.Exited? && r.events == m.events && r.closeCalls == m.closeCalls && r.state == m.state
  {
  }

  /**
    A handle dropped before its task first runs aborts the task before it
    emits `Connected`: the receiver never sees any event.
  */
  lemma AbortBeforeFirstPoll(config: Config, later: seq<Input>)
    ensures RunEmitted(Dropped(Started(config)), [Cancelled] + later) == []
  {
    var m := Dropped(Started(config));
    assert ([Cancelled] + later)[0] == Cancelled && ([Cancelled] + later)[1..] == later;
    RunStoppedIgnores(Next(m, Cancelled), later);
  }

  // ── The client handle and its loop, as one object ──────────────────

  /**
    `SignalFishClient` together with the state of its transport loop: the
    fields of `ClientState`, the command queue, the event channel, where the
    loop is, the transport's record of what it accepted, the handle's
    `shutdown_tx` and `task`, and whether the handle still exists.
    `delivered` records every event the channel accepted.
  */
  class SignalFishClient {
    var connected: bool
    var authenticated: bool
    var playerId: Option<PlayerId>
    var roomId: Option<RoomId>
    var roomCode: Option<string>
    var commands: seq<ClientMessage>
    var buffered: seq<Event>
    var capacity: nat
    var receiverAlive: bool
    var phase: Phase
    var sent: seq<Value>
    var closeCalls: nat
    var shutdownTx: bool
    var task: bool
    var handleAlive: bool
    ghost var delivered: seq<Event>
    ghost var auth: ClientMessage

    function Snapshot(): Machine
      reads this
    {
      Machine(SharedState(connected, authenticated, playerId, roomId, roomCode), commands,
              EventChannel(buffered, capacity, receiverAlive), phase, sent, closeCalls, shutdownTx, task, handleAlive)
    }

    ghost predicate Valid()
      reads this
    {
      Inv(Snapshot()) && History(Snapshot(), delivered) && AuthFirst(Snapshot(), auth)
    }

    /** `SignalFishClient::start`: the task is spawned, not yet run. */
    constructor Start(config: Config)
      ensures Valid()
      ensures Snapshot() == Started(config) && delivered == [] && auth == AuthenticateFor(config)
    {
      connected, authenticated := true, false;
      playerId, roomId, roomCode := None, None, None;
      capacity := ClampCapacity(config.eventChannelCapacity);
      buffered, receiverAlive := [], true;
      commands := [AuthenticateFor(config)];
      phase, sent, closeCalls := Spawned, [], 0;
      shutdownTx, task, handleAlive := true, true, true;
      delivered := [];
      auth := AuthenticateFor(config);
      new;
      StartQueuesAuthenticate(config);
      StartSendsAuthFirst(config);
    }

    /** `emit_event`. */
    method EmitEvent(e: Event)
      modifies this
      ensures Snapshot() == old(Snapshot()).(events := TrySend(old(Snapshot()).events, e))
      ensures delivered == old(delivered) + (if Accepts(old(Snapshot()).events) then [e] else [])
      ensures auth == old(auth)
    {
      if receiverAlive && |buffered| < capacity {
        buffered := buffered + [e];
        delivered := delivered + [e];
      }
    }

    /** The task's first run: `emit_event(Connected)`, then into `select!`. */
    method FirstPoll()
      requires phase.Spawned?
      modifies this
      ensures Snapshot() == Next(old(Snapshot()), Poll)
      ensures delivered == old(delivered) + Emitted(old(Snapshot()), Poll)
      ensures auth == old(auth)
    {
      EmitEvent(Connected);
      phase := Selecting;
    }

    /** `emit_disconnected` up to its blocking send: both flags drop, then the loop waits to send `Disconnected`. */
    method EmitDisconnected(reason: Option<string>)
      modifies this
      ensures Snapshot() == Notified(old(Snapshot()), reason)
      ensures delivered == old(delivered) && auth == old(auth)
    {
      connected := false;
      authenticated := false;
      phase := Notifying(reason);
    }

    /** `update_state`. */
    method UpdateState(msg: ServerMessage)
      modifies this
      ensures Snapshot() == old(Snapshot()).(state := UpdatedState(old(Snapshot()).state, msg))
      ensures delivered == old(delivered) && auth == old(auth)
    {
      if msg.Authenticated? {
        authenticated := true;
      } else if msg.RoomJoined? {
        playerId, roomId, roomCode := Some(msg.joined.playerId), Some(msg.joined.roomId), Some(msg.joined.roomCode);
      } else if msg.Reconnected? {
        var p := msg.reconnected.room;
        playerId, roomId, roomCode := Some(p.playerId), Some(p.roomId), Some(p.roomCode);
      } else if msg.SpectatorJoined? {
        var p := msg.spectating;
        playerId, roomId, roomCode := Some(p.spectatorId), Some(p.roomId), Some(p.roomCode);
      } else if msg.RoomLeft? || msg.SpectatorLeft? {
        roomId, roomCode := None, None;
      }
    }

    /** The handle's `send`, behind every request method. */
    method Send(msg: ClientMessage) returns (r: Result<(), SignalFishError>)
      requires Valid() && handleAlive
      modifies this
      ensures Valid()
      ensures Snapshot() == AfterSend(old(Snapshot()), msg)
      ensures r.Err? <==> SendOutcome(old(Snapshot())).Some?
      ensures r.Err? ==> r.error == NotConnected
      ensures delivered == old(delivered) && auth == old(auth)
    {
      if !connected {
        return Err(NotConnected);
      }
      if phase.Exited? {
        // the loop is gone, so the command channel is closed
        return Err(NotConnected);
      }
      commands := commands + [msg];
      SendQueuesAtBack(old(Snapshot()), msg);
      SendKeepsAuthFirst(old(Snapshot()), msg, auth);
      return Ok(());
    }

    /** `join_room`. */
    method JoinRoom(params: JoinRoomParams) returns (r: Result<(), SignalFishError>)
      requires Valid() && handleAlive
      modifies this
      ensures Valid()
      ensures Snapshot() == AfterSend(old(Snapshot()), JoinRoomMessage(params))
      ensures r.Err? <==> SendOutcome(old(Snapshot())).Some?
      ensures delivered == old(delivered) && auth == old(auth)
    {
      r := Send(JoinRoomMessage(params));
    }

    /** Branch 1 takes the oldest queued command and starts `transport.send` with its JSON text. */
    method TakeCommand()
      requires phase.Selecting? && commands != []
      modifies this
      ensures Snapshot() == Next(old(Snapshot()), NextCommand)
      ensures delivered == old(delivered) + Emitted(old(Snapshot()), NextCommand)
      ensures auth == old(auth)
    {
      phase := Sending(commands[0]);
      commands := commands[1..];
    }

    /** `transport.send` returns, failing with `sendError`, if any: back to `select!`, or out through `emit_disconnected`. */
    method SendFinished(sendError: Option<SignalFishError>)
      requires phase.Sending?
      modifies this
      ensures Snapshot() == Next(old(Snapshot()), SendDone(sendError))
      ensures delivered == old(delivered) + Emitted(old(Snapshot()), SendDone(sendError))
      ensures auth == old(auth)
    {
      if sendError.Some? {
        EmitDisconnected(Some(SEND_LEAD + Display(sendError.value)));
      } else {
        sent := sent + [ClientCodec.Encode(phase.msg)];
        phase := Selecting;
      }
    }

    /** Branch 1 once every command sender is gone: start closing the transport. */
    method CloseCommands()
      requires phase.Selecting? && commands == [] && !handleAlive
      modifies this
      ensures Snapshot() == Next(old(Snapshot()), CommandsClosed)
      ensures delivered == old(delivered) + Emitted(old(Snapshot()), CommandsClosed)
      ensures auth == old(auth)
    {
      closeCalls := closeCalls + 1;
      phase := Closing;
    }

    /** Branch 2, the shutdown signal: start closing the transport. */
    method ShutdownBranch()
      requires phase.Selecting? && !shutdownTx
      modifies this
      ensures Snapshot() == Next(old(Snapshot()), ShutdownSignal)
      ensures delivered == old(delivered) + Emitted(old(Snapshot()), ShutdownSignal)
      ensures auth == old(auth)
    {
      closeCalls := closeCalls + 1;
      phase := Closing;
    }

    /** `transport.close()` returns: `emit_disconnected` with "client shut down". */
    method CloseFinished()
      requires phase.Closing?
      modifies this
      ensures Snapshot() == Next(old(Snapshot()), CloseDone)
      ensures delivered == old(delivered) + Emitted(old(Snapshot()), CloseDone)
      ensures auth == old(auth)
    {
      EmitDisconnected(Some(SHUT_DOWN_REASON));
    }

    /** Branch 3. */
    method Receive(received: Received)
      requires phase.Selecting?
      modifies this
      ensures Snapshot() == Next(old(Snapshot()), Incoming(received))
      ensures delivered == old(delivered) + Emitted(old(Snapshot()), Incoming(received))
      ensures auth == old(auth)
    {
      match received
      case Text(message) =>
        if message.Some? {
          UpdateState(message.value);
          EmitEvent(FromServer(message.value));
        }
      case Failed(e) =>
        EmitDisconnected(Some(RECEIVE_LEAD + Display(e)));
      case ClosedCleanly =>
        EmitDisconnected(None);
    }

    /** The blocking send of `Disconnected` returns, and the loop breaks. */
    method FinishDisconnect()
      requires phase.Notifying? && (!receiverAlive || |buffered| < capacity)
      modifies this
      ensures Snapshot() == Next(old(Snapshot()), Delivery)
      ensures delivered == old(delivered) + Emitted(old(Snapshot()), Delivery)
      ensures auth == old(auth)
    {
      if receiverAlive {
        buffered := buffered + [Event.Disconnected(phase.reason)];
        delivered := delivered + [Event.Disconnected(phase.reason)];
      }
      phase := Exited;
    }

    /** The aborted task is dropped where it waits. */
    method Cancel()
      requires !phase.Exited? && !task
      modifies this
      ensures Snapshot() == Next(old(Snapshot()), Cancelled)
      ensures delivered == old(delivered) + Emitted(old(Snapshot()), Cancelled)
      ensures auth == old(auth)
    {
      phase := Exited;
    }

    /** `recv` on the event receiver; `None` when nothing is buffered. */
    method RecvEvent() returns (e: Option<Event>)
      requires Valid()
      modifies this
      ensures Valid()
      ensures (Snapshot().events, e) == Recv(old(Snapshot()).events)
      ensures Snapshot() == old(Snapshot()).(events := Snapshot().events)
      ensures delivered == old(delivered) && auth == old(auth)
    {
      ChannelKeepsInv(Snapshot(), Recv(Snapshot().events).0);
      RecvKeepsHistory(phase, EventChannel(buffered, capacity, receiverAlive), delivered);
      if buffered == [] {
        return None;
      }
      e := Some(buffered[0]);
      buffered := buffered[1..];
    }

    /** Dropping the event receiver. */
    method DropReceiver()
      requires Valid()
      modifies this
      ensures Valid()
      ensures Snapshot() == old(Snapshot()).(events := ReceiverDropped(old(Snapshot()).events))
      ensures delivered == old(delivered) && auth == old(auth)
    {
      ChannelKeepsInv(Snapshot(), ReceiverDropped(Snapshot().events));
      DropKeepsHistory(phase, EventChannel(buffered, capacity, receiverAlive), delivered);
      buffered, receiverAlive := [], false;
    }

    /** One step of the loop's own: the input `i` comes, if it is ready. */
    method LoopStep(i: Input)
      requires LoopInput(i)
      modifies this
      ensures Snapshot() == Next(old(Snapshot()), i)
      ensures delivered == old(delivered) + Emitted(old(Snapshot()), i)
      ensures auth == old(auth)
    {
      if !Ready(Snapshot(), i) {
        assert delivered + [] == delivered;
        return;
      }
      match i
      case Poll => FirstPoll();
      case NextCommand => TakeCommand();
      case SendDone(sendError) => SendFinished(sendError);
      case CommandsClosed => CloseCommands();
      case ShutdownSignal => ShutdownBranch();
      case CloseDone => CloseFinished();
      case Incoming(received) => Receive(received);
      case Delivery => FinishDisconnect();
      case Cancelled => Cancel();
    }

    /** One step: the input `i` comes, if it is ready. */
    method Step(i: Input)
      requires Valid()
      modifies this
      ensures Valid()
      ensures Snapshot() == Next(old(Snapshot()), i)
      ensures delivered == old(delivered) + Emitted(old(Snapshot()), i)
      ensures auth == old(auth) && handleAlive == old(handleAlive)
    {
      ghost var m := Snapshot();
      StepKeepsValid(m, i, delivered, auth);
      if i.EventTaken? {
        var taken := RecvEvent();
        assert delivered + [] == delivered;
      } else if i.ReceiverGone? {
        DropReceiver();
        assert delivered + [] == delivered;
      } else {
        LoopStep(i);
      }
    }

    /** The engine takes `turns`, one after the other. */
    method AwaitLoop(turns: seq<Input>)
      requires Valid()
      modifies this
      ensures Valid() && handleAlive == old(handleAlive) && auth == old(auth)
      ensures Snapshot() == Run(old(Snapshot()), turns)
      ensures delivered == old(delivered) + RunEmitted(old(Snapshot()), turns)
    {
      ghost var s := Snapshot();
      var k := 0;
      while k < |turns|
        invariant 0 <= k <= |turns|
        invariant Valid() && handleAlive == old(handleAlive) && auth == old(auth)
        invariant Run(Snapshot(), turns[k..]) == Run(s, turns)
        invariant delivered + RunEmitted(Snapshot(), turns[k..]) == old(delivered) + RunEmitted(s, turns)
      {
        ghost var before := Snapshot();
        ghost var seen := delivered;
        Step(turns[k]);
        RunStep(before, turns, k);
        Reassociate(seen, Emitted(before, turns[k]), RunEmitted(Snapshot(), turns[k + 1..]));
        k := k + 1;
      }
      assert turns[k..] == [];
      assert delivered + [] == delivered;
    }

    /** The timed wait for the task: the engine takes `turns`, and the loop is aborted wherever it waits if it has not exited. */
    method WaitForLoop(turns: seq<Input>)
      requires Valid() && task
      modifies this
      ensures Snapshot() == Aborted(Run(old(Snapshot()), turns))
      ensures delivered == old(delivered) + RunEmitted(old(Snapshot()), turns)
      ensures auth == old(auth)
    {
      AwaitLoop(turns);
      if !phase.Exited? {
        // the timeout ran out: abort the task
        phase := Exited;
      }
      task := false;
    }

    /**
      `shutdown`: send on `shutdown_tx`, then wait for the task while the
      engine takes `turns`, the steps that fit in the shutdown timeout; abort
      the loop if it has not exited then, and clear `connected`.
    */
    method Shutdown(turns: seq<Input>)
      requires Valid() && handleAlive
      modifies this
      ensures Valid() && handleAlive
      ensures Snapshot() == ShutDown(old(Snapshot()), turns)
      ensures delivered == old(delivered) + ShutdownEmitted(old(Snapshot()), turns)
      ensures auth == old(auth)
    {
      ghost var m := Snapshot();
      SignalKeepsValid(m, delivered, auth);
      shutdownTx := false;
      assert Snapshot() == Signalled(m);
      if task {
        WaitForLoop(turns);
      } else {
        assert old(delivered) + [] == old(delivered);
      }
      connected := false;
      assert Snapshot() == ShutDown(m, turns);
      ShutdownKeepsValid(m, turns, old(delivered), auth);
    }

    /** Dropping the handle; its loop, if not exited, is left to be cancelled or to end on its own steps. */
    method DropHandle()
      requires Valid() && handleAlive
      modifies this
      ensures Valid()
      ensures Snapshot() == Dropped(old(Snapshot()))
      ensures delivered == old(delivered) && auth == old(auth)
    {
      DropEndsLoop(Snapshot());
      // `Drop` aborts the task; `cmd_tx` and `shutdown_tx` go with the handle
      task := false;
      handleAlive, shutdownTx := false, false;
    }
  }
}
