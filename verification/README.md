# Signal Fish client: a Dafny model

This project models the core of the Signal Fish Rust client SDK, together with
the text scanners in the repository's tooling. It covers four areas.

- **The client engine** (`src/client.rs`). This covers:
  - the `SignalFishConfig` and `JoinRoomParams` builders;
  - the `ClientState` the handle shares with its background transport loop;
  - the unbounded command queue and the bounded event channel, which drops an
    event when full;
  - `transport_loop`, one ready input at a time;
  - the handle's `start`, `send`, `join_room`, `shutdown` and `Drop`.

  The pure part (module `Client`) specifies every operation on a snapshot of
  the whole engine (`Machine`). Lemmas prove the invariants and the event
  history: nothing before the task first runs, then `Connected` first, at most
  one `Disconnected` and only last, and the `Authenticate` message transmitted
  first. The class `Client.SignalFishClient` keeps the same state in fields.
  Each of its methods is proved to follow the pure specification and to
  preserve `Valid()`. `tokio::select!` becomes a caller-chosen `Input`. Any
  ready branch may fire, so the shutdown signal races with queued commands and
  with the transport. The loop's waits inside a branch (`transport.send`,
  `transport.close()` and the blocking send of `Disconnected`) are steps of
  their own, and an aborted task may be cancelled at any of them. An input that
  is not ready changes nothing. `shutdown` is given the steps the engine takes
  before the timeout expires; a loop that has not exited then is aborted. With
  a full channel nobody drains, the blocking send of `Disconnected` never
  returns, so `shutdown` aborts the loop and that `Disconnected` is lost
  (`Client.ShutdownFullChannelLosesDisconnected`).
- **The wire codec** (`src/protocol.rs`). JSON (RFC 8259) is an abstract tree
  (`JsonTree.Value`). The model has:
  - encoders and decoders for the lower-case and snake_case enum tables;
  - an internally tagged `ConnectionInfo`;
  - every payload struct;
  - the adjacently tagged (`type`/`data`) `ClientMessage` and `ServerMessage`,
    read from an object or from the sequence `[name, content]`.

  `ServerMessage::Reconnected` nests further server messages, so its decoder
  is structurally recursive. Round trips, tag shapes, defaults for missing keys
  and the absence of `None` fields are proved.
- **Error codes and errors** (`src/error_codes.rs`, `src/error.rs`). The model
  has the 40 `ErrorCode` wire names and their SCREAMING_SNAKE_CASE rule,
  `description` and `Display`, and the `#[error(...)]` display formats of
  `SignalFishError`.
- **Tooling scanners** (`tests/ci_config_tests.rs`, `scripts/pre-commit-llm.py`).
  They are modelled as methods with loops, proved against specification
  functions:
  - job-block extraction from a workflow file;
  - the MSRV toolchain and shellcheck directive validators;
  - the Markdown heading and list-item recognisers;
  - mkdocs nav references and nav-card links;
  - first-heading and first-paragraph extraction with fence tracking, an
    approximation of section 4.5 of CommonMark;
  - the skill index page with its 120-character description limit.

Integers are unbounded. `u8`, `u16`, `u32`, `u64` and the 128-bit UUID are
subset types with explicit bounds, and decoding rejects out-of-range numbers.
Strings are `seq<char>`.

Files:

| file | module | contents |
|---|---|---|
| `wrappers.dfy` | `Wrappers` | `Option`, `Result` |
| `json.dfy` | `JsonTree` | JSON tree, field access, arrays, optional fields, adjacent tagging |
| `uuid.dfy` | `Uuid` | canonical hyphenated UUID text |
| `snake_case.dfy` | `SnakeCase` | serde's SCREAMING_SNAKE_CASE rename rule |
| `error_codes.dfy` | `ErrorCodes` | `ErrorCode`, wire names, descriptions |
| `errors.dfy` | `Errors` | `SignalFishError` and its display texts |
| `protocol.dfy` | `Protocol` | enums, payload structs, message types |
| `protocol_codec.dfy` | `ProtocolCodec` | JSON encoding of enums, `ConnectionInfo` and payloads |
| `client_codec.dfy` | `ClientCodec` | `ClientMessage` encode/decode |
| `server_codec.dfy` | `ServerCodec` | `ServerMessage` encode/decode |
| `client.dfy` | `Client` | the client engine |
| `text.dfy` | `Text` | `trim`, `starts_with`, `find`, `lines`, `join`, ... |
| `search.dfy` | `Search` | first index of a true verdict |
| `markdown.dfy` | `Markdown` | fence tracking and first H1 |
| `ci_config.dfy` | `CiConfig` | the CI-configuration scanners |
| `pre_commit_llm.dfy` | `PreCommitLlm` | title, first paragraph, skill index |

## Model

| member | source | states |
|---|---|---|
| Client.NewConfig | src/client.rs:109-118 | `new` keeps the app id, sets `sdk_version` to the crate version, leaves platform and format unset, and defaults the capacity to 256 and the timeout to one second |
| Client.ClampCapacity | src/client.rs:283-285 | the capacity `start` uses is at least 1, equals a positive request and is 1 for a zero request |
| Client.WithEventChannelCapacity | src/client.rs:124-127 | stores a capacity of at least 1 (the requested one when positive) and changes no other field |
| Client.WithShutdownTimeout | src/client.rs:134-137 | stores the timeout and changes no other field |
| Client.CapacityClampedTwice | src/client.rs:124-127 | clamping again in `start` leaves a builder-clamped capacity unchanged |
| Client.NewJoinRoomParams | src/client.rs:179-187 | game and player name set, every optional field unset |
| Client.WithRoomCode | src/client.rs:189-193 | sets the room code and nothing else |
| Client.WithMaxPlayers | src/client.rs:196-200 | sets the player limit and nothing else |
| Client.WithSupportsAuthority | src/client.rs:203-207 | sets the authority flag and nothing else |
| Client.WithRelayTransport | src/client.rs:210-213 | sets the relay transport and nothing else |
| Client.JoinRoomCarriesParams | src/client.rs:328-338 | the `JoinRoom` message built from any parameters decodes back to exactly those parameters |
| Client.NewSharedState | src/client.rs:227-236 | a fresh state is connected, not authenticated, with no player, room id or room code |
| Client.UpdatedState | src/client.rs:640-685 | `update_state` never touches `connected` and keeps room id and room code set or unset together |
| Client.AuthenticatedRaisesFlag | src/client.rs:642-645 | `Authenticated` sets `authenticated` and changes nothing else |
| Client.JoiningRecordsRoom | src/client.rs:646-673 | `RoomJoined`, `Reconnected` and `SpectatorJoined` store the payload's player (or spectator) id, room id and room code |
| Client.LeavingForgetsRoom | src/client.rs:655-682 | `RoomLeft` and `SpectatorLeft` clear room id and room code and keep the player id |
| Client.OtherMessagesChangeNothing | src/client.rs:679-681 | every other server message leaves the state unchanged |
| Client.Disconnect | src/client.rs:713-714 | `emit_disconnected` clears `connected` and `authenticated` and keeps the room fields |
| Client.TrySend | src/client.rs:689-702 | `try_send` appends at the back when the receiver is alive and the buffer is below capacity, otherwise drops the event; never exceeds the capacity |
| Client.SendAndWait | src/client.rs:715-718 | the blocking send delivers unless the receiver was dropped, and, returning only when there is room or no receiver, keeps the channel within its capacity |
| Client.Recv | src/client.rs:285 | the receiver takes the oldest buffered event, or nothing from an empty buffer |
| Client.ReceiverDropped | src/client.rs:698-700 | a dropped receiver discards the buffer and accepts nothing more |
| Client.AuthenticateFor | src/client.rs:293-298 | the `Authenticate` message carries the config's app id, SDK version, platform and data format |
| Client.Started | src/client.rs:278-320 | `start` builds a fresh engine; its properties are stated by `Client.StartQueuesAuthenticate` |
| Client.StartQueuesAuthenticate | src/client.rs:278-320 | after `start`, the invariant holds, the task is spawned but has not run, the channel is empty with the clamped capacity, and the queue holds just the `Authenticate` message |
| Client.FirstPollEmitsConnected | src/client.rs:551-553 | the task's first act emits `Connected` into the empty channel, then it waits in `select!`; nothing else changes |
| Client.SendQueuesAtBack | src/client.rs:501-508 | `send` fails with `NotConnected`, changing nothing, exactly when not connected; otherwise it appends the message to the queue |
| Client.ReadFrame | src/client.rs:598-611 | no text means no message |
| Client.ReadFrameOfEncode | src/client.rs:598-604 | a frame holding an encoded server message is read back as that message |
| Client.Next | src/client.rs:551-635 | one step of the engine; its properties are stated by the step lemmas `Client.NextKeepsInv` to `Client.CommandTurn` and by `Client.NextAppendsEmitted` |
| Client.NextKeepsInv | src/client.rs:551-635 | every step preserves the engine invariant: room fields paired, capacity at least 1, the buffer within capacity, `connected` exactly until `emit_disconnected` while the handle exists, a live handle holding the task of a loop that has not exited |
| Client.ChannelKeepsInv | src/client.rs:285 | the receiver draining or dropping the channel keeps the invariant |
| Client.StoppedLoopIgnoresInput | src/client.rs:633-636 | once the loop has exited, none of its inputs has an effect; only the receiver still changes the channel |
| Client.StoppingTurn | src/client.rs:564-630 | a failed send, a receive error or the server closing enters `emit_disconnected` at once with that reason, clearing both flags and keeping the room fields; the two shutdown branches instead ask the transport to close, once, with the flags still up |
| Client.CloseDoneTurn | src/client.rs:581-596 | when `close` returns, the shutdown branch clears both flags and waits to send `Disconnected("client shut down")` |
| Client.DeliveryTurn | src/client.rs:708-719 | the blocking send returns exactly when the loop waits in it and there is room or no receiver; it delivers `Disconnected` with the loop's reason to a live receiver, stays within capacity, and the loop exits |
| Client.CancelledTurn | src/client.rs:529-530 | an aborted loop ends where it waits: no `close`, no `Disconnected`, shared state (flags included) untouched |
| Client.ContinuingTurn | src/client.rs:551-615 | a step that keeps the loop going closes nothing, keeps `connected`, appends at most one event and never a `Disconnected` |
| Client.UnreadableFrameIgnored | src/client.rs:606-610 | text that does not decode changes nothing |
| Client.ServerMessageTurn | src/client.rs:599-604 | a decoded server message updates the state and is offered to the event channel |
| Client.CommandTurn | src/client.rs:558-572 | taking a command and a send that succeeds transmit the oldest command, encoded, and remove it from the queue |
| Client.Run | src/client.rs:555-635 | the engine after a sequence of steps; its properties are stated by the `Client.Run…` lemmas |
| Client.RunKeepsInv | src/client.rs:555-635 | the invariant holds after any sequence of steps |
| Client.RunKeepsHandle | src/client.rs:250-259 | the loop never touches the handle's `shutdown_tx`, `task` or `cmd_tx` |
| Client.RunStoppedIgnores | src/client.rs:633-636 | after the loop exited, no run changes anything but the channel, and none emits an event |
| Client.PastDecisionStep | src/client.rs:708-719 | a step of a loop on its way out takes, sends and closes nothing, never raises `authenticated`, and emits at most the `Disconnected` with the reason it set out with, as it exits |
| Client.RunPastDecision | src/client.rs:708-719 | once on its way out, no run makes the loop take, send or close anything more; all it can still emit is one `Disconnected` with its reason |
| Client.RunClosesAtMostOnce | src/client.rs:581-596 | over any run `close` is called at most once, and only by a loop that entered a shutdown branch |
| Client.EncodeAll | src/client.rs:561 | one encoded frame per message |
| Client.CommandsLeaveInOrder | src/client.rs:558-572 | n successful command sends transmit the first n queued commands in enqueue order |
| Client.NextPending | src/client.rs:558-573 | a returning send finishes the front pending command, handed to the transport or, on failure, lost with the loop on its way out; a cancelled send loses it; every other step keeps the pending commands and the transport's record |
| Client.DrainedStep | src/client.rs:558-588 | a step takes at most the front command, and hands it to the transport unless its send failed or was cancelled and the loop ends |
| Client.QueueTrans | src/client.rs:558-588 | draining from the front twice is draining from the front |
| Client.RunDrainsFront | src/client.rs:555-635 | over any run the transport gets a prefix of the pending commands in order, and at most one more command is lost, only as the loop ends |
| Client.HistoryAbort | src/client.rs:460 | a loop dropped where it waits leaves a history of the exited shape |
| Client.Emitted | src/client.rs:551-635 | a step emits at most one event |
| Client.NextAppendsEmitted | src/client.rs:551-635 | a loop step appends exactly its events after the buffered ones; `Connected` comes only from the first run, whenever the channel takes it; a step that exits emits nothing but, from the blocking send, the loop's `Disconnected` |
| Client.ExtendHistory | src/client.rs:551-719 | appending a step's events keeps the history well formed |
| Client.RecvKeepsHistory | src/client.rs:285 | the receiver taking an event keeps the history |
| Client.DropKeepsHistory | src/client.rs:698-700 | dropping the receiver keeps the history |
| Client.LoopKeepsHistory | src/client.rs:551-635 | a loop step keeps the history's shape, growing it by its events |
| Client.NextKeepsHistory | src/client.rs:551-635 | the delivered history is empty before the first run, then starts with `Connected` (unless the receiver was gone), has no later `Connected`, no `Disconnected` before the loop exits and at most one, last, after |
| Client.RunKeepsHistory | src/client.rs:551-635 | a run appends exactly its steps' events, and the history keeps its shape |
| Client.StepKeepsValid | src/client.rs:551-635 | every step keeps the invariant, the history and `Authenticate` first |
| Client.StartSendsAuthFirst | src/client.rs:290-300 | right after `start`, the `Authenticate` message heads the queue |
| Client.NextKeepsAuthFirst | src/client.rs:555-572 | every step keeps `Authenticate` as the first frame sent (or still first among the pending commands) |
| Client.RunKeepsAuthFirst | src/client.rs:555-635 | any run keeps `Authenticate` first |
| Client.SendKeepsAuthFirst | src/client.rs:501-508 | queueing another command keeps `Authenticate` first |
| Client.ServerReadsAuthFirst | src/client.rs:290-300 | the first frame the transport receives decodes to the `Authenticate` message |
| Client.ShutDown | src/client.rs:442-469 | `shutdown` over the steps the loop takes before the timeout; its properties are stated by the `Client.Shutdown…` lemmas |
| Client.DrainedAbort | src/client.rs:460 | the abort loses at most the command whose send was in flight |
| Client.ShutdownStops | src/client.rs:442-469 | whatever steps the loop takes, `shutdown` leaves it exited, `connected` false and both `Option`s taken; the transport got only pending commands, from the front and in order, and `close` at most once; an already exited loop only loses `connected` |
| Client.ShutdownFirstStopDecides | src/client.rs:555-630 | the first ready branch that ends the loop decides: the shutdown branch closes the transport, while a failed send, a receive error or the server closing can win the race and decide the reason, with no `close`; nothing more is sent, and at most that one `Disconnected` is emitted |
| Client.ShutdownSignalFirst | src/client.rs:590-596 | when the shutdown branch fires first and the blocking send returns in time (room, or no receiver), the transport is closed once, no queued command is sent, both flags drop, and a live receiver gets `Disconnected("client shut down")` |
| Client.ShutdownFullChannelLosesDisconnected | src/client.rs:706-719 | with the channel full and undrained, the shutdown branch closes the transport and clears the flags, but its `Disconnected` is never delivered although the receiver exists |
| Client.RunBlocked | src/client.rs:716 | a loop blocked in the send of `Disconnected` on a full, undrained channel stays blocked |
| Client.ShutdownLosesDisconnectedExample | src/client.rs:553-596 | a fresh client with capacity 1, once `Connected` is emitted, loses `Disconnected` when shut down |
| Client.ShutdownTimesOut | src/client.rs:452-466 | a loop that has not exited at the timeout is aborted: no `Disconnected` ever delivered, no `close` beyond one from a shutdown branch already entered, `authenticated` left as the loop left it |
| Client.ShutdownIdempotent | src/client.rs:446-452 | a second `shutdown` changes nothing, because both `Option`s are already taken |
| Client.ShutdownKeepsAuthFirst | src/client.rs:442-469 | `shutdown` keeps `Authenticate` first |
| Client.ShutdownKeepsHistory | src/client.rs:442-469 | `shutdown` appends exactly what the loop emits while it waits, and the history keeps its shape |
| Client.SignalKeepsValid | src/client.rs:446-448 | sending on `shutdown_tx` keeps the invariant, the history and `Authenticate` first |
| Client.ShutdownKeepsValid | src/client.rs:442-469 | `shutdown` keeps the invariant, the history and `Authenticate` first, and the handle alive |
| Client.Dropped | src/client.rs:521-533 | `Drop`; its properties are stated by `Client.DropEndsLoop` and `Client.AbortBeforeFirstPoll` |
| Client.DropEndsLoop | src/client.rs:521-533 | after `Drop`, a loop that has not exited can be cancelled, one in `select!` has its shutdown branch (and, with an empty queue, its queue-closed branch) ready; cancellation closes nothing and emits nothing |
| Client.AbortBeforeFirstPoll | src/client.rs:521-533 | a handle dropped before its task first runs aborts it before `Connected`: the receiver sees no event at all |
| Client.SignalFishClient.Start | src/client.rs:278-320 | the constructor builds the started engine, with the task spawned and the channel empty |
| Client.SignalFishClient.EmitEvent | src/client.rs:689-702 | in-place `try_send` |
| Client.SignalFishClient.FirstPoll | src/client.rs:551-553 | the task's first run, as the pure step |
| Client.SignalFishClient.EmitDisconnected | src/client.rs:708-715 | in-place flag clearing, leaving the loop waiting to send `Disconnected` |
| Client.SignalFishClient.UpdateState | src/client.rs:640-685 | in-place `update_state` |
| Client.SignalFishClient.Send | src/client.rs:501-508 | in-place `send`, keeping `Valid()` |
| Client.SignalFishClient.JoinRoom | src/client.rs:328-338 | `join_room` is `send` of the `JoinRoom` message |
| Client.SignalFishClient.TakeCommand | src/client.rs:558-564 | the command branch taking a command, as the pure step |
| Client.SignalFishClient.SendFinished | src/client.rs:564-572 | `transport.send` returning, as the pure step |
| Client.SignalFishClient.CloseCommands | src/client.rs:581-583 | the queue-closed branch, ready only once the handle is dropped, as the pure step |
| Client.SignalFishClient.ShutdownBranch | src/client.rs:590-593 | the shutdown branch, as the pure step |
| Client.SignalFishClient.CloseFinished | src/client.rs:583-596 | `close` returning, as the pure step |
| Client.SignalFishClient.Receive | src/client.rs:598-631 | the transport branch, as the pure step |
| Client.SignalFishClient.FinishDisconnect | src/client.rs:715-719 | the blocking send of `Disconnected` returning, as the pure step |
| Client.SignalFishClient.Cancel | src/client.rs:529-530 | the aborted task dropped where it waits, as the pure step |
| Client.SignalFishClient.RecvEvent | src/client.rs:285 | receiving one event, keeping `Valid()` |
| Client.SignalFishClient.DropReceiver | src/client.rs:698-700 | dropping the receiver, keeping `Valid()` |
| Client.SignalFishClient.LoopStep | src/client.rs:551-635 | one step of the loop's own, as the pure step |
| Client.SignalFishClient.Step | src/client.rs:551-635 | one step of the engine, keeping `Valid()` (invariant, history, `Authenticate` first) |
| Client.SignalFishClient.AwaitLoop | src/client.rs:453 | the engine takes the given steps in order, as `Run`, keeping `Valid()` |
| Client.SignalFishClient.WaitForLoop | src/client.rs:452-466 | the timed wait: the steps, then the abort of a loop that has not exited, wherever it waits, and the task taken |
| Client.SignalFishClient.Shutdown | src/client.rs:442-469 | in-place `shutdown` over the loop's steps, as `ShutDown`, keeping `Valid()` |
| Client.SignalFishClient.DropHandle | src/client.rs:521-533 | `Drop` aborts the task and gives up `cmd_tx` and `shutdown_tx`, as `Dropped`, keeping `Valid()` |
| Protocol.ParseRelayTransport | src/protocol.rs:27-41 | only a table name parses, to its own variant |
| Protocol.ParseGameDataEncoding | src/protocol.rs:46-57 | only a table name parses, to its own variant |
| Protocol.ParseReason | src/protocol.rs:105-112 | only a table name parses, to its own variant |
| Protocol.ParseLobbyState | src/protocol.rs:117-122 | only a table name parses, to its own variant |
| Protocol.EnumNamesRoundTrip | src/protocol.rs:26-123 | each enum's name parses back to the same variant (the tables are injective and invertible) |
| Protocol.EnumNamesRejectOthers | src/protocol.rs:26-123 | a string fails to parse exactly when no variant has that name |
| ProtocolCodec.AsUuid | src/protocol.rs:129-138 | a decoded UUID came from a 36-character string |
| ProtocolCodec.UuidRoundTrip | src/protocol.rs:129-138 | a UUID's text decodes back to it |
| ProtocolCodec.AsErrorCode | src/error_codes.rs:16-17 | a decoded code came from its own wire name; an unknown name is an unknown-variant error |
| ProtocolCodec.ErrorCodeRoundTrip | src/error_codes.rs:16-73 | every code's wire string decodes back to it |
| ProtocolCodec.AsRelayTransport | src/protocol.rs:27-41 | only a table name decodes |
| ProtocolCodec.RelayTransportRoundTrip | src/protocol.rs:27-41 | encode then decode is the identity |
| ProtocolCodec.AsEncoding | src/protocol.rs:46-57 | only a table name decodes |
| ProtocolCodec.EncodingRoundTrip | src/protocol.rs:46-57 | encode then decode is the identity |
| ProtocolCodec.AsReason | src/protocol.rs:105-112 | only a table name decodes |
| ProtocolCodec.ReasonRoundTrip | src/protocol.rs:105-112 | encode then decode is the identity |
| ProtocolCodec.AsLobbyState | src/protocol.rs:117-122 | only a table name decodes |
| ProtocolCodec.LobbyStateRoundTrip | src/protocol.rs:117-122 | encode then decode is the identity |
| ProtocolCodec.StringsRoundTrip | src/protocol.rs:96 | a list of strings round-trips |
| ProtocolCodec.CharsRoundTrip | src/protocol.rs:200-201 | a list of characters round-trips |
| ProtocolCodec.BytesRoundTrip | src/protocol.rs:374-375 | a binary payload round-trips byte for byte |
| ProtocolCodec.UuidsRoundTrip | src/protocol.rs:241 | a list of player ids round-trips |
| ProtocolCodec.EncodingsRoundTrip | src/protocol.rs:186-187 | a list of encodings round-trips |
| ProtocolCodec.PlayersRoundTrip | src/protocol.rs:238 | a list of players round-trips |
| ProtocolCodec.SpectatorsRoundTrip | src/protocol.rs:426-427 | a list of spectators round-trips |
| ProtocolCodec.PeersRoundTrip | src/protocol.rs:396-398 | a list of peer connections round-trips |
| ProtocolCodec.AsConnectionInfo | src/protocol.rs:61-63 | a decoded `ConnectionInfo` came from an object whose inner `type` is its variant's name |
| ProtocolCodec.ConnectionInfoRoundTrip | src/protocol.rs:62-100 | every `ConnectionInfo` round-trips |
| ProtocolCodec.DecodeDirect | src/protocol.rs:65-66 | the decoder yields a `Direct` value |
| ProtocolCodec.DirectRoundTrip | src/protocol.rs:65-66 | `Direct` fields round-trip |
| ProtocolCodec.DecodeUnityRelay | src/protocol.rs:68-73 | the decoder yields a `UnityRelay` value |
| ProtocolCodec.UnityRelayRoundTrip | src/protocol.rs:68-73 | `UnityRelay` fields round-trip |
| ProtocolCodec.DecodeRelay | src/protocol.rs:75-91 | the decoder yields a `Relay` value |
| ProtocolCodec.RelayRoundTrip | src/protocol.rs:75-91 | `Relay` fields round-trip, the absent `client_id` included |
| ProtocolCodec.DecodeWebRtc | src/protocol.rs:93-97 | the decoder yields a `WebRTC` value |
| ProtocolCodec.WebRtcRoundTrip | src/protocol.rs:93-97 | `WebRTC` fields round-trip, a null `sdp` included |
| ProtocolCodec.DecodeCustom | src/protocol.rs:99-100 | the decoder yields a `Custom` value |
| ProtocolCodec.CustomRoundTrip | src/protocol.rs:99-100 | the opaque `data` round-trips |
| ProtocolCodec.PlayerInfoRoundTrip | src/protocol.rs:129-138 | `PlayerInfo` round-trips, an absent optional field included |
| ProtocolCodec.SpectatorInfoRoundTrip | src/protocol.rs:142-146 | `SpectatorInfo` round-trips |
| ProtocolCodec.PeerConnectionInfoRoundTrip | src/protocol.rs:150-158 | `PeerConnectionInfo` round-trips |
| ProtocolCodec.RateLimitInfoRoundTrip | src/protocol.rs:162-169 | `RateLimitInfo` round-trips |
| ProtocolCodec.PlayerNameRulesRoundTrip | src/protocol.rs:194-204 | `PlayerNameRulesPayload` round-trips |
| ProtocolCodec.ProtocolInfoRoundTrip | src/protocol.rs:173-190 | `ProtocolInfoPayload` round-trips with every optional field absent or present |
| ProtocolCodec.SpectatorJoinedRoundTrip | src/protocol.rs:253-263 | `SpectatorJoinedPayload` round-trips |
| ProtocolCodec.RoomRoundTrip | src/protocol.rs:211-226 | `RoomJoinedPayload` round-trips |
| ProtocolCodec.ConnectionInfoIsFlat | src/protocol.rs:62-100 | each variant's fields sit flat beside the inner `type`, with exactly the keys the source declares; `client_id` only when set and `sdp` as null when unset |
| ProtocolCodec.RelayTransportDefaultsToAuto | src/protocol.rs:82-83 | a relay object without `transport` decodes with `Auto` |
| ProtocolCodec.ProtocolInfoDefaults | src/protocol.rs:173-190 | an empty object decodes to unset options and empty `capabilities` and `game_data_formats` |
| ClientCodec.ParseTag | src/protocol.rs:269-325 | only a variant name parses, to its own variant |
| ClientCodec.ParseTagName | src/protocol.rs:269-325 | every variant name parses back to its variant |
| ClientCodec.ParseTagRejects | src/protocol.rs:269-325 | a name fails to parse exactly when it names no variant |
| ClientCodec.TagOfVariant | src/protocol.rs:270-325 | each message variant has its own tag |
| ClientCodec.DecodeAuthenticate | src/protocol.rs:273-285 | the decoder yields an `Authenticate` |
| ClientCodec.AuthenticateRoundTrip | src/protocol.rs:273-285 | `Authenticate` fields round-trip with absent optional keys |
| ClientCodec.DecodeJoinRoom | src/protocol.rs:287-297 | the decoder yields a `JoinRoom` |
| ClientCodec.JoinRoomRoundTrip | src/protocol.rs:287-297 | `JoinRoom` fields round-trip with null optional values |
| ClientCodec.DecodeGameData | src/protocol.rs:301 | the decoder yields a `GameData` |
| ClientCodec.GameDataRoundTrip | src/protocol.rs:301 | the opaque payload round-trips |
| ClientCodec.DecodeAuthorityRequest | src/protocol.rs:303 | the decoder yields an `AuthorityRequest` |
| ClientCodec.AuthorityRequestRoundTrip | src/protocol.rs:303 | the flag round-trips |
| ClientCodec.DecodeProvideConnectionInfo | src/protocol.rs:307 | the decoder yields a `ProvideConnectionInfo` |
| ClientCodec.ProvideConnectionInfoRoundTrip | src/protocol.rs:307 | the connection info round-trips |
| ClientCodec.DecodeReconnect | src/protocol.rs:311-316 | the decoder yields a `Reconnect` |
| ClientCodec.ReconnectRoundTrip | src/protocol.rs:311-316 | player id, room id and token round-trip |
| ClientCodec.DecodeJoinAsSpectator | src/protocol.rs:318-322 | the decoder yields a `JoinAsSpectator` |
| ClientCodec.JoinAsSpectatorRoundTrip | src/protocol.rs:318-322 | the three names round-trip |
| ClientCodec.Content | src/protocol.rs:299-324 | exactly `LeaveRoom`, `PlayerReady`, `Ping` and `LeaveSpectator` have no `data` |
| ClientCodec.DecodeNoData | src/protocol.rs:299-324 | a message without `data` decodes exactly for the unit variants |
| ClientCodec.Decode | src/protocol.rs:268-269 | only an object with a `type` key or a two-element sequence `[name, content]` decodes |
| ClientCodec.DecodeSequence | src/protocol.rs:268-269 | the sequence form decodes only with exactly two elements |
| ClientCodec.DecodeDataTag | src/protocol.rs:269 | decoding a variant's `data` yields that variant |
| ClientCodec.DecodeTag | src/protocol.rs:268-269 | a decoded message's `type` (or the sequence's first element) is its variant name |
| ClientCodec.SequenceFormAgrees | src/protocol.rs:268-269 | the sequence `[name, content]` decodes exactly as the object `{"type": name, "data": content}` |
| ClientCodec.SequenceFormLength | src/protocol.rs:268-269 | a sequence of any other length than two is refused |
| ClientCodec.UnitInSequenceForm | src/protocol.rs:268-269 | `["Ping", null]` reads as `Ping` |
| ClientCodec.AuthenticateWithAppIdOnly | src/protocol.rs:277-284 | an `Authenticate` with only `app_id` decodes with every optional field unset |
| ClientCodec.JoinRoomWritesNulls | src/protocol.rs:287-297 | `JoinRoom` writes unset options as explicit nulls |
| ClientCodec.ContentRoundTrip | src/protocol.rs:268-325 | every variant's content decodes back to the message |
| ClientCodec.Encode | src/protocol.rs:268-325 | the adjacently tagged encoder; its properties are stated by `ClientCodec.RoundTrip` and `ClientCodec.EncodeShape` |
| ClientCodec.RoundTrip | src/protocol.rs:268-325 | `decode(encode(m)) == m` for every client message |
| ClientCodec.EncodeShape | src/protocol.rs:268-325 | every message is an object whose `type` is its variant name, with exactly `type` for unit variants and `type` and `data` for the rest |
| ClientCodec.DecodeUnknownTag | src/protocol.rs:269 | an unknown `type` is an unknown-variant error |
| ClientCodec.DecodeMissingType | src/protocol.rs:269 | a missing `type` is a missing-field error |
| ClientCodec.DecodeDataPresence | src/protocol.rs:268-325 | a missing `data` is accepted exactly for unit variants, for which a null `data` reads the same |
| ServerCodec.ParseTag | src/protocol.rs:329-451 | only a variant name parses, to its own variant |
| ServerCodec.ParseTagName | src/protocol.rs:329-451 | every variant name parses back to its variant |
| ServerCodec.ParseTagRejects | src/protocol.rs:329-451 | a name fails to parse exactly when it names no variant |
| ServerCodec.TagOfVariant | src/protocol.rs:330-451 | each message variant has its own tag |
| ServerCodec.DecodeAuthenticated | src/protocol.rs:332-340 | the decoder yields an `Authenticated` |
| ServerCodec.AuthenticatedRoundTrip | src/protocol.rs:332-340 | `Authenticated` fields round-trip |
| ServerCodec.DecodeAuthenticationError | src/protocol.rs:344-349 | the decoder yields an `AuthenticationError` |
| ServerCodec.AuthenticationErrorRoundTrip | src/protocol.rs:344-349 | message and code round-trip |
| ServerCodec.DecodeRoomJoinFailed | src/protocol.rs:353-357 | the decoder yields a `RoomJoinFailed` |
| ServerCodec.RoomJoinFailedRoundTrip | src/protocol.rs:353-357 | reason and optional code round-trip |
| ServerCodec.DecodePlayerJoined | src/protocol.rs:361 | the decoder yields a `PlayerJoined` |
| ServerCodec.PlayerJoinedRoundTrip | src/protocol.rs:361 | the player round-trips |
| ServerCodec.DecodePlayerLeft | src/protocol.rs:363 | the decoder yields a `PlayerLeft` |
| ServerCodec.PlayerLeftRoundTrip | src/protocol.rs:363 | the player id round-trips |
| ServerCodec.DecodeGameData | src/protocol.rs:365-368 | the decoder yields a `GameData` |
| ServerCodec.GameDataRoundTrip | src/protocol.rs:365-368 | sender and opaque payload round-trip |
| ServerCodec.DecodeGameDataBinary | src/protocol.rs:371-376 | the decoder yields a `GameDataBinary` |
| ServerCodec.GameDataBinaryRoundTrip | src/protocol.rs:371-376 | sender, encoding and bytes round-trip byte for byte |
| ServerCodec.DecodeAuthorityChanged | src/protocol.rs:378-381 | the decoder yields an `AuthorityChanged` |
| ServerCodec.AuthorityChangedRoundTrip | src/protocol.rs:378-381 | fields round-trip, a null authority included |
| ServerCodec.DecodeAuthorityResponse | src/protocol.rs:383-388 | the decoder yields an `AuthorityResponse` |
| ServerCodec.AuthorityResponseRoundTrip | src/protocol.rs:383-388 | fields round-trip |
| ServerCodec.DecodeLobbyStateChanged | src/protocol.rs:390-394 | the decoder yields a `LobbyStateChanged` |
| ServerCodec.LobbyStateChangedRoundTrip | src/protocol.rs:390-394 | fields round-trip |
| ServerCodec.DecodeGameStarting | src/protocol.rs:396-398 | the decoder yields a `GameStarting` |
| ServerCodec.GameStartingRoundTrip | src/protocol.rs:396-398 | the peer list round-trips |
| ServerCodec.DecodeReconnectionFailed | src/protocol.rs:404-407 | the decoder yields a `ReconnectionFailed` |
| ServerCodec.ReconnectionFailedRoundTrip | src/protocol.rs:404-407 | reason and code round-trip |
| ServerCodec.DecodePlayerReconnected | src/protocol.rs:409 | the decoder yields a `PlayerReconnected` |
| ServerCodec.PlayerReconnectedRoundTrip | src/protocol.rs:409 | the player id round-trips |
| ServerCodec.DecodeSpectatorJoinFailed | src/protocol.rs:413-417 | the decoder yields a `SpectatorJoinFailed` |
| ServerCodec.SpectatorJoinFailedRoundTrip | src/protocol.rs:413-417 | reason and optional code round-trip |
| ServerCodec.DecodeSpectatorLeft | src/protocol.rs:419-428 | the decoder yields a `SpectatorLeft` |
| ServerCodec.SpectatorLeftRoundTrip | src/protocol.rs:419-428 | all four fields round-trip, absent options included |
| ServerCodec.DecodeNewSpectatorJoined | src/protocol.rs:430-436 | the decoder yields a `NewSpectatorJoined` |
| ServerCodec.NewSpectatorJoinedRoundTrip | src/protocol.rs:430-436 | fields round-trip |
| ServerCodec.DecodeSpectatorDisconnected | src/protocol.rs:438-444 | the decoder yields a `SpectatorDisconnected` |
| ServerCodec.SpectatorDisconnectedRoundTrip | src/protocol.rs:438-444 | fields round-trip |
| ServerCodec.DecodeError | src/protocol.rs:446-450 | the decoder yields an `Error` |
| ServerCodec.ErrorRoundTrip | src/protocol.rs:446-450 | message and optional code round-trip |
| ServerCodec.DecodeProtocolInfoContent | src/protocol.rs:342 | the decoder yields a `ProtocolInfo` |
| ServerCodec.DecodeRoomJoinedContent | src/protocol.rs:351 | the decoder yields a `RoomJoined` |
| ServerCodec.DecodeSpectatorJoinedContent | src/protocol.rs:411 | the decoder yields a `SpectatorJoined` |
| ServerCodec.Content | src/protocol.rs:328-451 | exactly `RoomLeft` and `Pong` have no `data` |
| ServerCodec.DecodeNoData | src/protocol.rs:328-451 | a message without `data` decodes exactly for the unit variants |
| ServerCodec.Decode | src/protocol.rs:328-329 | only an object with a `type` key or a two-element sequence `[name, content]` decodes |
| ServerCodec.DecodeSequence | src/protocol.rs:328-329 | the sequence form decodes only with exactly two elements |
| ServerCodec.DecodeDataTag | src/protocol.rs:329 | decoding a variant's `data` yields that variant |
| ServerCodec.DecodeTag | src/protocol.rs:328-329 | a decoded message's `type` (or the sequence's first element) is its variant name |
| ServerCodec.SequenceFormAgrees | src/protocol.rs:328-329 | the sequence `[name, content]` decodes exactly as the object `{"type": name, "data": content}` |
| ServerCodec.SequenceFormLength | src/protocol.rs:328-329 | a sequence of any other length than two is refused |
| ServerCodec.UnitInSequenceForm | src/protocol.rs:328-329 | `["Pong", null]` reads as `Pong` |
| ServerCodec.DecodeReconnected | src/protocol.rs:402 | the decoder yields a `Reconnected` |
| ServerCodec.DecodeEvents | src/protocol.rs:244-247 | a decoded event list has one message per item |
| ServerCodec.DecodeEventsStep | src/protocol.rs:244-247 | the event list decodes item by item |
| ServerCodec.DecodeRoomBesideEvents | src/protocol.rs:231-248 | the room fields of `Reconnected` decode regardless of `missed_events` |
| ServerCodec.ReconnectedRoundTrip | src/protocol.rs:231-248 | `Reconnected`, with its nested missed events, round-trips |
| ServerCodec.EventsDecode | src/protocol.rs:244-247 | items that each decode to their message decode, as a list, to the message list |
| ServerCodec.ContentRoundTrip | src/protocol.rs:329-451 | every variant's content decodes back to the message |
| ServerCodec.Encode | src/protocol.rs:328-451 | the adjacently tagged encoder; its properties are stated by `ServerCodec.RoundTrip` and `ServerCodec.EncodeShape` |
| ServerCodec.RoundTrip | src/protocol.rs:329-451 | `decode(encode(m)) == m` for every server message, nested ones included |
| ServerCodec.EncodeShape | src/protocol.rs:328-451 | every message is an object whose `type` is its variant name, with exactly `type` for unit variants and `type` and `data` for the rest |
| ServerCodec.DecodeUnknownTag | src/protocol.rs:329 | an unknown `type` is an unknown-variant error, not a crash |
| ServerCodec.DecodeMissingType | src/protocol.rs:329 | a missing `type` is a missing-field error |
| ServerCodec.DecodeDataPresence | src/protocol.rs:328-451 | a missing `data` is accepted exactly for unit variants |
| ErrorCodes.Name | src/error_codes.rs:16-73 | the wire name of each code; its properties are stated by `ErrorCodes.ParseName`, `ErrorCodes.NameSpelling`, `ErrorCodes.NameFollowsRenameRule` and `ErrorCodes.NameInjective` |
| ErrorCodes.Parse | src/error_codes.rs:16-73 | only a wire name parses, to its own code |
| ErrorCodes.ParseName | src/error_codes.rs:16-73 | every code's wire name parses back to it |
| ErrorCodes.NameSpelling | src/error_codes.rs:16 | every wire name is made of `A`-`Z` and `_` |
| ErrorCodes.NameFollowsRenameRule | src/error_codes.rs:16-73 | every wire name is the variant name converted to SCREAMING_SNAKE_CASE |
| ErrorCodes.ParseRejects | src/error_codes.rs:16-73 | a string that does not parse is no code's wire name |
| ErrorCodes.RateLimitExceededFromWire | src/error_codes.rs:16-73 | `"RATE_LIMIT_EXCEEDED"` parses to `RateLimitExceeded` |
| ErrorCodes.RoomNotFoundOnWire | src/error_codes.rs:10-16 | `RoomNotFound` is `"ROOM_NOT_FOUND"` on the wire, both ways |
| ErrorCodes.NameInjective | src/error_codes.rs:16-73 | distinct codes have distinct wire names |
| ErrorCodes.Description | src/error_codes.rs:80-218 | the text of each code; its property is stated by `ErrorCodes.DescriptionNotEmpty` |
| ErrorCodes.DescriptionNotEmpty | src/error_codes.rs:80-218 | every description is non-empty |
| ErrorCodes.Display | src/error_codes.rs:221-225 | a code is displayed as its description, so its display text is never empty |
| SnakeCase.SnakeMatchesSound | src/error_codes.rs:16 | a character-by-character match certifies a SCREAMING_SNAKE_CASE conversion |
| Errors.Display | src/error.rs:8-49 | the display text of each error; its properties are stated by `Errors.FromDisplayOfDisplay`, `Errors.DisplayInjective` and `Errors.ServerErrorIgnoresCode` |
| Errors.FromDisplay | src/error.rs:8-49 | a recognised text is the display of the error it returns |
| Errors.FromDisplayOfDisplay | src/error.rs:8-49 | every error's display text is recognised as that error (with the server error code dropped) |
| Errors.DisplayInjective | src/error.rs:8-49 | two errors with the same text differ at most in the server error code |
| Errors.ServerErrorIgnoresCode | src/error.rs:33-40 | `ServerError` displays `"server error: "` and the message, whatever its code |
| Uuid.FromToHex | src/protocol.rs:129-138 | a number's fixed-width hex text reads back as the number |
| Uuid.Format | src/protocol.rs:129-138 | a UUID's text has 36 characters |
| Uuid.Parse | src/protocol.rs:129-138 | only 36-character text parses |
| Uuid.ParseFormat | src/protocol.rs:129-138 | a UUID's text parses back to it |
| Uuid.FormatInjective | src/protocol.rs:129-138 | distinct UUIDs have distinct texts |
| JsonTree.DecodeItems | src/protocol.rs:392 | a list decodes exactly when every item does, item by item |
| JsonTree.ArrayRoundTrip | src/protocol.rs:392 | a list of round-tripping items round-trips |
| JsonTree.Field | src/protocol.rs:288 | a missing required key is a missing-field error |
| JsonTree.OptionalField | src/protocol.rs:289 | an absent or null key reads as `None` |
| JsonTree.DefaultField | src/protocol.rs:182-183 | an absent `#[serde(default)]` key reads as the default |
| JsonTree.OptionalRoundTrip | src/protocol.rs:277-278 | a field skipped when `None` reads back as the option |
| JsonTree.NullableRoundTrip | src/protocol.rs:289 | a field written as null when `None` reads back as the option |
| JsonTree.Tagged | src/protocol.rs:269 | an adjacently tagged object has `type` and, only when there is content, `data` |
| JsonTree.DecodeUnit | src/protocol.rs:299 | a unit variant accepts only null content |
| CiConfig.JobBlock | tests/ci_config_tests.rs:362-386 | the job block a workflow holds; its properties are stated by `CiConfig.BlockFound` and `CiConfig.BlockBounds` |
| CiConfig.BlockFound | tests/ci_config_tests.rs:362-386 | no block exactly when no line, right-trimmed, equals the job header |
| CiConfig.BlockBounds | tests/ci_config_tests.rs:362-386 | the block starts at the first header line and runs up to, not including, the next two-space `name:` line |
| CiConfig.ExtractJobBlock | tests/ci_config_tests.rs:362-386 | the loop computes the specified job block |
| CiConfig.ScanJobLines | tests/ci_config_tests.rs:367-383 | the collected lines are those from the header up to the next job |
| CiConfig.IsSemverLikeRef | tests/ci_config_tests.rs:388-392 | a ref of digits and dots with some digit; its properties are stated by `CiConfig.AllDigitsOrDots`, `CiConfig.AnyDigit` and `CiConfig.SemverLikeRefExamples` |
| CiConfig.AllDigitsOrDots | tests/ci_config_tests.rs:390-391 | true exactly when every character is a digit or a dot |
| CiConfig.AnyDigit | tests/ci_config_tests.rs:390-391 | true exactly when some character is a digit |
| CiConfig.SemverLikeRefExamples | tests/ci_config_tests.rs:388-392 | `1.85.0` is semver-like; `stable`, `1a2b`, `...` and the empty string are not |
| CiConfig.AnySemverLikeRefExact | tests/ci_config_tests.rs:395-409 | the scan finds a semver-like `rust-toolchain@` ref exactly when some line has one |
| CiConfig.FirstToolchainAt | tests/ci_config_tests.rs:422-428 | the value used is that of the first `toolchain:` line |
| CiConfig.ValidateMsrvToolchainStep | tests/ci_config_tests.rs:394-437 | a rejection carries one of the three messages |
| CiConfig.MsrvMessagesDistinct | tests/ci_config_tests.rs:394-437 | the three messages differ, so each rejection is identifiable |
| CiConfig.MsrvSemverRefRejected | tests/ci_config_tests.rs:395-416 | the semver-ref rejection happens exactly when some line has such a ref |
| CiConfig.MsrvStableRequired | tests/ci_config_tests.rs:418-420 | otherwise the missing-stable rejection happens exactly when the block lacks `uses: dtolnay/rust-toolchain@stable` |
| CiConfig.MsrvAccepted | tests/ci_config_tests.rs:394-437 | accepted exactly when there is no semver ref, the stable action is used and the first `toolchain:` value, unquoted, is the version |
| CiConfig.Decimal | tests/ci_config_tests.rs:1025-1041 | a line number prints as a non-empty digit string; `CiConfig.DecimalValue` states which number it denotes |
| CiConfig.DigitsValue | tests/ci_config_tests.rs:1025-1041 | the number a digit string denotes, read left to right, independent of `Decimal` |
| CiConfig.DecimalValue | tests/ci_config_tests.rs:1025-1041 | the printed line number denotes the number itself, and starts with `0` only when the number is 0, which prints as `"0"` |
| CiConfig.FirstForbidden | tests/ci_config_tests.rs:1030-1036 | the first separator, in the order `" -- "`, `" — "`, `" – "`, that the line contains, or none exactly when it contains none |
| CiConfig.ValidateSc2317DirectiveLine | tests/ci_config_tests.rs:1017-1046 | accepted exactly when the line has the directive prefix, no forbidden separator, and either no trailing text or the `  # ` rationale marker; every error names the path and line; the exact message for a missing prefix, for the first forbidden separator found, and for a rationale without the marker |
| CiConfig.HashRun | tests/ci_config_tests.rs:1702-1706 | the count is the run of leading `#` characters |
| CiConfig.IsHeadingLine | tests/ci_config_tests.rs:1702-1706 | the heading recogniser; its property is stated by `CiConfig.HeadingLineShape` |
| CiConfig.HeadingLineShape | tests/ci_config_tests.rs:1702-1706 | a heading is 1 to 6 `#` after leading whitespace, then a space |
| CiConfig.AllDigits | tests/ci_config_tests.rs:1708-1720 | true exactly when every character is a digit |
| CiConfig.IsListItemLine | tests/ci_config_tests.rs:1708-1720 | the list-item recogniser; its property is stated by `CiConfig.ListItemShape` |
| CiConfig.ListItemShape | tests/ci_config_tests.rs:1708-1720 | a list item is a `- `, `* ` or `+ ` bullet or a non-empty digit run followed by `. ` |
| CiConfig.NavEntry | tests/ci_config_tests.rs:1339-1350 | a reported target ends in `.md` |
| CiConfig.NumberedExact | tests/ci_config_tests.rs:1318-1351 | the entries in a range are reported with their 1-based line numbers, in order |
| CiConfig.NavFileReferences | tests/ci_config_tests.rs:1314-1354 | the nav references a configuration holds; its properties are stated by `CiConfig.NavReferencesExact` and `CiConfig.NavReferencesAreMarkdown` |
| CiConfig.NavReferencesExact | tests/ci_config_tests.rs:1314-1354 | exactly the entry lines after `nav:` and before the next top-level key are reported, in order, with 1-based numbers |
| CiConfig.NavReferencesAreMarkdown | tests/ci_config_tests.rs:1339-1350 | every reported file ends in `.md` |
| CiConfig.LastSeparator | tests/ci_config_tests.rs:1340-1342 | a labelled entry splits on its last `": "` |
| CiConfig.LabelledEntry | tests/ci_config_tests.rs:1339-1345 | `- Title: file.md` reports `file.md` |
| CiConfig.ExtractNavFileReferences | tests/ci_config_tests.rs:1314-1354 | the loop computes the specified references |
| CiConfig.ScanNav | tests/ci_config_tests.rs:1318-1351 | the loop over classified lines computes the specified references |
| CiConfig.ExtractH1 | tests/ci_config_tests.rs:1918-1940 | returns the first `# ` heading outside fences |
| CiConfig.CardTarget | tests/ci_config_tests.rs:1955-1964 | a card target ends in `.md` and does not start with `http` |
| CiConfig.CardLink | tests/ci_config_tests.rs:1947-1969 | a reported card line has the card prefix, its label and a local `.md` target |
| CiConfig.CardLinksExact | tests/ci_config_tests.rs:1947-1969 | exactly the card lines with local Markdown targets are reported |
| CiConfig.ExtractNavCardLinks | tests/ci_config_tests.rs:1947-1969 | the loop computes the specified links, in order |
| Markdown.FenceKinds | scripts/pre-commit-llm.py:166-175 | an open fence is a backtick or a tilde fence |
| Markdown.FenceClosesOnlyOnSameChar | scripts/pre-commit-llm.py:169-175 | an open fence closes only on a fence line of its own character |
| Markdown.FirstH1 | scripts/pre-commit-llm.py:161-181 | the first heading outside fences; its properties are stated by `Markdown.FirstH1Found` and `Markdown.FencedHeadingIgnored` |
| Markdown.FirstH1Found | scripts/pre-commit-llm.py:161-181 | a heading is found exactly when one exists outside fences, and it is the earliest |
| Markdown.FencedHeadingIgnored | scripts/pre-commit-llm.py:177-178 | a heading inside a fence, even an unclosed one, is never the result |
| Markdown.ScanH1 | scripts/pre-commit-llm.py:166-180 | the loop computes the first heading outside fences |
| PreCommitLlm.Title | scripts/pre-commit-llm.py:161-181 | the skill title; its property is stated by `PreCommitLlm.TitleFound` |
| PreCommitLlm.TitleFound | scripts/pre-commit-llm.py:161-181 | the title is the earliest heading outside fences, or `(Untitled)` when there is none |
| PreCommitLlm.ExtractTitle | scripts/pre-commit-llm.py:161-181 | the loop computes the specified title |
| PreCommitLlm.FirstParagraph | scripts/pre-commit-llm.py:184-225 | the first paragraph; its properties are stated by `PreCommitLlm.ParagraphShape` and `PreCommitLlm.ParagraphEmptyIffNoContent` |
| PreCommitLlm.ParagraphShape | scripts/pre-commit-llm.py:184-225 | the paragraph is the first run of content lines; nothing before it is content and it ends at the first non-content line |
| PreCommitLlm.ParagraphEmptyIffNoContent | scripts/pre-commit-llm.py:184-225 | the paragraph is empty exactly when no line outside fences is content |
| PreCommitLlm.ExtractFirstParagraph | scripts/pre-commit-llm.py:184-225 | the function computes the specified paragraph |
| PreCommitLlm.ScanParagraph | scripts/pre-commit-llm.py:196-223 | the loop collects exactly the first content run, each line stripped |
| PreCommitLlm.Truncated | scripts/pre-commit-llm.py:253-255 | the result fits 120 characters or is the input |
| PreCommitLlm.TruncatedBounds | scripts/pre-commit-llm.py:253-255 | at most 120 characters; a short text is kept; a long one becomes its first 117 characters and `...` |
| PreCommitLlm.UnreadableSkillsIgnored | scripts/pre-commit-llm.py:245-248 | a file whose read raised `OSError` adds no lines (an undecodable file aborts the script instead; see "## Left out") |
| PreCommitLlm.EntryLinesBounded | scripts/pre-commit-llm.py:250-261 | every description line of the index has at most 120 characters |
| PreCommitLlm.SkillEntry | scripts/pre-commit-llm.py:243-261 | one loop iteration appends the specified entry |
| PreCommitLlm.IndexLines | scripts/pre-commit-llm.py:228-270 | the index page's lines; its properties are stated by `PreCommitLlm.GenerateIndex` and `PreCommitLlm.EntryLinesBounded` |
| PreCommitLlm.GenerateIndex | scripts/pre-commit-llm.py:228-270 | the page is the header, each readable skill's entry in order, then the footer, joined by newlines |

## Left out

- Concurrency. `tokio::select!`, `spawn`, the oneshot channel and task abort become inputs the caller chooses (`Input`), and any ready input may come. The loop's waits are `select!`, `transport.send`, `transport.close()` and the blocking send of `Disconnected`; each is a point where the model's steps meet. The model does not capture tokio's fairness or the point at which a cancelled task stops: a task aborted by `Drop` may take further ready steps before `Cancelled` arrives.
- Client.SignalFishClient.WaitForLoop: the abort lands only at one of the four waits above. `update_state` also awaits a mutex lock before each of its stores, and the model takes those stores as one step. So an abort, or an accessor that reads the state, between a stored room id and its room code is not modelled, and the room fields are paired only at step boundaries.
- Client.SignalFishClient.Shutdown: wall-clock time is not modelled. The steps the engine takes before the timeout expires are a parameter, and the join error of a panicked task is not modelled.
- Client.SignalFishClient.Receive: `transport.recv` is an input; the websocket transport (`src/transports/websocket.rs`) and the `Transport` trait are not part of this model.
- Client.ReadFrame: JSON text is not lexed. A frame is either an already parsed tree (`Some`) or unparseable text (`None`).
- Client.SignalFishClient.TakeCommand: serializing a `ClientMessage` cannot fail in the model, so the log-and-continue branch for a serialization error does not exist.
- The event conversion `SignalFishEvent::from(ServerMessage)` lives in `src/event.rs`, which is not part of this model. It is modelled as one event per server message (`FromServer`).
- The request methods other than `join_room` (`leave_room`, `send_game_data`, `set_ready`, ...) all call `send` with a fixed message. They are covered by `Client.SignalFishClient.Send`. The state accessors are read-only and are not modelled.
- Logging (`tracing`) is not modelled.
- JSON lexing, escaping and number formats are not modelled. Numbers are integers. `serde_json::Value` payloads are opaque trees. A byte payload is read only as the array of numbers `serde_bytes` writes.
- ClientCodec.Decode: serde's derived visitor also reads a struct variant's `data`, and every payload struct, from an array of its fields in declaration order. The model refuses that form and reads `data` only as an object.
- ServerCodec.Decode: the same array-of-fields form of `data` and of the payload structs is refused here too.
- ProtocolCodec.AsConnectionInfo: serde also reads an internally tagged enum from a sequence whose first element is the tag. The model reads `ConnectionInfo` only from an object.
- ServerCodec.DecodeGameDataBinary: `serde_bytes` also accepts a JSON string, taking its UTF-8 bytes, as the payload. The model refuses a string payload.
- Uuid.Parse: only the canonical hyphenated form is accepted (either hex case). The uuid crate also accepts other forms.
- Errors.FromDisplay: `ServerError`'s code is not displayed, so it cannot be recovered from the text.
- `SignalFishError::Serialization` and `Io` carry the inner error's display text as a string.
- A test in `tests/protocol_tests.rs` names `ErrorCode::DatabaseError`. The enum in `src/error_codes.rs` has `StorageError`, and the model follows the enum.
- Text primitives follow Rust's `str::trim` and `str::lines`. The Python script uses `str.strip` and `str.splitlines`. `splitlines` also splits on `\r`, `\v`, `\f`, `\x1c`-`\x1e`, `\x85`, `\u2028` and `\u2029`, and `strip` also strips `\x1c`-`\x1f`. The model does not make those distinctions, so on text holding those characters it can differ from the script.
- PreCommitLlm.GenerateIndex: each skill's path relative to the skills directory is given as a string. A skill without text (`Skill(rel, None)`) stands only for a read that raised `OSError`, which the script skips. A file that is not valid UTF-8 makes `read_text` raise `UnicodeDecodeError`, a `ValueError` that neither `generate_index` nor `main` catches, so the script aborts; the model's texts are already decoded and it does not represent that abort. The directory walk, `git_add` and the file write are not modelled.
- The CI-configuration tests' file reading, their regex-based validators, and the pre-commit checks other than title, paragraph and index generation are not modelled.
- CiConfig.ScanNav and CiConfig.ExtractNavCardLinks loop over lines that are already classified or parsed. The per-line classification is a function proved on its own.
