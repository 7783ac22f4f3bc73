/**
  The client's error type and its `Display` texts. The two errors that wrap
  foreign error types (JSON and I/O errors) carry the wrapped error's own text.
*/
module Errors {
  import opened Wrappers
  import ErrorCodes
  import Text

  datatype SignalFishError =
    | TransportSend(detail: string)
    | TransportReceive(detail: string)
    | TransportClosed
    | Serialization(detail: string)
    | NotConnected
    | NotInRoom
    | ServerError(message: string, errorCode: Option<ErrorCodes.ErrorCode>)
    | Timeout
    | Io(detail: string)

  /** The `Display` text of an error (thiserror's `#[error(...)]` formats). */
  function Display(e: SignalFishError): string {
    match e
    case TransportSend(d) => "transport send error: " + d
    case TransportReceive(d) => "transport receive error: " + d
    case TransportClosed => "transport connection closed"
    case Serialization(d) => "serialization error: " + d
    case NotConnected => "not connected to server"
    case NotInRoom => "not in a room"
    case ServerError(m, _) => "server error: " + m
    case Timeout => "operation timed out"
    case Io(d) => "I/O error: " + d
  }

  /** The error with its server error code removed: all that its text shows. */
  function Erase(e: SignalFishError): SignalFishError {
    if e.ServerError? then ServerError(e.message, None) else e
  }

  const SEND_LEAD := "transport send error: "
  const RECEIVE_LEAD := "transport receive error: "
  const SERIALIZATION_LEAD := "serialization error: "
  const SERVER_LEAD := "server error: "
  const IO_LEAD := "I/O error: "

  /** Reads an error back from its text; the server error code is not recoverable. */
  function FromDisplay(s: string): (r: Option<SignalFishError>)
    ensures r.Some? ==> Display(r.value) == s && Erase(r.value) == r.value
  {
    if Text.StartsWith(s, SEND_LEAD) then Some(TransportSend(s[|SEND_LEAD|..]))
    else if Text.StartsWith(s, RECEIVE_LEAD) then Some(TransportReceive(s[|RECEIVE_LEAD|..]))
    else if Text.StartsWith(s, SERIALIZATION_LEAD) then Some(Serialization(s[|SERIALIZATION_LEAD|..]))
    else if Text.StartsWith(s, SERVER_LEAD) then Some(ServerError(s[|SERVER_LEAD|..], None))
    else if Text.StartsWith(s, IO_LEAD) then Some(Io(s[|IO_LEAD|..]))
    else if s == Display(TransportClosed) then Some(TransportClosed)
    else if s == Display(NotConnected) then Some(NotConnected)
    else if s == Display(NotInRoom) then Some(NotInRoom)
    else if s == Display(Timeout) then Some(Timeout)
    else None
  }

  /** The text of an error identifies it, up to the server error code. */
  lemma FromDisplayOfDisplay(e: SignalFishError)
    ensures FromDisplay(Display(e)) == Some(Erase(e))
  {
    var s := Display(e);
    match e
    case TransportSend(d) =>
      assert s[..|SEND_LEAD|] == SEND_LEAD;
    case TransportReceive(d) =>
      assert s[10] == 'r';
      assert s[..|RECEIVE_LEAD|] == RECEIVE_LEAD;
    case Serialization(d) =>
      assert s[0] == 's' && s[3] == 'i';
      assert s[..|SERIALIZATION_LEAD|] == SERIALIZATION_LEAD;
    case ServerError(m, _) =>
      assert s[0] == 's' && s[3] == 'v';
      assert s[..|SERVER_LEAD|] == SERVER_LEAD;
    case Io(d) =>
      assert s[0] == 'I';
      assert s[..|IO_LEAD|] == IO_LEAD;
    case TransportClosed =>
      assert s[10] == 'c';
    case NotConnected =>
      assert s[0] == 'n';
    case NotInRoom =>
      assert s[0] == 'n' && s[4] == 'i';
    case Timeout =>
      assert s[0] == 'o';
  }

  /** Errors with the same text are the same error, up to the server error code. */
  lemma DisplayInjective(e: SignalFishError, f: SignalFishError)
    requires Display(e) == Display(f)
    ensures Erase(e) == Erase(f)
  {
    FromDisplayOfDisplay(e);
    FromDisplayOfDisplay(f);
  }

  /** A server error is displayed by its message alone: the error code does not show. */
  lemma ServerErrorIgnoresCode(m: string, c: Option<ErrorCodes.ErrorCode>, d: Option<ErrorCodes.ErrorCode>)
    ensures Display(ServerError(m, c)) == Display(ServerError(m, d)) == "server error: " + m
  {
  }
}
