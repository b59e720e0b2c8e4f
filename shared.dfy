/**
 * Types shared by the signalling server and its client: the closed set of
 * error kinds (src/types/shared.ts), the error record that is sent with an
 * `error` event, and the dynamically typed values a client may put into a
 * request.
 */
module Shared {

  datatype Option<+T> = None | Some(value: T)

  /** The closed `ErrorType` union of src/types/shared.ts. */
  datatype ErrorType =
    | Timeout
    | NoSuchPeer
    | InvalidMessage
    | ProtocolError
    | NoSuchChannel
    | ServerError
    | ChannelAlreadyExists
    | InvalidRequest

  /** The string literal that names each error kind on the wire. */
  function ErrorTypeName(e: ErrorType): (name: string)
    ensures |name| > 0
    ensures forall i :: 0 <= i < |name| ==> 'a' <= name[i] <= 'z' || name[i] == '_'
  {
    match e
    case Timeout => "timeout"
    case NoSuchPeer => "no_such_peer"
    case InvalidMessage => "invalid_message"
    case ProtocolError => "protocol_error"
    case NoSuchChannel => "no_such_channel"
    case ServerError => "server_error"
    case ChannelAlreadyExists => "channel_already_exists"
    case InvalidRequest => "invalid_request"
  }

  /** Reads a wire name back into an error kind; any other string is not one. */
  function ParseErrorType(s: string): (r: Option<ErrorType>)
    ensures r.Some? ==> ErrorTypeName(r.value) == s
  {
    if s == "timeout" then Some(Timeout)
    else if s == "no_such_peer" then Some(NoSuchPeer)
    else if s == "invalid_message" then Some(InvalidMessage)
    else if s == "protocol_error" then Some(ProtocolError)
    else if s == "no_such_channel" then Some(NoSuchChannel)
    else if s == "server_error" then Some(ServerError)
    else if s == "channel_already_exists" then Some(ChannelAlreadyExists)
    else if s == "invalid_request" then Some(InvalidRequest)
    else None
  }

  /** Every error kind's name reads back as that kind, so the names are distinct. */
  lemma ErrorTypeNameRoundTrip(e: ErrorType)
    ensures ParseErrorType(ErrorTypeName(e)) == Some(e)
  {
  }

  lemma ErrorTypeNameInjective(e1: ErrorType, e2: ErrorType)
    ensures ErrorTypeName(e1) == ErrorTypeName(e2) <==> e1 == e2
  {
    ErrorTypeNameRoundTrip(e1);
    ErrorTypeNameRoundTrip(e2);
  }

  /**
   * The `SignalError` record of src/types/shared.ts: a kind and a
   * human-readable message. The server always fills in the message.
   */
  datatype SignalError = SignalError(kind: ErrorType, message: string)

  /**
   * A JavaScript value as it arrives in a request (`payload: any`).
   * Numbers are kept as reals; NaN is its own case.
   */
  datatype JsValue =
    | Undefined
    | Null
    | Bool(b: bool)
    | Number(x: real)
    | NaN
    | Str(s: string)
    | Object(ref: nat)

  /**
   * JavaScript truthiness: `!v` is true exactly for the six falsy values
   * undefined, null, false, 0, NaN and "".
   */
  predicate Truthy(v: JsValue)
    ensures !Truthy(v) <==>
      v == Undefined || v == Null || v == Bool(false) || v == Number(0.0) || v == NaN || v == Str("")
  {
    match v
    case Undefined => false
    case Null => false
    case Bool(b) => b
    case Number(x) => x != 0.0
    case NaN => false
    case Str(s) => s != ""
    case Object(_) => true
  }

  /** A JavaScript exception: the TypeError the engine raises, or `new Error(message)`. */
  datatype JsError = TypeError | NewError(message: string)

  /** Whether a handler or method returned normally or threw. */
  datatype Outcome = Returned | Threw(error: JsError)
}
