/**
 * The vocabulary shared by every part of the client: the message tags of the
 * Apollo "graphql-ws" subscription protocol, decoded JSON values, frames, what
 * the receiving side of the socket yields, user callbacks, and the exceptions
 * the client raises.
 */
module Protocol {

  datatype Option<+T> = None | Some(value: T)

  /** Results of pure operations that can raise. */
  datatype Result<+T> = Ok(value: T) | Err(error: Exception)

  /** How a blocking client call ends: it returns, it raises, or it waits
      forever on a queue that no frame will ever reach. */
  datatype Outcome<+T> = Returned(value: T) | Raised(error: Exception) | Blocked

  // Message tags of the protocol.
  const CONNECTION_INIT := "connection_init"
  const START := "start"
  const STOP := "stop"
  const CONNECTION_TERMINATE := "connection_terminate"
  const CONNECTION_ERROR := "connection_error"
  const CONNECTION_ACK := "connection_ack"
  const DATA := "data"
  const ERROR := "error"
  const COMPLETE := "complete"
  const KEEP_ALIVE := "ka"

  /** Operation identifiers are opaque strings. */
  type OpId = string

  /** A decoded JSON value (floating-point numbers are not modelled). */
  datatype Json =
    | JNull
    | JBool(b: bool)
    | JInt(i: int)
    | JStr(s: string)
    | JArray(items: seq<Json>)
    | JObject(fields: map<string, Json>)

  /** Python's truth value of a decoded JSON value. */
  predicate Truthy(j: Json) {
    match j
    case JNull => false
    case JBool(b) => b
    case JInt(i) => i != 0
    case JStr(s) => s != ""
    case JArray(items) => items != []
    case JObject(fields) => fields != map[]
  }

  /** A frame on the wire: a JSON object with a `type` key and optional
      `id` and `payload` keys. */
  datatype Frame = Frame(typ: string, id: Option<OpId>, payload: Option<Json>)

  /** One message read from the socket: text that is not JSON, or a frame. */
  datatype Input = Malformed | Received(frame: Frame)

  /** A user callback, known only by its identity. */
  datatype Callback = Callback(handle: nat)

  /** The `callback` argument as the caller passes it: missing (None or
      another falsy value), an object that cannot be called, or a function. */
  datatype CallbackArg = Absent | NotCallable | Fn(callback: Callback)

  /** One call `callback(op_id, frame)` made by the receiver. */
  datatype Invocation = Invocation(callback: Callback, opId: OpId, frame: Frame)

  datatype Exception =
    | ConnectionException(detail: Json)     // handshake refused or not understood
    | SessionRefused(headers: Json)         // the transport's "could not initialise session" error
    | InvalidPayloadException(frame: Frame) // protocol violation seen by the receiver
    | TypeError(message: string)
    | KeyError(key: string)
    | IndexError(message: string)
    | TransportException(message: string)
    | JSONDecodeError
}
