/**
 * The alternate websocket transport of graphql_client/transport/websocket.py
 * as a pure state machine over a Transport value: frame building, the
 * bounded wait for a reply, the session handshake, one-shot execution and
 * the bookkeeping of running subscriptions. The class in module WsEngine
 * changes its fields exactly as these functions say.
 *
 * As for the main client, the socket is two sequences: `sent`, the frames
 * written, and `incoming`, the messages the server has sent and the
 * transport has not read yet.
 */
module WsTransport {
  import opened Protocol

  const DEFAULT_RETRIES: nat := 10
  const RETRIES_OVER := "unexpected error: retries over; no response from server"
  const EMPTY_CHOICE := "Cannot choose from an empty sequence"

  /** Python's `string.ascii_letters + string.digits`, the default id alphabet. */
  const ASCII_LOWERCASE := "abcdefghijklmnopqrstuvwxyz"
  const ASCII_UPPERCASE := "ABCDEFGHIJKLMNOPQRSTUVWXYZ"
  const DIGITS := "0123456789"
  const ID_CHARS := ASCII_LOWERCASE + ASCII_UPPERCASE + DIGITS
  const ID_SIZE: nat := 6

  // Frames.

  /** `if operation_id:` — an id counts only when it is a non-empty string. */
  predicate IdGiven(opId: Option<OpId>) {
    opId.Some? && opId.value != ""
  }

  /** The frame `_send_msg` writes: always the type; the payload only when
      it is truthy; the id only when it is given. */
  function BuildFrame(msg: string, payload: Json, opId: Option<OpId>): (f: Frame)
    ensures f.typ == msg
    ensures f.payload.Some? <==> Truthy(payload)
    ensures f.payload.Some? ==> f.payload.value == payload
    ensures f.id.Some? <==> IdGiven(opId)
    ensures f.id.Some? ==> f.id == opId
  {
    Frame(msg, if IdGiven(opId) then opId else None, if Truthy(payload) then Some(payload) else None)
  }

  // The bounded wait.

  /** The operation `opId` names has been stopped. */
  predicate Stopped(opId: Option<OpId>, running: map<OpId, bool>) {
    IdGiven(opId) && opId.value in running && !running[opId.value]
  }

  /** What `_wait_for` ends with, and how many messages it read. */
  datatype Wait = Wait(outcome: Outcome<Frame>, used: nat)

  /** `_wait_for`: read messages until one has a wanted type, at most
      `retries` of them. Text that is not JSON raises; an id that is not in
      the operation map raises KeyError; once the operation is stopped, the
      next frame is returned whatever its type. When the server sends
      nothing more, the read blocks forever. */
  function WaitFor(incoming: seq<Input>, types: seq<string>, opId: Option<OpId>, retries: nat,
                   running: map<OpId, bool>): (r: Wait)
    ensures r.used <= retries && r.used <= |incoming|
    ensures forall i :: 0 <= i < r.used - 1 ==>
      incoming[i].Received? && incoming[i].frame.typ !in types && !Stopped(opId, running)
    ensures r.outcome.Returned? ==>
      && 1 <= r.used && incoming[r.used - 1] == Received(r.outcome.value)
      && (r.outcome.value.typ in types || Stopped(opId, running))
    ensures r.outcome == Raised(TransportException(RETRIES_OVER)) ==> r.used == retries
    ensures r.outcome == Raised(JSONDecodeError) ==> 1 <= r.used && incoming[r.used - 1] == Malformed
    ensures r.outcome.Blocked? ==> r.used == |incoming| < retries
    ensures r.outcome.Raised? ==>
      r.outcome.error == TransportException(RETRIES_OVER) || r.outcome.error == JSONDecodeError
      || (r.outcome.error.KeyError? && IdGiven(opId) && r.outcome.error.key == opId.value && opId.value !in running)
    decreases retries
  {
    if retries == 0 then Wait(Raised(TransportException(RETRIES_OVER)), 0)
    else if incoming == [] then Wait(Blocked, 0)
    else match incoming[0]
      case Malformed => Wait(Raised(JSONDecodeError), 1)
      case Received(f) =>
        if IdGiven(opId) && opId.value !in running then Wait(Raised(KeyError(opId.value)), 1)
        else if Stopped(opId, running) then Wait(Returned(f), 1)
        else if f.typ in types then Wait(Returned(f), 1)
        else
          var rest := WaitFor(incoming[1..], types, opId, retries - 1, running);
          Wait(rest.outcome, rest.used + 1)
  }

  // Identifiers.

  /** `gen_id`: `size` characters, the i-th being `chars[draw(i) % |chars|]`;
      `draw` stands for the random draws. Choosing from an empty alphabet
      raises IndexError. */
  function GenId(size: nat, chars: string, draw: nat -> nat): (r: Result<string>)
    ensures r.Err? <==> size > 0 && chars == []
    ensures r.Ok? ==> |r.value| == size && forall i :: 0 <= i < size ==> r.value[i] in chars
  {
    if size == 0 then Ok("")
    else if chars == [] then Err(IndexError(EMPTY_CHOICE))
    else Ok(seq(size, i requires 0 <= i < size => chars[draw(i) % |chars|]))
  }

  /** The id `execute` and `subscribe` draw: `gen_id()` with its defaults. */
  function NewId(draw: nat -> nat): (id: OpId)
    ensures |id| == ID_SIZE
  {
    assert ID_CHARS[0] == 'a';
    GenId(ID_SIZE, ID_CHARS, draw).value
  }

  // The transport's state.

  datatype Transport = Transport(
    connected: bool,                // `client` has been created
    connections: nat,               // connections opened so far
    headers: Json,                  // headers of the last set_session (JNull for None)
    initDone: bool,                 // `_connection_init_done`
    operations: map<OpId, bool>,    // `_operation_map`: each id's `running` flag
    sent: seq<Frame>,               // frames written to the socket
    incoming: seq<Input>)           // messages the server sent, not yet read

  /** `__init__`: no connection yet; the server will send `incoming`. */
  function Fresh(incoming: seq<Input>): Transport {
    Transport(false, 0, JNull, false, map[], [], incoming)
  }

  /** A failed outcome seen through another result type. */
  function Propagate<T, U>(o: Outcome<T>): Outcome<U>
    requires !o.Returned?
  {
    if o.Raised? then Raised(o.error) else Blocked
  }

  /** `_make_client`: connect unless already connected. */
  function MakeClient(t: Transport): Transport {
    if t.connected then t else t.(connected := true, connections := t.connections + 1)
  }

  function SendMsg(t: Transport, msg: string, payload: Json, opId: Option<OpId>): Transport {
    var c := MakeClient(t);
    c.(sent := c.sent + [BuildFrame(msg, payload, opId)])
  }

  /** `_wait_for` on the transport's socket: the messages it reads are gone. */
  function Await(t: Transport, types: seq<string>, opId: Option<OpId>): (r: (Transport, Outcome<Frame>))
    ensures r.0.(incoming := t.incoming) == t
  {
    var w := WaitFor(t.incoming, types, opId, DEFAULT_RETRIES, t.operations);
    (t.(incoming := t.incoming[w.used..]), w.outcome)
  }

  function InitPayload(headers: Json): Json {
    JObject(map["headers" := headers])
  }

  /** `set_session`: store the headers, send `connection_init`, wait for
      `connection_ack` or `connection_error`. */
  function SetSession(t: Transport, headers: Json): (Transport, Outcome<()>) {
    var t1 := SendMsg(t.(headers := headers), CONNECTION_INIT, InitPayload(headers), None);
    var w := Await(t1, [CONNECTION_ACK, CONNECTION_ERROR], None);
    Handshake(w.0, w.1, headers)
  }

  /** How the reply to `connection_init` ends `set_session`: only the flag
      can change. */
  function Handshake(t: Transport, res: Outcome<Frame>, headers: Json): (r: (Transport, Outcome<()>))
    ensures r.0.(initDone := t.initDone) == t
  {
    if !res.Returned? then (t, Propagate(res))
    else if res.value.typ == CONNECTION_ACK then (t.(initDone := true), Returned(()))
    else if res.value.typ == CONNECTION_ERROR then (t.(initDone := false), Raised(SessionRefused(headers)))
    else (t, Returned(()))
  }

  /** The handshake `execute` and `subscribe` run first, without headers,
      unless one has succeeded before. */
  function EnsureSession(t: Transport): (Transport, Outcome<()>) {
    if t.initDone then (t, Returned(())) else SetSession(t, JNull)
  }

  function StartPayload(operation: string, operationName: Json, variables: Json): Json {
    JObject(map["query" := JStr(operation), "variables" := variables, "operation_name" := operationName])
  }

  /** `execute`, with `opId` the freshly generated id: the reply is returned
      for `data` and `error`; for `connection_error` the payload is printed
      (KeyError when there is none) and nothing is returned. */
  function Execute(t: Transport, operation: string, operationName: Json, variables: Json, opId: OpId)
    : (Transport, Outcome<Option<Frame>>)
  {
    var (t1, init) := EnsureSession(t);
    if !init.Returned? then (t1, Propagate(init))
    else Run(t1, operation, operationName, variables, opId)
  }

  /** What `execute` does once the session is open. */
  function Run(t: Transport, operation: string, operationName: Json, variables: Json, opId: OpId)
    : (Transport, Outcome<Option<Frame>>)
  {
      var t2 := SendMsg(t, START, StartPayload(operation, operationName, variables), Some(opId));
      var (t3, res) := Await(t2, [DATA, ERROR, CONNECTION_ERROR], None);
      if !res.Returned? then (t3, Propagate(res))
      else if res.value.typ == DATA || res.value.typ == ERROR then (t3, Returned(Some(res.value)))
      else if res.value.typ == CONNECTION_ERROR && res.value.payload.None? then (t3, Raised(KeyError("payload")))
      else (t3, Returned(None))
  }

  /** `subscribe`, with `opId` the freshly generated id: send `start` and
      record the operation as running. */
  function Subscribe(t: Transport, operation: string, operationName: Json, variables: Json, opId: OpId)
    : (Transport, Outcome<OpId>)
  {
    var (t1, init) := EnsureSession(t);
    if !init.Returned? then (t1, Propagate(init))
    else
      var t2 := SendMsg(t1, START, StartPayload(operation, operationName, variables), Some(opId));
      (t2.(operations := t2.operations[opId := true]), Returned(opId))
  }

  /** `stop_subscription`: mark the operation stopped, send `stop`, forget
      the operation; KeyError for an id that is not running. */
  function StopSubscription(t: Transport, opId: OpId): (Transport, Outcome<()>) {
    if opId !in t.operations then (t, Raised(KeyError(opId)))
    else
      var t1 := t.(operations := t.operations[opId := false]);
      var t2 := SendMsg(t1, STOP, JNull, Some(opId));
      (t2.(operations := t2.operations - {opId}), Returned(()))
  }
}
