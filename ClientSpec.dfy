/**
 * The websocket GraphQL client of graphql_client/__init__.py as a pure state
 * machine over a Session value. The class in module Engine changes its fields
 * exactly as these functions say.
 *
 * The socket is modelled by two fields: `pending`, the messages the server
 * has sent that the receiver thread has not read yet, and `sent`, the frames
 * the client has written, in order. The receiver thread is `Receive`, applied
 * one message at a time. A blocking `get` on a queue lets the receiver run
 * until a frame reaches that queue (`Await`); if the pending input runs out
 * first, or the receiver has stopped, the call waits forever.
 */
module ClientSpec {
  import opened Protocol
  import opened Routing

  /** What `subscribe` records for reconnection. */
  datatype Subscription = Subscription(query: string, variables: Json, headers: Json, callback: Callback)

  datatype Session = Session(
    initDone: bool,              // the handshake has been acknowledged
    headers: Json,               // headers of the last handshake (JNull for None)
    boxes: Mailboxes,            // queues and callbacks shared with the receiver
    subscriptions: seq<Subscription>,
    shutdown: bool,              // close() asked the receiver to stop
    fault: Option<Frame>,        // the frame whose protocol violation killed the receiver
    sent: seq<Frame>,            // frames written to the socket
    pending: seq<Input>,         // messages sent by the server, not yet read
    invoked: seq<Invocation>)    // callback calls made by the receiver

  /** Which queue a caller waits on. */
  datatype Target = Global | Operation(id: OpId)

  const UNKNOWN_ERROR := "unknown error"
  const UNKNOWN_MESSAGE := "Unknown message from server, this client did not understand. Original message: "
  const CALLBACK_REQUIRED := "the argument `callback` is mandatory and it should be a function"

  /** A client right after construction, over a connection on which the
      server has already sent `pending`. */
  function Initial(pending: seq<Input>): Session {
    Session(false, JNull, Mailboxes([], map[], map[]), [], false, None, [], pending, [])
  }

  /** The receiver loop goes on while close() has not been called and no
      protocol violation has ended it. */
  predicate Listening(s: Session) {
    !s.shutdown && s.fault.None?
  }

  /** What the receiver may change: queue contents (never removing a queue),
      its own fault flag, the pending input (only consuming it) and the log of
      callback calls. Everything the callers own stays as it is. */
  predicate ReceiverOnly(s: Session, r: Session) {
    && r.initDone == s.initDone
    && r.headers == s.headers
    && r.subscriptions == s.subscriptions
    && r.shutdown == s.shutdown
    && r.sent == s.sent
    && r.boxes.callbacks == s.boxes.callbacks
    && s.boxes.perOp.Keys <= r.boxes.perOp.Keys
    && |r.pending| <= |s.pending|
  }

  /** One iteration of the receiver loop on the next pending message. */
  function Receive(s: Session): (r: Session)
    requires Listening(s) && s.pending != []
    ensures ReceiverOnly(s, r) && r.pending == s.pending[1..]
  {
    match Dispatch(s.boxes, s.pending[0])
    case Stepped(b, calls) => s.(boxes := b, pending := s.pending[1..], invoked := s.invoked + calls)
    case Violation(f) => s.(pending := s.pending[1..], fault := Some(f))
  }

  /** The receiver loop run until it has read every pending message or has
      stopped. */
  function Drain(s: Session): (r: Session)
    ensures ReceiverOnly(s, r)
    ensures !Listening(r) || r.pending == []
    decreases |s.pending|
  {
    if !Listening(s) || s.pending == [] then s else Drain(Receive(s))
  }

  predicate Has(b: Mailboxes, t: Target) {
    t.Global? || t.id in b.perOp
  }

  function QueueOf(b: Mailboxes, t: Target): seq<Frame>
    requires Has(b, t)
  {
    if t.Global? then b.global else b.perOp[t.id]
  }

  /** Removes the head of a non-empty queue (the effect of `get`). */
  function Pop(s: Session, t: Target): (r: Session)
    requires Has(s.boxes, t) && QueueOf(s.boxes, t) != []
    ensures ReceiverOnly(s, r) && r.pending == s.pending && r.invoked == s.invoked && r.fault == s.fault
    ensures r.boxes.perOp.Keys == s.boxes.perOp.Keys
    ensures QueueOf(r.boxes, t) == QueueOf(s.boxes, t)[1..]
    ensures t.Global? ==> r.boxes.perOp == s.boxes.perOp
    ensures t.Operation? ==> r.boxes.global == s.boxes.global
    ensures t.Operation? ==> forall j :: j in s.boxes.perOp && j != t.id ==> r.boxes.perOp[j] == s.boxes.perOp[j]
  {
    if t.Global? then s.(boxes := s.boxes.(global := s.boxes.global[1..]))
    else s.(boxes := s.boxes.(perOp := s.boxes.perOp[t.id := s.boxes.perOp[t.id][1..]]))
  }

  /** A blocking `get` on queue `t`: the receiver runs until the queue holds
      a frame, which is taken; `None` means the caller waits forever. */
  function Await(s: Session, t: Target): (r: (Session, Option<Frame>))
    requires Has(s.boxes, t)
    ensures ReceiverOnly(s, r.0) && Has(r.0.boxes, t)
    ensures r.1.None? ==> QueueOf(r.0.boxes, t) == [] && (!Listening(r.0) || r.0.pending == [])
    decreases |s.pending|
  {
    if QueueOf(s.boxes, t) != [] then (Pop(s, t), Some(QueueOf(s.boxes, t)[0]))
    else if !Listening(s) || s.pending == [] then (s, None)
    else Await(Receive(s), t)
  }

  // Frames the client writes.

  function InitFrame(headers: Json): Frame {
    Frame(CONNECTION_INIT, None, Some(JObject(map["headers" := headers])))
  }

  function StartPayload(query: string, variables: Json, headers: Json): Json {
    JObject(map["headers" := headers, "query" := JStr(query), "variables" := variables])
  }

  function StartFrame(opId: OpId, payload: Json): Frame {
    Frame(START, Some(opId), Some(payload))
  }

  function StopFrame(opId: OpId): Frame {
    Frame(STOP, Some(opId), None)
  }

  function Send(s: Session, f: Frame): Session {
    s.(sent := s.sent + [f])
  }

  /** The server sends more messages. */
  function Deliver(s: Session, inputs: seq<Input>): Session {
    s.(pending := s.pending + inputs)
  }

  /** A failed outcome seen through another result type. */
  function Fail<T>(o: Outcome<()>): Outcome<T>
    requires !o.Returned?
  {
    if o.Raised? then Raised(o.error) else Blocked
  }

  /** `_connection_init`: the handshake, skipped when it has succeeded before
      with equal headers. */
  function ConnectionInit(s: Session, headers: Json): (Session, Outcome<()>) {
    if s.initDone && headers == s.headers then (s, Returned(()))
    else
      var (t, res) := Await(Send(s.(headers := headers), InitFrame(headers)), Global);
      if res.None? then (t, Blocked)
      else if res.value.typ == CONNECTION_ERROR then
        (t, Raised(ConnectionException(if res.value.payload.Some? then res.value.payload.value else JStr(UNKNOWN_ERROR))))
      else if res.value.typ == CONNECTION_ACK then (t.(initDone := true), Returned(()))
      else (t, Raised(ConnectionException(JStr(UNKNOWN_MESSAGE + res.value.typ))))
  }

  function InsertSubscriber(s: Session, opId: OpId, cb: Callback): Session {
    s.(boxes := s.boxes.(callbacks := s.boxes.callbacks[opId := cb]))
  }

  /** `_remove_subscriber` fails with KeyError when `opId` has no callback. */
  function RemoveSubscriber(s: Session, opId: OpId): (Session, Outcome<()>) {
    if opId !in s.boxes.callbacks then (s, Raised(KeyError(opId)))
    else (s.(boxes := s.boxes.(callbacks := s.boxes.callbacks - {opId})), Returned(()))
  }

  function CreateOperationQueue(s: Session, opId: OpId): Session {
    s.(boxes := s.boxes.(perOp := s.boxes.perOp[opId := []]))
  }

  /** `_remove_operation_queue` tolerates an id without a queue. */
  function RemoveOperationQueue(s: Session, opId: OpId): Session {
    if opId in s.boxes.perOp then s.(boxes := s.boxes.(perOp := s.boxes.perOp - {opId})) else s
  }

  /** `_start`: an empty queue for the new id, its callback when one is given,
      then the `start` frame. */
  function Start(s: Session, payload: Json, callback: Option<Callback>, opId: OpId): Session {
    var s1 := CreateOperationQueue(s, opId);
    var s2 := if callback.Some? then InsertSubscriber(s1, opId, callback.value) else s1;
    Send(s2, StartFrame(opId, payload))
  }

  function Stop(s: Session, opId: OpId): Session {
    Send(s, StopFrame(opId))
  }

  /** `query`: handshake, then the exchange for the operation. `opId` is
      the fresh identifier. */
  function Query(s: Session, query: string, variables: Json, headers: Json, opId: OpId): (Session, Outcome<Frame>) {
    var (s1, init) := ConnectionInit(s, headers);
    if !init.Returned? then (s1, Fail(init))
    else Exchange(s1, StartPayload(query, variables, headers), opId)
  }

  /** The part of `query` after the handshake: start, take the result, stop,
      take the acknowledgement (a frame other than `complete` only draws a
      warning), drop the queue, return the result. */
  function Exchange(s: Session, payload: Json, opId: OpId): (Session, Outcome<Frame>) {
    var s2 := Start(s, payload, None, opId);
    var (s3, res) := Await(s2, Operation(opId));
    if res.None? then (s3, Blocked)
    else
      var (s4, ack) := Await(Stop(s3, opId), Operation(opId));
      if ack.None? then (s4, Blocked)
      else (RemoveOperationQueue(s4, opId), Returned(res.value))
  }

  /** `subscribe`: the callback is checked before anything else; then
      handshake, start with the callback registered, and the record kept for
      reconnection. `opId` is the fresh identifier. */
  function Subscribe(s: Session, query: string, variables: Json, headers: Json,
                     callback: CallbackArg, opId: OpId): (Session, Outcome<OpId>)
  {
    if !callback.Fn? then (s, Raised(TypeError(CALLBACK_REQUIRED)))
    else
      var (s1, init) := ConnectionInit(s, headers);
      if !init.Returned? then (s1, Fail(init))
      else
        var s2 := Start(s1, StartPayload(query, variables, headers), Some(callback.callback), opId);
        var record := Subscription(query, variables, headers, callback.callback);
        (s2.(subscriptions := s2.subscriptions + [record]), Returned(opId))
  }

  /** `stop_subscribe`: send `stop`, then drop the callback (KeyError when
      there is none) and the queue. */
  function StopSubscribe(s: Session, opId: OpId): (Session, Outcome<()>) {
    var (s1, r) := RemoveSubscriber(Stop(s, opId), opId);
    if r.Raised? then (s1, r) else (RemoveOperationQueue(s1, opId), Returned(()))
  }

  /** `close`: the receiver loop starts no further iteration. */
  function Close(s: Session): Session {
    s.(shutdown := true)
  }
}
