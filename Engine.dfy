/**
 * The websocket GraphQL client of graphql_client/__init__.py as a class whose
 * methods update its fields in place. Every method is proved to change the
 * fields exactly as the matching function of module ClientSpec says, so the
 * properties proved in module ClientProps hold of the class.
 */
module Engine {
  import opened Protocol
  import opened Routing
  import Spec = ClientSpec

  class GraphQLClient {
    const wsUrl: string
    var connectionInitDone: bool
    var headers: Json
    var subscriberCallbacks: map<OpId, Callback>
    var queue: seq<Frame>
    var subscriberQueues: map<OpId, seq<Frame>>
    var shutdownReceiver: bool
    var subscriptions: seq<Spec.Subscription>
    // The receiver thread and the socket.
    var receiverFault: Option<Frame>
    var sent: seq<Frame>
    var pending: seq<Input>
    var invoked: seq<Invocation>

    /** The client's state as a value. */
    ghost function Model(): Spec.Session
      reads this
    {
      Spec.Session(connectionInitDone, headers, Mailboxes(queue, subscriberQueues, subscriberCallbacks),
                   subscriptions, shutdownReceiver, receiverFault, sent, pending, invoked)
    }

    /** `__init__` and `connect`: a fresh client on a connection over which the
        server has already sent `pending`. */
    constructor (url: string, pending: seq<Input>)
      ensures wsUrl == url && Model() == Spec.Initial(pending)
    {
      wsUrl := url;
      connectionInitDone := false;
      headers := JNull;
      subscriberCallbacks := map[];
      queue := [];
      subscriberQueues := map[];
      shutdownReceiver := false;
      subscriptions := [];
      receiverFault := None;
      sent := [];
      this.pending := pending;
      invoked := [];
    }

    /** The server sends more messages. */
    method Deliver(inputs: seq<Input>)
      modifies this
      ensures Model() == Spec.Deliver(old(Model()), inputs)
    {
      pending := pending + inputs;
    }

    /** One iteration of `_receiver_task`'s loop on the next message. */
    method ReceiveOne()
      requires Spec.Listening(Model()) && pending != []
      modifies this
      ensures Model() == Spec.Receive(old(Model()))
    {
      var input := pending[0];
      pending := pending[1..];
      match input {
        case Malformed =>
          // logged and skipped
        case Received(msg) =>
          if msg.typ != KEEP_ALIVE {
            if (msg.typ == DATA || msg.typ == COMPLETE) && msg.id.None? {
              // InvalidPayloadException ends the receiver thread
              receiverFault := Some(msg);
              return;
            }
            if msg.id.Some? {
              var opId := msg.id.value;
              if opId in subscriberQueues {
                subscriberQueues := subscriberQueues[opId := subscriberQueues[opId] + [msg]];
              } else {
                assert QueueOrEmpty(old(Model()).boxes, opId) + [msg] == [msg];
                subscriberQueues := subscriberQueues[opId := [msg]];
              }
              if opId in subscriberCallbacks {
                invoked := invoked + [Invocation(subscriberCallbacks[opId], opId, msg)];
              }
            } else {
              queue := queue + [msg];
            }
          }
      }
    }

    /** `_receiver_task`: the loop runs until close() is called, a protocol
        violation ends it, or (here) the server has nothing more to read. */
    method ReceiverTask()
      modifies this
      ensures Model() == Spec.Drain(old(Model()))
    {
      while !shutdownReceiver && receiverFault.None? && pending != []
        invariant Spec.Drain(Model()) == Spec.Drain(old(Model()))
        decreases |pending|
      {
        ReceiveOne();
      }
    }

    /** A blocking `get` on queue `t`: the receiver runs until a frame reaches
        the queue; `None` when none ever will. */
    method Take(t: Spec.Target) returns (f: Option<Frame>)
      requires Spec.Has(Model().boxes, t)
      modifies this
      ensures (Model(), f) == Spec.Await(old(Model()), t)
    {
      while (if t.Global? then queue else subscriberQueues[t.id]) == []
        && !shutdownReceiver && receiverFault.None? && pending != []
        invariant Spec.Has(Model().boxes, t)
        invariant Spec.Await(Model(), t) == Spec.Await(old(Model()), t)
        decreases |pending|
      {
        ReceiveOne();
      }
      if t.Global? {
        if queue == [] {
          f := None;
        } else {
          f := Some(queue[0]);
          queue := queue[1..];
        }
      } else {
        var q := subscriberQueues[t.id];
        if q == [] {
          f := None;
        } else {
          f := Some(q[0]);
          subscriberQueues := subscriberQueues[t.id := q[1..]];
        }
      }
    }

    method GetOperationResult(opId: OpId) returns (f: Option<Frame>)
      requires opId in subscriberQueues
      modifies this
      ensures (Model(), f) == Spec.Await(old(Model()), Spec.Operation(opId))
    {
      f := Take(Spec.Operation(opId));
    }

    method Send(frame: Frame)
      modifies this
      ensures Model() == Spec.Send(old(Model()), frame)
    {
      sent := sent + [frame];
    }

    method ConnectionInit(headers: Json) returns (r: Outcome<()>)
      modifies this
      ensures (Model(), r) == Spec.ConnectionInit(old(Model()), headers)
    {
      if connectionInitDone && headers == this.headers {
        return Returned(());
      }
      this.headers := headers;
      Send(Spec.InitFrame(headers));
      var res := Take(Spec.Global);
      if res.None? {
        return Blocked;
      }
      if res.value.typ == CONNECTION_ERROR {
        var detail := if res.value.payload.Some? then res.value.payload.value else JStr(Spec.UNKNOWN_ERROR);
        return Raised(ConnectionException(detail));
      }
      if res.value.typ == CONNECTION_ACK {
        connectionInitDone := true;
        return Returned(());
      }
      r := Raised(ConnectionException(JStr(Spec.UNKNOWN_MESSAGE + res.value.typ)));
    }

    method InsertSubscriber(opId: OpId, cb: Callback)
      modifies this
      ensures Model() == Spec.InsertSubscriber(old(Model()), opId, cb)
    {
      subscriberCallbacks := subscriberCallbacks[opId := cb];
    }

    method RemoveSubscriber(opId: OpId) returns (r: Outcome<()>)
      modifies this
      ensures (Model(), r) == Spec.RemoveSubscriber(old(Model()), opId)
    {
      if opId !in subscriberCallbacks {
        return Raised(KeyError(opId));
      }
      subscriberCallbacks := subscriberCallbacks - {opId};
      r := Returned(());
    }

    method CreateOperationQueue(opId: OpId)
      modifies this
      ensures Model() == Spec.CreateOperationQueue(old(Model()), opId)
    {
      subscriberQueues := subscriberQueues[opId := []];
    }

    method RemoveOperationQueue(opId: OpId)
      modifies this
      ensures Model() == Spec.RemoveOperationQueue(old(Model()), opId)
    {
      if opId in subscriberQueues {
        subscriberQueues := subscriberQueues - {opId};
      }
    }

    /** `_start`, with `opId` the freshly generated identifier. */
    method Start(payload: Json, callback: Option<Callback>, opId: OpId)
      modifies this
      ensures Model() == Spec.Start(old(Model()), payload, callback, opId)
    {
      CreateOperationQueue(opId);
      if callback.Some? {
        InsertSubscriber(opId, callback.value);
      }
      Send(Spec.StartFrame(opId, payload));
    }

    method Stop(opId: OpId)
      modifies this
      ensures Model() == Spec.Stop(old(Model()), opId)
    {
      Send(Spec.StopFrame(opId));
    }

    /** `query`, with `opId` the freshly generated identifier. */
    method Query(query: string, variables: Json, headers: Json, opId: OpId) returns (r: Outcome<Frame>)
      modifies this
      ensures (Model(), r) == Spec.Query(old(Model()), query, variables, headers, opId)
    {
      var init := ConnectionInit(headers);
      if !init.Returned? {
        return Spec.Fail(init);
      }
      Start(Spec.StartPayload(query, variables, headers), None, opId);
      var res := GetOperationResult(opId);
      if res.None? {
        return Blocked;
      }
      Stop(opId);
      var ack := GetOperationResult(opId);
      if ack.None? {
        return Blocked;
      }
      // an acknowledgement other than `complete` is only logged
      RemoveOperationQueue(opId);
      r := Returned(res.value);
    }

    /** `subscribe`, with `opId` the freshly generated identifier. */
    method Subscribe(query: string, variables: Json, headers: Json, callback: CallbackArg, opId: OpId)
      returns (r: Outcome<OpId>)
      modifies this
      ensures (Model(), r) == Spec.Subscribe(old(Model()), query, variables, headers, callback, opId)
    {
      if !callback.Fn? {
        return Raised(TypeError(Spec.CALLBACK_REQUIRED));
      }
      var init := ConnectionInit(headers);
      if !init.Returned? {
        return Spec.Fail(init);
      }
      Start(Spec.StartPayload(query, variables, headers), Some(callback.callback), opId);
      subscriptions := subscriptions + [Spec.Subscription(query, variables, headers, callback.callback)];
      r := Returned(opId);
    }

    method StopSubscribe(opId: OpId) returns (r: Outcome<()>)
      modifies this
      ensures (Model(), r) == Spec.StopSubscribe(old(Model()), opId)
    {
      Stop(opId);
      r := RemoveSubscriber(opId);
      if r.Raised? {
        return;
      }
      RemoveOperationQueue(opId);
    }

    /** `close`: the receiver loop starts no further iteration. */
    method Close()
      modifies this
      ensures Model() == Spec.Close(old(Model()))
    {
      shutdownReceiver := true;
    }
  }
}
