/**
 * The websocket transport of graphql_client/transport/websocket.py as a
 * class whose methods update its fields in place. Each method is proved to
 * change the fields exactly as the matching function of module WsTransport
 * says, so what module WsProps proves of those functions holds of the class.
 */
module WsEngine {
  import opened Protocol
  import Spec = WsTransport

  class WebsocketTransport {
    const serverUrl: string
    var client: bool                    // a WebsocketClient has been created
    var connections: nat
    var headers: Json
    var connectionInitDone: bool
    var operationMap: map<OpId, bool>   // each subscription's `running` flag
    // The socket.
    var sent: seq<Frame>
    var incoming: seq<Input>

    /** The transport's state as a value. */
    ghost function Model(): Spec.Transport
      reads this
    {
      Spec.Transport(client, connections, headers, connectionInitDone, operationMap, sent, incoming)
    }

    /** `__init__`: no connection yet. `incoming` is what the server will
        send once one is made. */
    constructor (url: string, incoming: seq<Input>)
      ensures serverUrl == url && Model() == Spec.Fresh(incoming)
    {
      serverUrl := url;
      client := false;
      connections := 0;
      headers := JNull;
      connectionInitDone := false;
      operationMap := map[];
      sent := [];
      this.incoming := incoming;
    }

    /** `_make_client`. */
    method MakeClient()
      modifies this
      ensures Model() == Spec.MakeClient(old(Model()))
    {
      if !client {
        client := true;
        connections := connections + 1;
      }
    }

    /** `_send_msg`. */
    method SendMsg(msg: string, payload: Json, opId: Option<OpId>)
      modifies this
      ensures Model() == Spec.SendMsg(old(Model()), msg, payload, opId)
    {
      MakeClient();
      var frame := Frame(msg, None, None);
      if Truthy(payload) {
        frame := frame.(payload := Some(payload));
      }
      if opId.Some? && opId.value != "" {
        frame := frame.(id := opId);
      }
      sent := sent + [frame];
    }

    /** `_wait_for`: each call reads one message and, unless it decides the
        wait, calls itself with one retry less. */
    method WaitFor(types: seq<string>, opId: Option<OpId>, retries: nat) returns (res: Outcome<Frame>)
      modifies this
      ensures var w := Spec.WaitFor(old(incoming), types, opId, retries, operationMap);
        res == w.outcome && incoming == old(incoming)[w.used..]
      ensures client == old(client) && connections == old(connections) && headers == old(headers)
      ensures connectionInitDone == old(connectionInitDone) && operationMap == old(operationMap) && sent == old(sent)
      decreases retries
    {
      if retries == 0 {
        return Raised(TransportException(Spec.RETRIES_OVER));
      }
      if incoming == [] {
        // the read blocks forever
        return Blocked;
      }
      var msg := incoming[0];
      incoming := incoming[1..];
      match msg {
        case Malformed =>
          res := Raised(JSONDecodeError);
        case Received(f) =>
          if opId.Some? && opId.value != "" && opId.value !in operationMap {
            res := Raised(KeyError(opId.value));
          } else if opId.Some? && opId.value != "" && !operationMap[opId.value] {
            res := Returned(f);
          } else if f.typ in types {
            res := Returned(f);
          } else {
            ghost var rest := Spec.WaitFor(incoming, types, opId, retries - 1, operationMap);
            assert Spec.WaitFor(old(incoming), types, opId, retries, operationMap) == Spec.Wait(rest.outcome, rest.used + 1);
            res := WaitFor(types, opId, retries - 1);
            assert old(incoming)[1..][rest.used..] == old(incoming)[rest.used + 1..];
          }
      }
    }

    /** `set_session`. */
    method SetSession(h: Json) returns (r: Outcome<()>)
      modifies this
      ensures (Model(), r) == Spec.SetSession(old(Model()), h)
    {
      headers := h;
      SendMsg(CONNECTION_INIT, Spec.InitPayload(h), None);
      var res := WaitFor([CONNECTION_ACK, CONNECTION_ERROR], None, Spec.DEFAULT_RETRIES);
      r := Handshake(res, h);
    }

    /** The end of `set_session`: the reply sets or clears the flag. */
    method Handshake(res: Outcome<Frame>, h: Json) returns (r: Outcome<()>)
      modifies this
      ensures (Model(), r) == Spec.Handshake(old(Model()), res, h)
    {
      if !res.Returned? {
        return Spec.Propagate(res);
      }
      r := Returned(());
      if res.value.typ == CONNECTION_ACK {
        connectionInitDone := true;
      } else if res.value.typ == CONNECTION_ERROR {
        connectionInitDone := false;
        r := Raised(SessionRefused(h));
      }
    }

    /** `execute`; `draw` stands for the random draws of `gen_id()`. */
    method Execute(operation: string, operationName: Json, variables: Json, draw: nat -> nat)
      returns (r: Outcome<Option<Frame>>)
      modifies this
      ensures (Model(), r) == Spec.Execute(old(Model()), operation, operationName, variables, Spec.NewId(draw))
    {
      if !connectionInitDone {
        var init := SetSession(JNull);
        if !init.Returned? {
          return Spec.Propagate(init);
        }
      }
      r := Run(operation, operationName, variables, draw);
    }

    /** The rest of `execute`, once the session is open: send `start` under a
        fresh id and read the reply. */
    method Run(operation: string, operationName: Json, variables: Json, draw: nat -> nat)
      returns (r: Outcome<Option<Frame>>)
      modifies this
      ensures (Model(), r) == Spec.Run(old(Model()), operation, operationName, variables, Spec.NewId(draw))
    {
      SendMsg(START, Spec.StartPayload(operation, operationName, variables), Some(Spec.NewId(draw)));
      var res := WaitFor([DATA, ERROR, CONNECTION_ERROR], None, Spec.DEFAULT_RETRIES);
      if !res.Returned? {
        return Spec.Propagate(res);
      }
      if res.value.typ == DATA || res.value.typ == ERROR {
        return Returned(Some(res.value));
      }
      if res.value.typ == CONNECTION_ERROR && res.value.payload.None? {
        // printing the missing payload
        return Raised(KeyError("payload"));
      }
      r := Returned(None);
    }

    /** `subscribe`, bookkeeping only: the receive thread it starts is not
        modelled. */
    method Subscribe(operation: string, operationName: Json, variables: Json, draw: nat -> nat)
      returns (r: Outcome<OpId>)
      modifies this
      ensures (Model(), r) == Spec.Subscribe(old(Model()), operation, operationName, variables, Spec.NewId(draw))
    {
      if !connectionInitDone {
        var init := SetSession(JNull);
        if !init.Returned? {
          return Spec.Propagate(init);
        }
      }
      var opId := Spec.NewId(draw);
      SendMsg(START, Spec.StartPayload(operation, operationName, variables), Some(opId));
      operationMap := operationMap[opId := true];
      r := Returned(opId);
    }

    /** `stop_subscription`: the flag is cleared before `stop` is sent, and
        the entry deleted after. */
    method StopSubscription(opId: OpId) returns (r: Outcome<()>)
      modifies this
      ensures (Model(), r) == Spec.StopSubscription(old(Model()), opId)
    {
      if opId !in operationMap {
        return Raised(KeyError(opId));
      }
      operationMap := operationMap[opId := false];
      SendMsg(STOP, JNull, Some(opId));
      operationMap := operationMap - {opId};
      r := Returned(());
    }
  }
}
