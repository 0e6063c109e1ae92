/**
 * The transport-agnostic client of graphql_client/client.py: it keeps the
 * headers of the last `set_session` and forwards every call to its
 * transport, refusing subscription calls unless the transport is the
 * websocket one. The transport itself is not part of this module: the
 * client records the calls it forwards, in order, and what the websocket
 * transport then does with them is modelled by module WsTransport.
 */
module Facade {
  import opened Protocol

  const WEBSOCKET_ONLY := "Only `WebsocketTransport` can be used for subscriptions"

  /** Which class the transport is an instance of. */
  datatype TransportKind = WebsocketKind | OtherKind

  /** A call the client makes on its transport. */
  datatype TransportCall =
    | SetSessionCall(headers: Json)
    | ExecuteCall(operation: string, operationName: Json, variables: Json)
    | SubscribeCall(operation: string, operationName: Json, variables: Json, callback: CallbackArg)
    | StopSubscriptionCall(subId: OpId)
    | StopAllCall

  /** The calls only a websocket transport accepts. */
  predicate NeedsWebsocket(call: TransportCall) {
    call.SubscribeCall? || call.StopSubscriptionCall?
  }

  /** The `isinstance` check: a subscription call on any other transport
      raises TransportException before reaching it; every other call goes
      through unchanged. */
  function Gate(kind: TransportKind, call: TransportCall): (r: Result<TransportCall>)
    ensures r.Ok? <==> kind == WebsocketKind || !NeedsWebsocket(call)
    ensures r.Ok? ==> r.value == call
    ensures r.Err? ==> r.error == TransportException(WEBSOCKET_ONLY)
  {
    if NeedsWebsocket(call) && kind != WebsocketKind then Err(TransportException(WEBSOCKET_ONLY))
    else Ok(call)
  }

  /** What reaches the transport when the client is asked to make `calls`
      one after another (each refused call raising to its caller). */
  function Forwarded(kind: TransportKind, calls: seq<TransportCall>): seq<TransportCall> {
    if calls == [] then []
    else
      var r := Gate(kind, calls[0]);
      (if r.Ok? then [r.value] else []) + Forwarded(kind, calls[1..])
  }

  /** The calls among `calls` that are not subscription calls, in order. */
  function NonSubscription(calls: seq<TransportCall>): seq<TransportCall> {
    if calls == [] then []
    else (if NeedsWebsocket(calls[0]) then [] else [calls[0]]) + NonSubscription(calls[1..])
  }

  /** A websocket transport receives every call, in order; any other
      transport receives exactly the calls that are not subscription calls,
      in order. */
  lemma {:induction false} ForwardedCalls(kind: TransportKind, calls: seq<TransportCall>)
    ensures kind == WebsocketKind ==> Forwarded(kind, calls) == calls
    ensures kind == OtherKind ==> Forwarded(kind, calls) == NonSubscription(calls)
    ensures kind == OtherKind ==>
      forall c :: c in Forwarded(kind, calls) <==> c in calls && !NeedsWebsocket(c)
    ensures |Forwarded(kind, calls)| <= |calls|
  {
    if calls != [] {
      ForwardedCalls(kind, calls[1..]);
      assert calls == [calls[0]] + calls[1..];
    }
  }

  /** Asking for one more call adds it to what the transport receives
      exactly when the gate lets it through. */
  lemma {:induction false} ForwardedAppend(kind: TransportKind, calls: seq<TransportCall>, call: TransportCall)
    ensures Forwarded(kind, calls + [call])
         == Forwarded(kind, calls) + (if Gate(kind, call).Ok? then [call] else [])
  {
    if calls != [] {
      assert (calls + [call])[0] == calls[0];
      assert (calls + [call])[1..] == calls[1..] + [call];
      ForwardedAppend(kind, calls[1..], call);
    } else {
      assert calls + [call] == [call];
    }
  }

  /** Query and mutation calls are never refused, whatever the transport. */
  lemma ExecuteIsNeverRefused(kind: TransportKind, operation: string, operationName: Json, variables: Json)
    ensures Gate(kind, ExecuteCall(operation, operationName, variables)) == Ok(ExecuteCall(operation, operationName, variables))
  {
  }

  class GraphQLClient {
    const kind: TransportKind
    var headers: Json
    /** The calls the client has been asked to make, oldest first. */
    ghost var requested: seq<TransportCall>
    /** The calls made on the transport so far, oldest first. */
    var forwarded: seq<TransportCall>

    /** The transport has received exactly what the gate let through, so a
        transport that is not the websocket one has never seen a
        subscription call. */
    ghost predicate Valid()
      reads this
    {
      && forwarded == Forwarded(kind, requested)
      && (kind == OtherKind ==> forall i :: 0 <= i < |forwarded| ==> !NeedsWebsocket(forwarded[i]))
    }

    /** `__init__`. */
    constructor (kind: TransportKind)
      ensures this.kind == kind && headers == JNull && requested == [] && forwarded == [] && Valid()
    {
      this.kind := kind;
      headers := JNull;
      requested := [];
      forwarded := [];
    }

    /** One call through the gate: raised to the caller when refused,
        otherwise made on the transport. */
    method Forward(call: TransportCall) returns (r: Result<()>)
      requires Valid()
      modifies this
      ensures Valid() && headers == old(headers) && requested == old(requested) + [call]
      ensures Gate(kind, call).Ok? ==> r == Ok(()) && forwarded == old(forwarded) + [call]
      ensures Gate(kind, call).Err? ==> r == Err(Gate(kind, call).error) && forwarded == old(forwarded)
    {
      var g := Gate(kind, call);
      ForwardedAppend(kind, requested, call);
      requested := requested + [call];
      if g.Ok? {
        forwarded := forwarded + [g.value];
        r := Ok(());
      } else {
        r := Err(g.error);
      }
    }

    /** `set_session`: remember the headers, then hand the same headers to
        the transport. */
    method SetSession(h: Json)
      requires Valid()
      modifies this
      ensures Valid() && requested == old(requested) + [SetSessionCall(h)]
      ensures headers == h && forwarded == old(forwarded) + [SetSessionCall(h)]
    {
      headers := h;
      var _ := Forward(SetSessionCall(h));
    }

    /** `query`: the operation, its name and its variables go to `execute`
        unchanged. */
    method Query(operation: string, operationName: Json, variables: Json)
      requires Valid()
      modifies this
      ensures Valid() && requested == old(requested) + [ExecuteCall(operation, operationName, variables)]
      ensures headers == old(headers) && forwarded == old(forwarded) + [ExecuteCall(operation, operationName, variables)]
    {
      var _ := Forward(ExecuteCall(operation, operationName, variables));
    }

    /** `mutate`: exactly what `query` does. */
    method Mutate(operation: string, operationName: Json, variables: Json)
      requires Valid()
      modifies this
      ensures Valid() && requested == old(requested) + [ExecuteCall(operation, operationName, variables)]
      ensures headers == old(headers) && forwarded == old(forwarded) + [ExecuteCall(operation, operationName, variables)]
    {
      var _ := Forward(ExecuteCall(operation, operationName, variables));
    }

    /** `subscribe`: refused, with nothing forwarded, unless the transport is
        a websocket one. */
    method Subscribe(operation: string, operationName: Json, variables: Json, callback: CallbackArg)
      returns (r: Result<()>)
      requires Valid()
      modifies this
      ensures Valid() && headers == old(headers)
      ensures requested == old(requested) + [SubscribeCall(operation, operationName, variables, callback)]
      ensures kind == WebsocketKind ==>
        r == Ok(()) && forwarded == old(forwarded) + [SubscribeCall(operation, operationName, variables, callback)]
      ensures kind == OtherKind ==> r == Err(TransportException(WEBSOCKET_ONLY)) && forwarded == old(forwarded)
    {
      r := Forward(SubscribeCall(operation, operationName, variables, callback));
    }

    /** `stop_subscription`: refused in the same way. */
    method StopSubscription(subId: OpId) returns (r: Result<()>)
      requires Valid()
      modifies this
      ensures Valid() && headers == old(headers) && requested == old(requested) + [StopSubscriptionCall(subId)]
      ensures kind == WebsocketKind ==> r == Ok(()) && forwarded == old(forwarded) + [StopSubscriptionCall(subId)]
      ensures kind == OtherKind ==> r == Err(TransportException(WEBSOCKET_ONLY)) && forwarded == old(forwarded)
    {
      r := Forward(StopSubscriptionCall(subId));
    }

    /** `stop`: forwarded to any transport. */
    method Stop()
      requires Valid()
      modifies this
      ensures Valid() && requested == old(requested) + [StopAllCall]
      ensures headers == old(headers) && forwarded == old(forwarded) + [StopAllCall]
    {
      var _ := Forward(StopAllCall);
    }

    /** `close` does nothing. */
    method Close()
      ensures unchanged(this)
    {
    }
  }
}
