/**
 * Properties of the websocket client (module ClientSpec): where the receiver
 * puts every frame, which callbacks it calls and in what order, what the
 * handshake, `query`, `subscribe` and `stop_subscribe` send and change.
 */
module ClientProps {
  import opened Protocol
  import opened Routing
  import opened ClientSpec

  // Reference definitions of what the receiver does with a run of input,
  // written per message rather than per receiver state.

  /** The frame, if any, that a message contributes to operation `k`. */
  function FrameFor(input: Input, k: OpId): seq<Frame> {
    if input.Received? && input.frame.typ != KEEP_ALIVE && input.frame.id == Some(k) then [input.frame] else []
  }

  /** The frames among `inputs` addressed to operation `k`, in order. */
  function FramesFor(inputs: seq<Input>, k: OpId): seq<Frame> {
    if inputs == [] then [] else FrameFor(inputs[0], k) + FramesFor(inputs[1..], k)
  }

  /** The frame, if any, that a message contributes to the global queue. */
  function UntaggedOf(input: Input): seq<Frame> {
    if input.Received? && input.frame.typ != KEEP_ALIVE && input.frame.id.None? then [input.frame] else []
  }

  function Untagged(inputs: seq<Input>): seq<Frame> {
    if inputs == [] then [] else UntaggedOf(inputs[0]) + Untagged(inputs[1..])
  }

  /** The callback call, if any, that a message causes under callbacks `cbs`. */
  function NotificationOf(cbs: map<OpId, Callback>, input: Input): seq<Invocation> {
    if input.Received? && input.frame.typ != KEEP_ALIVE && input.frame.id.Some? && input.frame.id.value in cbs
    then [Invocation(cbs[input.frame.id.value], input.frame.id.value, input.frame)]
    else []
  }

  function Notifications(cbs: map<OpId, Callback>, inputs: seq<Input>): seq<Invocation> {
    if inputs == [] then [] else NotificationOf(cbs, inputs[0]) + Notifications(cbs, inputs[1..])
  }

  /** No message in `inputs` is a `data` or `complete` frame without an id. */
  ghost predicate NoViolation(inputs: seq<Input>) {
    forall i :: 0 <= i < |inputs| && inputs[i].Received? ==> !LacksRequiredId(inputs[i].frame)
  }

  /** The calls a callback receives, in order. */
  function DeliveriesTo(invs: seq<Invocation>, cb: Callback): seq<Invocation> {
    if invs == [] then []
    else (if invs[0].callback == cb then [invs[0]] else []) + DeliveriesTo(invs[1..], cb)
  }

  /** `cb(k, f)` for each frame `f` of `frames`, in order. */
  function CallsWith(cb: Callback, k: OpId, frames: seq<Frame>): seq<Invocation> {
    seq(|frames|, i requires 0 <= i < |frames| => Invocation(cb, k, frames[i]))
  }

  /** An invocation made while callbacks `cbs` were registered: the callback
      registered for the frame's own id, never for a keep-alive. */
  predicate Registered(cbs: map<OpId, Callback>, inv: Invocation) {
    && inv.opId in cbs && cbs[inv.opId] == inv.callback
    && inv.frame.id == Some(inv.opId) && inv.frame.typ != KEEP_ALIVE
  }

  /** One receiver step agrees with the per-message reference definitions. */
  lemma ReceiveRoutes(s: Session)
    requires Listening(s) && s.pending != []
    requires !(s.pending[0].Received? && LacksRequiredId(s.pending[0].frame))
    ensures var r := Receive(s);
      && Listening(r)
      && r.boxes.global == s.boxes.global + UntaggedOf(s.pending[0])
      && (forall k :: QueueOrEmpty(r.boxes, k) == QueueOrEmpty(s.boxes, k) + FrameFor(s.pending[0], k))
      && r.invoked == s.invoked + NotificationOf(s.boxes.callbacks, s.pending[0])
  {
  }

  lemma NoViolationTail(inputs: seq<Input>)
    requires inputs != [] && NoViolation(inputs)
    ensures NoViolation(inputs[1..])
  {
    forall i | 0 <= i < |inputs| - 1 && inputs[1..][i].Received?
      ensures !LacksRequiredId(inputs[1..][i].frame)
    {
      assert inputs[1..][i] == inputs[i + 1];
    }
  }

  /** With no protocol violation in the pending input, the receiver reads all
      of it and stays alive. */
  lemma {:induction false} DrainConsumesAll(s: Session)
    requires Listening(s) && NoViolation(s.pending)
    ensures Listening(Drain(s)) && Drain(s).pending == []
    decreases |s.pending|
  {
    if s.pending != [] {
      NoViolationTail(s.pending);
      DrainConsumesAll(Receive(s));
    }
  }

  /** The global queue gains the frames without an id, keep-alives excepted,
      in arrival order. */
  lemma {:induction false} DrainFillsGlobalQueue(s: Session)
    requires Listening(s) && NoViolation(s.pending)
    ensures Drain(s).boxes.global == s.boxes.global + Untagged(s.pending)
    decreases |s.pending|
  {
    if s.pending != [] {
      var s1 := Receive(s);
      ReceiveRoutes(s);
      NoViolationTail(s.pending);
      DrainFillsGlobalQueue(s1);
      assert s.boxes.global + UntaggedOf(s.pending[0]) + Untagged(s1.pending)
          == s.boxes.global + (UntaggedOf(s.pending[0]) + Untagged(s1.pending));
    }
  }

  /** The queue of every id gains that id's frames, keep-alives excepted, in
      arrival order (starting from empty when the id had no queue). */
  lemma {:induction false} DrainFillsOperationQueue(s: Session, k: OpId)
    requires Listening(s) && NoViolation(s.pending)
    ensures QueueOrEmpty(Drain(s).boxes, k) == QueueOrEmpty(s.boxes, k) + FramesFor(s.pending, k)
    decreases |s.pending|
  {
    if s.pending != [] {
      var s1 := Receive(s);
      ReceiveRoutes(s);
      NoViolationTail(s.pending);
      DrainFillsOperationQueue(s1, k);
      assert QueueOrEmpty(s1.boxes, k) == QueueOrEmpty(s.boxes, k) + FrameFor(s.pending[0], k);
      assert FramesFor(s.pending, k) == FrameFor(s.pending[0], k) + FramesFor(s1.pending, k);
      assert QueueOrEmpty(s.boxes, k) + FrameFor(s.pending[0], k) + FramesFor(s1.pending, k)
          == QueueOrEmpty(s.boxes, k) + (FrameFor(s.pending[0], k) + FramesFor(s1.pending, k));
    }
  }

  /** The callbacks are called once per frame routed to an id that has one,
      in arrival order. */
  lemma {:induction false} DrainNotifies(s: Session)
    requires Listening(s) && NoViolation(s.pending)
    ensures Drain(s).invoked == s.invoked + Notifications(s.boxes.callbacks, s.pending)
    decreases |s.pending|
  {
    if s.pending != [] {
      var s1 := Receive(s);
      ReceiveRoutes(s);
      assert s1.boxes.callbacks == s.boxes.callbacks;
      NoViolationTail(s.pending);
      DrainNotifies(s1);
      assert s.invoked + NotificationOf(s.boxes.callbacks, s.pending[0]) + Notifications(s.boxes.callbacks, s1.pending)
          == s.invoked + (NotificationOf(s.boxes.callbacks, s.pending[0]) + Notifications(s.boxes.callbacks, s1.pending));
    }
  }

  lemma {:induction false} DeliveriesDistribute(a: seq<Invocation>, b: seq<Invocation>, cb: Callback)
    ensures DeliveriesTo(a + b, cb) == DeliveriesTo(a, cb) + DeliveriesTo(b, cb)
  {
    if a == [] {
      assert a + b == b;
    } else {
      assert (a + b)[0] == a[0];
      assert (a + b)[1..] == a[1..] + b;
      DeliveriesDistribute(a[1..], b, cb);
    }
  }

  lemma CallsWithConcat(cb: Callback, k: OpId, a: seq<Frame>, b: seq<Frame>)
    ensures CallsWith(cb, k, a + b) == CallsWith(cb, k, a) + CallsWith(cb, k, b)
  {
  }

  /** When `cb` is registered for `k` alone, the calls it gets from a run of
      input are exactly `cb(k, f)` for the frames `f` addressed to `k`, in
      arrival order. */
  lemma {:induction false} DeliveriesFollowArrival(cbs: map<OpId, Callback>, inputs: seq<Input>, k: OpId, cb: Callback)
    requires k in cbs && cbs[k] == cb
    requires forall j :: j in cbs && cbs[j] == cb ==> j == k
    ensures DeliveriesTo(Notifications(cbs, inputs), cb) == CallsWith(cb, k, FramesFor(inputs, k))
  {
    if inputs != [] {
      var n := NotificationOf(cbs, inputs[0]);
      var h := FrameFor(inputs[0], k);
      DeliveriesFollowArrival(cbs, inputs[1..], k, cb);
      DeliveriesDistribute(n, Notifications(cbs, inputs[1..]), cb);
      assert DeliveriesTo(n, cb) == CallsWith(cb, k, h) by {
        var x := inputs[0];
        if x.Received? && x.frame.typ != KEEP_ALIVE && x.frame.id.Some? && x.frame.id.value in cbs {
          var j := x.frame.id.value;
          if cbs[j] == cb {
            assert j == k;
            assert n == [Invocation(cb, k, x.frame)] && h == [x.frame];
          } else {
            assert j != k && DeliveriesTo(n, cb) == [] && h == [];
          }
        } else {
          assert n == [];
          assert h == [] by { assert x.Received? && x.frame.typ != KEEP_ALIVE ==> x.frame.id != Some(k); }
        }
      }
      CallsWithConcat(cb, k, h, FramesFor(inputs[1..], k));
    }
  }

  /** A subscription callback registered for `k` alone sees, from the
      receiver, only frames for `k`, and all of them, in the order the server
      sent them. */
  lemma CallbackSeesOwnFramesInOrder(s: Session, k: OpId, cb: Callback)
    requires Listening(s) && NoViolation(s.pending)
    requires k in s.boxes.callbacks && s.boxes.callbacks[k] == cb
    requires forall j :: j in s.boxes.callbacks && s.boxes.callbacks[j] == cb ==> j == k
    ensures DeliveriesTo(Drain(s).invoked, cb)
         == DeliveriesTo(s.invoked, cb) + CallsWith(cb, k, FramesFor(s.pending, k))
  {
    DrainNotifies(s);
    DeliveriesDistribute(s.invoked, Notifications(s.boxes.callbacks, s.pending), cb);
    DeliveriesFollowArrival(s.boxes.callbacks, s.pending, k, cb);
  }

  /** Every callback call the receiver makes is to the callback registered
      for the frame's own id; the earlier log is kept. No input is assumed
      well formed. */
  lemma {:induction false} DrainCallsOnlyRegistered(s: Session)
    ensures var r := Drain(s);
      && |s.invoked| <= |r.invoked| && r.invoked[..|s.invoked|] == s.invoked
      && forall i :: |s.invoked| <= i < |r.invoked| ==> Registered(s.boxes.callbacks, r.invoked[i])
    decreases |s.pending|
  {
    if Listening(s) && s.pending != [] {
      var s1 := Receive(s);
      DrainCallsOnlyRegistered(s1);
      var r := Drain(s1);
      assert |s.invoked| <= |s1.invoked| && s1.invoked[..|s.invoked|] == s.invoked;
      forall i | |s.invoked| <= i < |r.invoked|
        ensures Registered(s.boxes.callbacks, r.invoked[i])
      {
        if i < |s1.invoked| {
          assert r.invoked[i] == s1.invoked[i];
        }
      }
      assert r.invoked[..|s.invoked|] == s1.invoked[..|s1.invoked|][..|s.invoked|];
    }
  }

  /** A frame the receiver delivers into a queue stays where it belongs, and
      whatever a blocking take returns comes from the queue it waited on: a
      frame without an id from the global queue, a frame with id `k` from
      `k`'s queue, never a keep-alive. */
  lemma {:induction false} AwaitKeepsRouting(s: Session, t: Target)
    requires Has(s.boxes, t) && WellRouted(s.boxes)
    ensures WellRouted(Await(s, t).0.boxes)
    ensures Await(s, t).1.Some? ==> Await(s, t).1.value.typ != KEEP_ALIVE
    ensures Await(s, t).1.Some? && t.Global? ==> Await(s, t).1.value.id.None?
    ensures Await(s, t).1.Some? && t.Operation? ==> Await(s, t).1.value.id == Some(t.id)
    decreases |s.pending|
  {
    if QueueOf(s.boxes, t) != [] {
      var r := Pop(s, t).boxes;
      if t.Operation? {
        forall j, i | j in r.perOp && 0 <= i < |r.perOp[j]|
          ensures r.perOp[j][i].id == Some(j) && r.perOp[j][i].typ != KEEP_ALIVE
        {
          if j == t.id { assert r.perOp[j][i] == s.boxes.perOp[j][i + 1]; }
        }
      } else {
        forall i | 0 <= i < |r.global|
          ensures r.global[i].id.None? && r.global[i].typ != KEEP_ALIVE
        {
          assert r.global[i] == s.boxes.global[i + 1];
        }
      }
    } else if Listening(s) && s.pending != [] {
      DispatchKeepsRouting(s.boxes, s.pending[0]);
      AwaitKeepsRouting(Receive(s), t);
    }
  }

  /** A protocol violation ends the receiver: nothing is routed, no callback
      is called, and the messages after it are never read. */
  lemma ViolationEndsReceiver(s: Session, f: Frame)
    requires Listening(s) && s.pending != [] && s.pending[0] == Received(f)
    requires LacksRequiredId(f)
    ensures Drain(s) == s.(pending := s.pending[1..], fault := Some(f))
  {
  }

  // The handshake.

  /** The handshake sends nothing and changes nothing when it has succeeded
      before with equal headers. Otherwise it caches the headers, sends
      exactly one `connection_init` frame carrying them, sets the init flag
      exactly when it returns, leaves the flag as it was when it raises (and
      what it raises is a ConnectionException), and leaves callbacks and
      subscriptions alone. */
  lemma ConnectionInitEffect(s: Session, headers: Json)
    ensures var (r, out) := ConnectionInit(s, headers);
      if s.initDone && headers == s.headers then r == s && out == Returned(())
      else
        && r.headers == headers
        && r.sent == s.sent + [InitFrame(headers)]
        && (out.Returned? ==> r.initDone)
        && (!out.Returned? ==> r.initDone == s.initDone)
        && (out.Raised? ==> out.error.ConnectionException?)
        && r.boxes.callbacks == s.boxes.callbacks
        && s.boxes.perOp.Keys <= r.boxes.perOp.Keys
        && r.subscriptions == s.subscriptions
  {
  }

  /** A successful handshake makes a second one with the same headers a
      no-op. */
  lemma ConnectionInitIdempotent(s: Session, headers: Json)
    requires ConnectionInit(s, headers).1.Returned?
    ensures var r := ConnectionInit(s, headers).0;
      ConnectionInit(r, headers) == (r, Returned(()))
  {
  }

  /** The frames a run of input will add to queue `t`, in order. */
  function Arriving(inputs: seq<Input>, t: Target): seq<Frame> {
    if t.Global? then Untagged(inputs) else FramesFor(inputs, t.id)
  }

  /** A blocking `get` is first-in, first-out: with no protocol violation
      pending, it returns the head of the queue, or else the first frame the
      server sends for that queue, and blocks exactly when there is none.
      The frames it does not take stay, in order, for the next `get`. */
  lemma {:induction false} AwaitTakesFirst(s: Session, t: Target)
    requires Listening(s) && NoViolation(s.pending) && Has(s.boxes, t)
    ensures var A := QueueOf(s.boxes, t) + Arriving(s.pending, t);
      var r := Await(s, t);
      && Listening(r.0) && NoViolation(r.0.pending)
      && (r.1.None? <==> A == [])
      && (A != [] ==> r.1 == Some(A[0]) && QueueOf(r.0.boxes, t) + Arriving(r.0.pending, t) == A[1..])
    decreases |s.pending|
  {
    var Q := QueueOf(s.boxes, t);
    if Q != [] {
      var A := Q + Arriving(s.pending, t);
      assert Await(s, t) == (Pop(s, t), Some(Q[0]));
      assert A[0] == Q[0] && A[1..] == Q[1..] + Arriving(s.pending, t);
    } else if s.pending != [] {
      AwaitStep(s, t);
      AwaitTakesFirst(Receive(s), t);
    }
  }

  /** One receiver step of a wait on an empty queue: the frames still to
      come for the queue are the same before and after it. */
  lemma AwaitStep(s: Session, t: Target)
    requires Listening(s) && NoViolation(s.pending) && Has(s.boxes, t)
    requires QueueOf(s.boxes, t) == [] && s.pending != []
    ensures var s1 := Receive(s);
      && Await(s, t) == Await(s1, t)
      && Listening(s1) && NoViolation(s1.pending) && Has(s1.boxes, t)
      && QueueOf(s1.boxes, t) + Arriving(s1.pending, t) == Arriving(s.pending, t)
  {
    var s1 := Receive(s);
    ReceiveRoutes(s);
    NoViolationTail(s.pending);
    var x := s.pending[0];
    if t.Global? {
      assert Arriving(s.pending, t) == UntaggedOf(x) + Arriving(s1.pending, t);
    } else {
      assert Arriving(s.pending, t) == FrameFor(x, t.id) + Arriving(s1.pending, t);
      assert QueueOrEmpty(s.boxes, t.id) == [];
      assert QueueOf(s1.boxes, t) == QueueOrEmpty(s1.boxes, t.id);
    }
  }

  /** The first frame without an id that the server sends, or the one
      already at the head of the global queue, decides the handshake:
      `connection_ack` accepts it, `connection_error` raises its payload (or
      'unknown error'), anything else raises a message naming the type. With
      no such frame the handshake waits forever. Keep-alives are skipped and
      frames for operations are queued on the way. */
  lemma HandshakeDecidedByFirstUntaggedFrame(s: Session, headers: Json)
    requires !(s.initDone && headers == s.headers)
    requires Listening(s) && NoViolation(s.pending)
    ensures var A := s.boxes.global + Untagged(s.pending);
      var out := ConnectionInit(s, headers).1;
      && (A == [] ==> out == Blocked)
      && (A != [] && A[0].typ == CONNECTION_ACK ==> out == Returned(()))
      && (A != [] && A[0].typ == CONNECTION_ERROR ==>
            out == Raised(ConnectionException(if A[0].payload.Some? then A[0].payload.value else JStr(UNKNOWN_ERROR))))
      && (A != [] && A[0].typ != CONNECTION_ACK && A[0].typ != CONNECTION_ERROR ==>
            out == Raised(ConnectionException(JStr(UNKNOWN_MESSAGE + A[0].typ))))
  {
    var s1 := Send(s.(headers := headers), InitFrame(headers));
    AwaitTakesFirst(s1, Global);
  }

  // Operations.

  /** The exchange after the handshake returns a frame of its own
      operation, never a keep-alive. On success it has sent `start` then
      `stop` with its id, and it leaves no queue and no callback for the id.
      With no protocol violation pending, it returns exactly when the server
      sends at least two frames for the id, and what it returns is the
      first of them; otherwise it waits forever. */
  lemma ExchangeEffect(s: Session, payload: Json, opId: OpId)
    requires WellRouted(s.boxes) && opId !in s.boxes.callbacks
    ensures var (r, out) := Exchange(s, payload, opId);
      out.Returned? ==>
        && out.value.id == Some(opId) && out.value.typ != KEEP_ALIVE
        && r.sent == s.sent + [StartFrame(opId, payload), StopFrame(opId)]
        && opId !in r.boxes.perOp
        && r.boxes.callbacks == s.boxes.callbacks
        && r.subscriptions == s.subscriptions
    ensures Listening(s) && NoViolation(s.pending) ==>
      var F := FramesFor(s.pending, opId);
      var out := Exchange(s, payload, opId).1;
      && (out.Returned? <==> |F| >= 2)
      && (out.Returned? ==> out.value == F[0])
      && (!out.Returned? ==> out == Blocked)
  {
    var s2 := Start(s, payload, None, opId);
    assert WellRouted(s2.boxes) by {
      forall k, i | k in s2.boxes.perOp && 0 <= i < |s2.boxes.perOp[k]|
        ensures s2.boxes.perOp[k][i].id == Some(k) && s2.boxes.perOp[k][i].typ != KEEP_ALIVE
      {
        assert k != opId;
      }
    }
    AwaitKeepsRouting(s2, Operation(opId));
    if Listening(s) && NoViolation(s.pending) {
      ExchangeTakesFirst(s, payload, opId);
    }
  }

  /** The exchange takes from its own queue first in, first out: the
      result is the first frame for the id, the acknowledgement after `stop`
      the second; without both it waits forever. */
  lemma ExchangeTakesFirst(s: Session, payload: Json, opId: OpId)
    requires Listening(s) && NoViolation(s.pending)
    ensures var F := FramesFor(s.pending, opId);
      var out := Exchange(s, payload, opId).1;
      && (out.Returned? <==> |F| >= 2)
      && (out.Returned? ==> out.value == F[0])
      && (!out.Returned? ==> out == Blocked)
  {
    var s2 := Start(s, payload, None, opId);
    assert QueueOf(s2.boxes, Operation(opId)) + Arriving(s2.pending, Operation(opId)) == FramesFor(s.pending, opId);
    AwaitTakesFirst(s2, Operation(opId));
    var (s3, res) := Await(s2, Operation(opId));
    if res.Some? {
      AwaitTakesFirst(Stop(s3, opId), Operation(opId));
    }
  }

  /** With no protocol violation pending, the receiver is still listening
      after the handshake, with no violation pending. */
  lemma HandshakeKeepsListening(s: Session, headers: Json)
    requires Listening(s) && NoViolation(s.pending)
    ensures var s1 := ConnectionInit(s, headers).0;
      Listening(s1) && NoViolation(s1.pending)
  {
    if !(s.initDone && headers == s.headers) {
      AwaitTakesFirst(Send(s.(headers := headers), InitFrame(headers)), Global);
    }
  }

  /** `query` returns a frame of its own operation, never a keep-alive. On
      success it has sent `start` then `stop` with its id after the
      handshake, and it leaves no queue and no callback for the id. */
  lemma QueryEffect(s: Session, query: string, variables: Json, headers: Json, opId: OpId)
    requires WellRouted(s.boxes) && opId !in s.boxes.callbacks
    ensures var (r, out) := Query(s, query, variables, headers, opId);
      var s1 := ConnectionInit(s, headers).0;
      out.Returned? ==>
        && out.value.id == Some(opId) && out.value.typ != KEEP_ALIVE
        && r.sent == s1.sent + [StartFrame(opId, StartPayload(query, variables, headers)), StopFrame(opId)]
        && opId !in r.boxes.perOp
        && r.boxes.callbacks == s.boxes.callbacks
        && r.subscriptions == s.subscriptions
  {
    var (s1, init) := ConnectionInit(s, headers);
    if !(s.initDone && headers == s.headers) {
      AwaitKeepsRouting(Send(s.(headers := headers), InitFrame(headers)), Global);
    }
    if init.Returned? {
      ExchangeEffect(s1, StartPayload(query, variables, headers), opId);
    }
  }

  /** With no protocol violation pending, the receiver is still listening
      after the handshake of `query`; then `query` returns the first frame
      the server sends for its id, and returns exactly when the server sends
      two of them. */
  lemma QueryTakesFirst(s: Session, query: string, variables: Json, headers: Json, opId: OpId)
    requires Listening(s) && NoViolation(s.pending)
    ensures var (s1, init) := ConnectionInit(s, headers);
      var F := FramesFor(s1.pending, opId);
      var out := Query(s, query, variables, headers, opId).1;
      && Listening(s1) && NoViolation(s1.pending)
      && (init.Returned? ==> (out.Returned? <==> |F| >= 2))
      && (out.Returned? ==> out.value == F[0])
  {
    var (s1, init) := ConnectionInit(s, headers);
    HandshakeKeepsListening(s, headers);
    if init.Returned? {
      ExchangeTakesFirst(s1, StartPayload(query, variables, headers), opId);
    }
  }

  /** `subscribe` with a missing or uncallable callback raises TypeError
      before any handshake or send: nothing changes. */
  lemma SubscribeChecksCallbackFirst(s: Session, query: string, variables: Json, headers: Json,
                                     callback: CallbackArg, opId: OpId)
    requires !callback.Fn?
    ensures Subscribe(s, query, variables, headers, callback, opId) == (s, Raised(TypeError(CALLBACK_REQUIRED)))
  {
  }

  /** A successful `subscribe` returns the fresh id, registers the callback
      under it with an empty queue, sends one `start` frame tagged with it
      after the handshake, and appends the reconnection record. */
  lemma SubscribeEffect(s: Session, query: string, variables: Json, headers: Json, cb: Callback, opId: OpId)
    ensures var (r, out) := Subscribe(s, query, variables, headers, Fn(cb), opId);
      var s1 := ConnectionInit(s, headers).0;
      out.Returned? ==>
        && out.value == opId
        && r.boxes.callbacks == s.boxes.callbacks[opId := cb]
        && opId in r.boxes.perOp && r.boxes.perOp[opId] == []
        && r.sent == s1.sent + [StartFrame(opId, StartPayload(query, variables, headers))]
        && r.subscriptions == s.subscriptions + [Subscription(query, variables, headers, cb)]
  {
    ConnectionInitEffect(s, headers);
  }

  /** `stop_subscribe` sends `stop` and removes exactly `opId`'s callback and
      queue; other ids and the global queue are untouched. */
  lemma StopSubscribeRemovesOnlyItsOwn(s: Session, opId: OpId)
    requires opId in s.boxes.callbacks
    ensures var (r, out) := StopSubscribe(s, opId);
      && out == Returned(())
      && r.sent == s.sent + [StopFrame(opId)]
      && r.boxes.callbacks == s.boxes.callbacks - {opId}
      && r.boxes.perOp == s.boxes.perOp - {opId}
      && r.boxes.global == s.boxes.global
  {
  }

  /** `stop_subscribe` on an id without a callback has already sent `stop`
      when `_remove_subscriber` raises KeyError; the tables are unchanged. */
  lemma StopSubscribeUnknownId(s: Session, opId: OpId)
    requires opId !in s.boxes.callbacks
    ensures StopSubscribe(s, opId) == (Send(s, StopFrame(opId)), Raised(KeyError(opId)))
  {
  }

  /** `_remove_operation_queue` of an id without a queue changes nothing,
      where `_remove_subscriber` of an id without a callback raises. */
  lemma RemovalTolerance(s: Session, opId: OpId)
    requires opId !in s.boxes.perOp && opId !in s.boxes.callbacks
    ensures RemoveOperationQueue(s, opId) == s
    ensures RemoveSubscriber(s, opId) == (s, Raised(KeyError(opId)))
  {
  }

  /** With no callback registered, the receiver calls none, whatever it
      reads. */
  lemma {:induction false} DrainSilentWithoutCallbacks(s: Session)
    requires s.boxes.callbacks == map[]
    ensures Drain(s).invoked == s.invoked
    decreases |s.pending|
  {
    if Listening(s) && s.pending != [] {
      assert Receive(s).invoked == s.invoked;
      DrainSilentWithoutCallbacks(Receive(s));
    }
  }

  /** After `stop_subscribe(opId)`, whatever the server keeps sending, the
      receiver calls no callback with `opId`. */
  lemma StoppedSubscriptionIsSilent(s: Session, opId: OpId, later: seq<Input>)
    requires StopSubscribe(s, opId).1.Returned?
    ensures var r := Deliver(StopSubscribe(s, opId).0, later);
      forall i :: |r.invoked| <= i < |Drain(r).invoked| ==> Drain(r).invoked[i].opId != opId
  {
    var r := Deliver(StopSubscribe(s, opId).0, later);
    DrainCallsOnlyRegistered(r);
    assert opId !in r.boxes.callbacks;
  }
}
