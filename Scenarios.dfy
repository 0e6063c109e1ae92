/**
 * End-to-end runs of the websocket client against the mock server of the
 * test suite: the server's input to the client is exactly what the mock
 * answers to the frames the client sends.
 */
module Scenarios {
  import opened Protocol
  import opened Routing
  import opened ClientSpec
  import opened ClientProps
  import opened MockServer

  /** Frames as the receiver reads them off the socket. */
  function AsInputs(frames: seq<Frame>): (r: seq<Input>)
    ensures |r| == |frames| && forall i :: 0 <= i < |frames| ==> r[i] == Received(frames[i])
  {
    seq(|frames|, i requires 0 <= i < |frames| => Received(frames[i]))
  }

  /** Every frame names operation `k` and none is a keep-alive. */
  ghost predicate AllFor(frames: seq<Frame>, k: OpId) {
    forall i :: 0 <= i < |frames| ==> frames[i].id == Some(k) && frames[i].typ != KEEP_ALIVE
  }

  /** `m` is an interleaving of `a` and `b`: both kept in order. */
  ghost predicate Interleaves(m: seq<Frame>, a: seq<Frame>, b: seq<Frame>)
    decreases |m|
  {
    if m == [] then a == [] && b == []
    else
      || (a != [] && m[0] == a[0] && Interleaves(m[1..], a[1..], b))
      || (b != [] && m[0] == b[0] && Interleaves(m[1..], a, b[1..]))
  }

  lemma AllForNoViolation(frames: seq<Frame>, k: OpId)
    requires AllFor(frames, k)
    ensures NoViolation(AsInputs(frames))
  {
  }

  /** From a run of frames all for `k`, the receiver routes every one to `k`. */
  lemma {:induction false} FramesForAllFor(frames: seq<Frame>, k: OpId)
    requires AllFor(frames, k)
    ensures FramesFor(AsInputs(frames), k) == frames
  {
    if frames != [] {
      assert AsInputs(frames)[1..] == AsInputs(frames[1..]);
      FramesForAllFor(frames[1..], k);
    }
  }

  /** From any interleaving of frames for `k1` and frames for `k2`, the
      frames addressed to `k1` are exactly the first run, in its order. */
  lemma {:induction false} FramesForInterleaving(m: seq<Frame>, a: seq<Frame>, b: seq<Frame>, k1: OpId, k2: OpId)
    requires k1 != k2 && AllFor(a, k1) && AllFor(b, k2) && Interleaves(m, a, b)
    ensures FramesFor(AsInputs(m), k1) == a
    ensures NoViolation(AsInputs(m))
    decreases |m|
  {
    if m != [] {
      assert AsInputs(m)[1..] == AsInputs(m[1..]);
      if a != [] && m[0] == a[0] && Interleaves(m[1..], a[1..], b) {
        FramesForInterleaving(m[1..], a[1..], b, k1, k2);
        assert a == [a[0]] + a[1..];
      } else {
        FramesForInterleaving(m[1..], a, b[1..], k1, k2);
      }
      assert NoViolation(AsInputs(m)) by {
        forall i | 0 <= i < |m| ensures !LacksRequiredId(m[i]) {
          if i > 0 { assert AsInputs(m[1..])[i - 1] == Received(m[i]); }
        }
      }
    }
  }

  const ACK := Frame(CONNECTION_ACK, None, None)

  lemma AsInputsCons(frames: seq<Frame>)
    requires frames != []
    ensures AsInputs(frames) == [Received(frames[0])] + AsInputs(frames[1..])
  {
  }

  /** What the mock server answers to a client's `start`. */
  lemma MockAnswersStart(opId: OpId, query: string, variables: Json)
    ensures Respond(StartFrame(opId, StartPayload(query, variables, JNull)))
         == Some(if IsSubscriptionText(query)
                 then [DataFrame(opId), DataFrame(opId), DataFrame(opId), CompleteFrame(opId)]
                 else [DataFrame(opId), CompleteFrame(opId)])
  {
    assert QueryText(StartFrame(opId, StartPayload(query, variables, JNull)).payload) == Some(query);
  }

  /** The client right after its handshake with the mock server. */
  function Shaken(rest: seq<Input>): Session {
    Initial(rest).(initDone := true, sent := [InitFrame(JNull)])
  }

  /** The handshake of a fresh client against the mock server: one
      `connection_init` out, the `connection_ack` in. */
  lemma HandshakeWithMock(rest: seq<Input>)
    ensures ConnectionInit(Initial([Received(ACK)] + rest), JNull) == (Shaken(rest), Returned(()))
  {
    var s0 := Initial([Received(ACK)] + rest);
    var t := Send(s0.(headers := JNull), InitFrame(JNull));
    var t1 := Receive(t);
    assert t1.boxes.global == [ACK] && t1.pending == rest;
    assert Await(t, Global) == (Pop(t1, Global), Some(ACK));
    assert Pop(t1, Global) == Initial(rest).(sent := [InitFrame(JNull)]);
  }

  /** A wait on an operation's empty queue, with no callback for it, when
      the next message is for that operation: the message is returned and
      nothing else changes. */
  lemma AwaitOwnFrame(s: Session, k: OpId, f: Frame, rest: seq<Input>)
    requires Listening(s) && k in s.boxes.perOp && s.boxes.perOp[k] == [] && k !in s.boxes.callbacks
    requires s.pending == [Received(f)] + rest && f.id == Some(k) && f.typ != KEEP_ALIVE
    ensures Await(s, Operation(k)) == (s.(pending := rest), Some(f))
  {
    assert s.pending[0] == Received(f) && s.pending[1..] == rest;
    TaggedFrameGoesToItsQueue(s.boxes, f, k);
    assert QueueOrEmpty(s.boxes, k) + [f] == [f];
    var s1 := Receive(s);
    assert s1 == s.(boxes := s.boxes.(perOp := s.boxes.perOp[k := [f]]), pending := rest);
    assert s1.boxes.perOp[k := []] == s.boxes.perOp;
  }

  /** The exchange of `query` after the handshake, when the server answers
      the `start` with two frames for the operation: the first is the
      result, the second the acknowledgement of `stop`, and the queue is
      gone afterwards. */
  lemma ExchangeOverTwoFrames(s: Session, payload: Json, opId: OpId, f: Frame, g: Frame, rest: seq<Input>)
    requires Listening(s)
    requires opId !in s.boxes.perOp && opId !in s.boxes.callbacks
    requires s.pending == [Received(f), Received(g)] + rest
    requires f.id == Some(opId) && g.id == Some(opId) && f.typ != KEEP_ALIVE && g.typ != KEEP_ALIVE
    ensures Exchange(s, payload, opId)
         == (s.(sent := s.sent + [StartFrame(opId, payload), StopFrame(opId)], pending := rest), Returned(f))
  {
    var s2 := Start(s, payload, None, opId);
    var s3 := s2.(pending := [Received(g)] + rest);
    var s4 := Stop(s3, opId).(pending := rest);
    assert [Received(f), Received(g)] + rest == [Received(f)] + ([Received(g)] + rest);
    AwaitOwnFrame(s2, opId, f, [Received(g)] + rest);
    AwaitOwnFrame(Stop(s3, opId), opId, g, rest);
    assert s4.boxes.perOp - {opId} == s.boxes.perOp;
    assert s4.sent == s.sent + [StartFrame(opId, payload), StopFrame(opId)];
  }

  /** On a fresh client whose server acknowledges the handshake, `query`
      goes on to the exchange from the acknowledged state. */
  lemma QueryAfterAck(rest: seq<Input>, query: string, variables: Json, opId: OpId)
    ensures Query(Initial([Received(ACK)] + rest), query, variables, JNull, opId)
         == Exchange(Shaken(rest), StartPayload(query, variables, JNull), opId)
  {
    HandshakeWithMock(rest);
  }

  /** The exchange right after the handshake, when the server answers with
      two or more frames for the operation. */
  lemma ExchangeAfterAck(R: seq<Frame>, payload: Json, opId: OpId)
    requires |R| >= 2 && R[0].id == Some(opId) && R[0].typ != KEEP_ALIVE
    requires R[1].id == Some(opId) && R[1].typ != KEEP_ALIVE
    ensures Exchange(Shaken(AsInputs(R)), payload, opId)
         == (Shaken(AsInputs(R[2..])).(sent := [InitFrame(JNull), StartFrame(opId, payload), StopFrame(opId)]),
             Returned(R[0]))
  {
    var h := Shaken(AsInputs(R));
    assert AsInputs(R) == [Received(R[0]), Received(R[1])] + AsInputs(R[2..]);
    ExchangeOverTwoFrames(h, payload, opId, R[0], R[1], AsInputs(R[2..]));
    assert h.sent + [StartFrame(opId, payload), StopFrame(opId)]
        == [InitFrame(JNull), StartFrame(opId, payload), StopFrame(opId)];
  }

  /** A fresh client whose server acknowledges the handshake and answers
      the `start` with two or more frames for the operation, the first a
      `data` frame: `query` returns that frame, having sent exactly
      `connection_init`, `start` and `stop`, and drops the queue. */
  lemma QueryOverReplies(R: seq<Frame>, query: string, variables: Json, opId: OpId)
    requires |R| >= 2 && R[0] == DataFrame(opId) && R[1].id == Some(opId) && R[1].typ != KEEP_ALIVE
    ensures var (r, out) := Query(Initial([Received(ACK)] + AsInputs(R)), query, variables, JNull, opId);
      && out == Returned(DataFrame(opId))
      && r.sent == [InitFrame(JNull), StartFrame(opId, StartPayload(query, variables, JNull)), StopFrame(opId)]
      && opId !in r.boxes.perOp && r.initDone
      && Listening(r) && r.headers == JNull && r.boxes == Mailboxes([], map[], map[])
      && r.pending == AsInputs(R[2..])
  {
    QueryAfterAck(AsInputs(R), query, variables, opId);
    ExchangeAfterAck(R, StartPayload(query, variables, JNull), opId);
  }

  /** `test_query`: against the mock server, `query` returns a `data` frame
      of its own operation, after sending `connection_init`, `start` and
      `stop`; when it returns, the operation has no queue and everything
      the server sent has been read. This holds for any document. */
  lemma QueryAgainstMockServer(query: string, variables: Json, opId: OpId)
    ensures var start := StartFrame(opId, StartPayload(query, variables, JNull));
      Respond(start).Some? &&
      var s0 := Initial(AsInputs(Respond(InitFrame(JNull)).value + Respond(start).value));
      var (r, out) := Query(s0, query, variables, JNull, opId);
      && out == Returned(DataFrame(opId))
      && r.sent == [InitFrame(JNull), start, StopFrame(opId)]
      && opId !in r.boxes.perOp && r.initDone
  {
    var start := StartFrame(opId, StartPayload(query, variables, JNull));
    MockAnswersStart(opId, query, variables);
    var R := Respond(start).value;
    assert AsInputs(Respond(InitFrame(JNull)).value + R) == [Received(ACK)] + AsInputs(R);
    QueryOverReplies(R, query, variables, opId);
  }

  /** `query` on a fresh client against the mock server, for a document
      that is not a subscription: the state it leaves behind. */
  lemma QueryStateAgainstMockServer(query: string, variables: Json, opId: OpId)
    requires !IsSubscriptionText(query)
    ensures var start := StartFrame(opId, StartPayload(query, variables, JNull));
      var s0 := Initial(AsInputs([ACK] + [DataFrame(opId), CompleteFrame(opId)]));
      Respond(InitFrame(JNull)).value + Respond(start).value == [ACK] + [DataFrame(opId), CompleteFrame(opId)] &&
      Query(s0, query, variables, JNull, opId)
        == (Shaken([]).(sent := [InitFrame(JNull), start, StopFrame(opId)]), Returned(DataFrame(opId)))
  {
    var R := [DataFrame(opId), CompleteFrame(opId)];
    MockAnswersStart(opId, query, variables);
    assert AsInputs([ACK] + R) == [Received(ACK)] + AsInputs(R);
    assert R[2..] == [] && AsInputs(R[2..]) == [];
    QueryAfterAck(AsInputs(R), query, variables, opId);
    ExchangeAfterAck(R, StartPayload(query, variables, JNull), opId);
  }

  /** The mock server answers the `stop` of a finished `query` with a
      `complete` that arrives after `query` has dropped the operation's
      queue: the receiver creates the queue again, holding that frame, and
      nothing removes it afterwards. */
  lemma LateCompleteRecreatesQueue(query: string, variables: Json, opId: OpId)
    requires !IsSubscriptionText(query)
    ensures var start := StartFrame(opId, StartPayload(query, variables, JNull));
      var s0 := Initial(AsInputs(Respond(InitFrame(JNull)).value + Respond(start).value));
      var r := Query(s0, query, variables, JNull, opId).0;
      var later := Drain(Deliver(r, AsInputs(Respond(StopFrame(opId)).value)));
      && opId !in r.boxes.perOp
      && later.boxes.perOp == map[opId := [CompleteFrame(opId)]]
      && later.invoked == r.invoked && Listening(later) && later.pending == []
  {
    QueryStateAgainstMockServer(query, variables, opId);
    var r := Shaken([]).(sent := [InitFrame(JNull), StartFrame(opId, StartPayload(query, variables, JNull)), StopFrame(opId)]);
    var t := Deliver(r, AsInputs([CompleteFrame(opId)]));
    assert Respond(StopFrame(opId)).value == [CompleteFrame(opId)];
    assert t.pending == [Received(CompleteFrame(opId))];
    TaggedFrameGoesToItsQueue(t.boxes, CompleteFrame(opId), opId);
    assert Drain(t) == Receive(t);
  }

  /** The query document of the test suite. */
  const TEST_QUERY: string :=
    "\n" + "query" + " getUser($userId: Int!) {\n  user (id: $userId) {\n    id\n    username\n  }\n}\n"

  /** The query document of the test suite is not a subscription document. */
  lemma TestQueryDocument()
    ensures !IsSubscriptionText(TEST_QUERY)
  {
    var tail := " getUser($userId: Int!) {\n  user (id: $userId) {\n    id\n    username\n  }\n}\n";
    var rest := "query" + tail;
    assert TEST_QUERY == ['\n'] + rest;
    assert rest[0] == 'q' && !IsSpace('q');
    LeadingSpaceIgnored('\n', rest);
    assert LStrip(rest) == rest;
    assert rest[..1] == "q";
    RStripKeepsPrefix(rest, "q");
    assert Strip(TEST_QUERY)[0] == 'q';
  }

  /** A wait on an operation's empty queue reads past a frame for another
      id that has no callback, which goes to that id's queue. */
  lemma AwaitPastOtherFrame(s: Session, k: OpId, j: OpId, g: Frame, rest: seq<Input>)
    requires Listening(s) && k in s.boxes.perOp && s.boxes.perOp[k] == [] && j != k && j !in s.boxes.callbacks
    requires s.pending == [Received(g)] + rest && g.id == Some(j) && g.typ != KEEP_ALIVE
    ensures Await(s, Operation(k))
         == Await(s.(boxes := s.boxes.(perOp := s.boxes.perOp[j := QueueOrEmpty(s.boxes, j) + [g]]), pending := rest),
                  Operation(k))
  {
    assert s.pending[0] == Received(g) && s.pending[1..] == rest;
    TaggedFrameGoesToItsQueue(s.boxes, g, j);
    assert s.invoked + [] == s.invoked;
    assert Receive(s) == s.(boxes := s.boxes.(perOp := s.boxes.perOp[j := QueueOrEmpty(s.boxes, j) + [g]]), pending := rest);
  }

  /** A `query` on a client that has finished one before: the handshake is
      not repeated; the late `complete` of the earlier operation `k1` comes
      first, and goes to a queue for `k1` that nothing removes; then the
      new operation's two frames. The `data` frame for `k2` is returned. */
  lemma QueryAfterLateComplete(u: Session, query: string, variables: Json, k1: OpId, k2: OpId)
    requires k1 != k2 && Listening(u) && u.initDone && u.headers == JNull
    requires u.boxes == Mailboxes([], map[], map[])
    requires u.pending == AsInputs([CompleteFrame(k1), DataFrame(k2), CompleteFrame(k2)])
    ensures var (r, out) := Query(u, query, variables, JNull, k2);
      && out == Returned(DataFrame(k2))
      && r.sent == u.sent + [StartFrame(k2, StartPayload(query, variables, JNull)), StopFrame(k2)]
      && r.boxes == Mailboxes([], map[k1 := [CompleteFrame(k1)]], map[])
  {
    var p := StartPayload(query, variables, JNull);
    assert Query(u, query, variables, JNull, k2) == Exchange(u, p, k2);
    assert u.pending == [Received(CompleteFrame(k1)), Received(DataFrame(k2)), Received(CompleteFrame(k2))];
    ExchangeAfterLateComplete(u, p, k1, k2);
  }

  /** The exchange of that `query`, state by state. */
  lemma ExchangeAfterLateComplete(u: Session, p: Json, k1: OpId, k2: OpId)
    requires k1 != k2 && Listening(u) && u.boxes == Mailboxes([], map[], map[])
    requires u.pending == [Received(CompleteFrame(k1)), Received(DataFrame(k2)), Received(CompleteFrame(k2))]
    ensures var (r, out) := Exchange(u, p, k2);
      && out == Returned(DataFrame(k2))
      && r.sent == u.sent + [StartFrame(k2, p), StopFrame(k2)]
      && r.boxes == Mailboxes([], map[k1 := [CompleteFrame(k1)]], map[])
  {
    var s2 := Start(u, p, None, k2);
    TakePastLateComplete(s2, k1, k2);
    var s3 := s2.(boxes := Mailboxes([], map[k2 := [], k1 := [CompleteFrame(k1)]], map[]),
                  pending := [Received(CompleteFrame(k2))]);
    TakeOwnComplete(s3, k1, k2);
    ExchangeOfTwoTakes(u, p, k2, s3, DataFrame(k2), Stop(s3, k2).(pending := []), CompleteFrame(k2));
  }

  /** The second wait of that `query`: its own `complete`, after which
      only the earlier operation's queue is left. */
  lemma TakeOwnComplete(s3: Session, k1: OpId, k2: OpId)
    requires k1 != k2 && Listening(s3)
    requires s3.boxes == Mailboxes([], map[k2 := [], k1 := [CompleteFrame(k1)]], map[])
    requires s3.pending == [Received(CompleteFrame(k2))]
    ensures Await(Stop(s3, k2), Operation(k2)) == (Stop(s3, k2).(pending := []), Some(CompleteFrame(k2)))
    ensures var r := RemoveOperationQueue(Stop(s3, k2).(pending := []), k2);
      r.boxes == Mailboxes([], map[k1 := [CompleteFrame(k1)]], map[]) && r.sent == s3.sent + [StopFrame(k2)]
  {
    assert [Received(CompleteFrame(k2))] == [Received(CompleteFrame(k2))] + [];
    AwaitOwnFrame(Stop(s3, k2), k2, CompleteFrame(k2), []);
    assert map[k2 := [], k1 := [CompleteFrame(k1)]] - {k2} == map[k1 := [CompleteFrame(k1)]];
  }

  /** An exchange whose two takes both get a frame. */
  lemma ExchangeOfTwoTakes(s: Session, payload: Json, opId: OpId, a: Session, f: Frame, b: Session, g: Frame)
    requires Await(Start(s, payload, None, opId), Operation(opId)) == (a, Some(f))
    requires Has(Stop(a, opId).boxes, Operation(opId))
    requires Await(Stop(a, opId), Operation(opId)) == (b, Some(g))
    ensures Exchange(s, payload, opId) == (RemoveOperationQueue(b, opId), Returned(f))
  {
  }

  /** The first wait of that `query`: past the late `complete`, to the new
      operation's `data` frame. */
  lemma TakePastLateComplete(s2: Session, k1: OpId, k2: OpId)
    requires k1 != k2 && Listening(s2) && s2.boxes == Mailboxes([], map[k2 := []], map[])
    requires s2.pending == [Received(CompleteFrame(k1)), Received(DataFrame(k2)), Received(CompleteFrame(k2))]
    ensures Await(s2, Operation(k2))
         == (s2.(boxes := Mailboxes([], map[k2 := [], k1 := [CompleteFrame(k1)]], map[]),
                 pending := [Received(CompleteFrame(k2))]),
             Some(DataFrame(k2)))
  {
    assert s2.pending == [Received(CompleteFrame(k1))] + [Received(DataFrame(k2)), Received(CompleteFrame(k2))];
    AwaitPastOtherFrame(s2, k2, k1, CompleteFrame(k1), [Received(DataFrame(k2)), Received(CompleteFrame(k2))]);
    var q := QueueOrEmpty(s2.boxes, k1) + [CompleteFrame(k1)];
    assert q == [CompleteFrame(k1)] by { assert k1 !in s2.boxes.perOp; }
    var boxes := s2.boxes.(perOp := s2.boxes.perOp[k1 := q]);
    assert boxes == Mailboxes([], map[k2 := [], k1 := [CompleteFrame(k1)]], map[]);
    var rest := [Received(DataFrame(k2)), Received(CompleteFrame(k2))];
    var a := s2.(boxes := boxes, pending := rest);
    assert rest == [Received(DataFrame(k2))] + [Received(CompleteFrame(k2))];
    AwaitOwnFrame(a, k2, DataFrame(k2), [Received(CompleteFrame(k2))]);
  }

  /** `test_multiple_queries`, two rounds: the second `query`, with a new
      id, runs on the same connection, where the `complete` answering the
      first one's `stop` arrives before the answer to its own `start`. Each
      query returns the `data` frame of its own operation, the handshake is
      not repeated, and the first operation's queue has come back. */
  lemma RepeatedQueriesAgainstMockServer(query: string, variables: Json, k1: OpId, k2: OpId)
    requires k1 != k2 && !IsSubscriptionText(query)
    ensures var start1 := StartFrame(k1, StartPayload(query, variables, JNull));
      var start2 := StartFrame(k2, StartPayload(query, variables, JNull));
      var s0 := Initial(AsInputs(Respond(InitFrame(JNull)).value + Respond(start1).value));
      var (r1, out1) := Query(s0, query, variables, JNull, k1);
      var u := Deliver(r1, AsInputs(Respond(StopFrame(k1)).value + Respond(start2).value));
      var (r2, out2) := Query(u, query, variables, JNull, k2);
      && out1 == Returned(DataFrame(k1)) && out2 == Returned(DataFrame(k2))
      && r2.sent == [InitFrame(JNull), start1, StopFrame(k1), start2, StopFrame(k2)]
      && r2.boxes.perOp == map[k1 := [CompleteFrame(k1)]]
  {
    QueryStateAgainstMockServer(query, variables, k1);
    MockAnswersStart(k2, query, variables);
    var p := StartPayload(query, variables, JNull);
    var r1 := Shaken([]).(sent := [InitFrame(JNull), StartFrame(k1, p), StopFrame(k1)]);
    var wire := [CompleteFrame(k1), DataFrame(k2), CompleteFrame(k2)];
    assert Respond(StopFrame(k1)) == Some([CompleteFrame(k1)]);
    assert Respond(StopFrame(k1)).value + Respond(StartFrame(k2, p)).value == wire;
    var u := Deliver(r1, AsInputs(wire));
    QueryAfterLateComplete(u, query, variables, k1, k2);
    assert u.sent + [StartFrame(k2, p), StopFrame(k2)]
        == [InitFrame(JNull), StartFrame(k1, p), StopFrame(k1), StartFrame(k2, p), StopFrame(k2)];
  }

  /** `subscribe` after a successful handshake. */
  lemma SubscribeAfterHandshake(s: Session, h: Session, query: string, variables: Json, cb: Callback, opId: OpId)
    requires ConnectionInit(s, JNull) == (h, Returned(()))
    ensures Subscribe(s, query, variables, JNull, Fn(cb), opId)
         == (Start(h, StartPayload(query, variables, JNull), Some(cb), opId)
               .(subscriptions := h.subscriptions + [Subscription(query, variables, JNull, cb)]),
             Returned(opId))
  {
  }

  /** The first `subscribe` of a fresh client whose server acknowledges the
      handshake. */
  lemma SubscribeAfterAck(rest: seq<Input>, query: string, variables: Json, cb: Callback, opId: OpId)
    ensures Subscribe(Initial([Received(ACK)] + rest), query, variables, JNull, Fn(cb), opId)
         == (Shaken(rest).(boxes := Mailboxes([], map[opId := []], map[opId := cb]),
                           sent := [InitFrame(JNull), StartFrame(opId, StartPayload(query, variables, JNull))],
                           subscriptions := [Subscription(query, variables, JNull, cb)]),
             Returned(opId))
  {
    HandshakeWithMock(rest);
    SubscribeAfterHandshake(Initial([Received(ACK)] + rest), Shaken(rest), query, variables, cb, opId);
    assert [InitFrame(JNull)] + [StartFrame(opId, StartPayload(query, variables, JNull))]
        == [InitFrame(JNull), StartFrame(opId, StartPayload(query, variables, JNull))];
    assert [] + [Subscription(query, variables, JNull, cb)] == [Subscription(query, variables, JNull, cb)];
  }

  /** A fresh client subscribes; the server acknowledges the handshake and
      sends frames `R`, all for the subscription; the client reads them,
      stops the subscription, and reads whatever the server sends after.
      The callback is called once per frame of `R`, in order, and never
      after the stop. */
  lemma SubscriptionOverReplies(R: seq<Frame>, later: seq<Input>, query: string, variables: Json,
                                cb: Callback, opId: OpId)
    requires AllFor(R, opId)
    ensures var (s1, out) := Subscribe(Initial([Received(ACK)] + AsInputs(R)), query, variables, JNull, Fn(cb), opId);
      var s2 := Drain(s1);
      var (s3, stopped) := StopSubscribe(s2, opId);
      var s4 := Drain(Deliver(s3, later));
      && out == Returned(opId) && stopped == Returned(())
      && DeliveriesTo(s4.invoked, cb) == CallsWith(cb, opId, R)
      && s4.sent == [InitFrame(JNull), StartFrame(opId, StartPayload(query, variables, JNull)), StopFrame(opId)]
  {
    SubscribeAfterAck(AsInputs(R), query, variables, cb, opId);
    var s1 := Subscribe(Initial([Received(ACK)] + AsInputs(R)), query, variables, JNull, Fn(cb), opId).0;
    AllForNoViolation(R, opId);
    CallbackSeesOwnFramesInOrder(s1, opId, cb);
    FramesForAllFor(R, opId);
    var s2 := Drain(s1);
    assert DeliveriesTo(s2.invoked, cb) == CallsWith(cb, opId, R);
    StopSubscribeRemovesOnlyItsOwn(s2, opId);
    var s3 := StopSubscribe(s2, opId).0;
    assert s3.boxes.callbacks == map[] && s3.invoked == s2.invoked;
    DrainSilentWithoutCallbacks(Deliver(s3, later));
  }

  /** `test_subscription`: against the mock server, a subscription's
      callback is called with its own id for three `data` frames then one
      `complete`; after `stop_subscribe`, the server's `complete` for the
      stop reaches no callback. */
  lemma SubscriptionAgainstMockServer(query: string, variables: Json, cb: Callback, opId: OpId)
    requires IsSubscriptionText(query)
    ensures var start := StartFrame(opId, StartPayload(query, variables, JNull));
      Respond(start).Some? && Respond(StopFrame(opId)).Some? &&
      var s0 := Initial(AsInputs(Respond(InitFrame(JNull)).value + Respond(start).value));
      var (s1, out) := Subscribe(s0, query, variables, JNull, Fn(cb), opId);
      var s2 := Drain(s1);
      var (s3, stopped) := StopSubscribe(s2, opId);
      var s4 := Drain(Deliver(s3, AsInputs(Respond(StopFrame(opId)).value)));
      && out == Returned(opId) && stopped == Returned(())
      && DeliveriesTo(s4.invoked, cb)
         == CallsWith(cb, opId, [DataFrame(opId), DataFrame(opId), DataFrame(opId), CompleteFrame(opId)])
      && s4.sent == [InitFrame(JNull), start, StopFrame(opId)]
  {
    var start := StartFrame(opId, StartPayload(query, variables, JNull));
    MockAnswersStart(opId, query, variables);
    var R := Respond(start).value;
    assert AsInputs(Respond(InitFrame(JNull)).value + R) == [Received(ACK)] + AsInputs(R);
    assert AllFor(R, opId);
    SubscriptionOverReplies(R, AsInputs(Respond(StopFrame(opId)).value), query, variables, cb, opId);
  }

  /** Two subscriptions on a fresh client whose server acknowledges the
      handshake: both callbacks registered, each with an empty queue. */
  lemma TwoSubscribed(query: string, variables: Json, cb1: Callback, cb2: Callback, k1: OpId, k2: OpId)
    requires k1 != k2
    ensures Subscribe(Initial([Received(ACK)]), query, variables, JNull, Fn(cb1), k1).1 == Returned(k1)
    ensures var s1 := Subscribe(Initial([Received(ACK)]), query, variables, JNull, Fn(cb1), k1).0;
      var (s2, out2) := Subscribe(s1, query, variables, JNull, Fn(cb2), k2);
      && out2 == Returned(k2)
      && Listening(s2) && s2.pending == [] && s2.invoked == []
      && s2.boxes.callbacks == map[k1 := cb1, k2 := cb2]
  {
    assert [Received(ACK)] + [] == [Received(ACK)];
    SubscribeAfterAck([], query, variables, cb1, k1);
    var s1 := Subscribe(Initial([Received(ACK)]), query, variables, JNull, Fn(cb1), k1).0;
    SubscribeAfterHandshake(s1, s1, query, variables, cb2, k2);
  }

  /** With callbacks for two ids only, reading an interleaving of frames
      for each: the first callback receives exactly the first run. */
  lemma OneOfTwoCallbacks(s: Session, wire: seq<Frame>, a: seq<Frame>, b: seq<Frame>,
                          k1: OpId, k2: OpId, cb1: Callback, cb2: Callback)
    requires k1 != k2 && cb1 != cb2 && AllFor(a, k1) && AllFor(b, k2) && Interleaves(wire, a, b)
    requires Listening(s) && s.pending == [] && s.invoked == []
    requires s.boxes.callbacks == map[k1 := cb1, k2 := cb2]
    ensures DeliveriesTo(Drain(Deliver(s, AsInputs(wire))).invoked, cb1) == CallsWith(cb1, k1, a)
  {
    var t := Deliver(s, AsInputs(wire));
    assert t.pending == AsInputs(wire);
    FramesForInterleaving(wire, a, b, k1, k2);
    CallbackSeesOwnFramesInOrder(t, k1, cb1);
  }

  /** With callbacks for two ids only, the server sends an interleaving of
      frames for each: each callback receives exactly its own run. */
  lemma TwoCallbacksOverInterleaving(s: Session, wire: seq<Frame>, a: seq<Frame>, b: seq<Frame>,
                                     k1: OpId, k2: OpId, cb1: Callback, cb2: Callback)
    requires k1 != k2 && cb1 != cb2 && AllFor(a, k1) && AllFor(b, k2) && Interleaves(wire, a, b)
    requires Listening(s) && s.pending == [] && s.invoked == []
    requires s.boxes.callbacks == map[k1 := cb1, k2 := cb2]
    ensures DeliveriesTo(Drain(Deliver(s, AsInputs(wire))).invoked, cb1) == CallsWith(cb1, k1, a)
    ensures DeliveriesTo(Drain(Deliver(s, AsInputs(wire))).invoked, cb2) == CallsWith(cb2, k2, b)
  {
    OneOfTwoCallbacks(s, wire, a, b, k1, k2, cb1, cb2);
    InterleavesSymmetric(wire, a, b);
    assert s.boxes.callbacks == map[k2 := cb2, k1 := cb1];
    OneOfTwoCallbacks(s, wire, b, a, k2, k1, cb2, cb1);
  }

  /** Two subscriptions whose frames arrive in any interleaving: each
      callback, called only for its own id, receives exactly its own
      operation's frames, in the order they were sent. */
  lemma TwoSubscriptionsOverReplies(query: string, variables: Json, cb1: Callback, cb2: Callback,
                                    k1: OpId, k2: OpId, a: seq<Frame>, b: seq<Frame>, wire: seq<Frame>)
    requires k1 != k2 && cb1 != cb2 && AllFor(a, k1) && AllFor(b, k2) && Interleaves(wire, a, b)
    ensures var first := Subscribe(Initial([Received(ACK)]), query, variables, JNull, Fn(cb1), k1);
      var second := Subscribe(first.0, query, variables, JNull, Fn(cb2), k2);
      var s3 := Drain(Deliver(second.0, AsInputs(wire)));
      && first.1 == Returned(k1) && second.1 == Returned(k2)
      && DeliveriesTo(s3.invoked, cb1) == CallsWith(cb1, k1, a)
      && DeliveriesTo(s3.invoked, cb2) == CallsWith(cb2, k2, b)
  {
    TwoSubscribed(query, variables, cb1, cb2, k1, k2);
    var s1 := Subscribe(Initial([Received(ACK)]), query, variables, JNull, Fn(cb1), k1).0;
    TwoCallbacksOverInterleaving(Subscribe(s1, query, variables, JNull, Fn(cb2), k2).0, wire, a, b, k1, k2, cb1, cb2);
  }

  /** `test_multiple_subscriptions`: two subscriptions on one connection,
      whose mock-server replies arrive in any interleaving; each callback
      gets exactly its own operation's frames, in order. */
  lemma TwoSubscriptionsDoNotMix(query: string, variables: Json, cb1: Callback, cb2: Callback,
                                 k1: OpId, k2: OpId, wire: seq<Frame>)
    requires IsSubscriptionText(query) && k1 != k2 && cb1 != cb2
    requires Interleaves(wire, Respond(StartFrame(k1, StartPayload(query, variables, JNull))).value,
                               Respond(StartFrame(k2, StartPayload(query, variables, JNull))).value)
    ensures var s0 := Initial([Received(ACK)]);
      var (s1, out1) := Subscribe(s0, query, variables, JNull, Fn(cb1), k1);
      var (s2, out2) := Subscribe(s1, query, variables, JNull, Fn(cb2), k2);
      var s3 := Drain(Deliver(s2, AsInputs(wire)));
      && out1 == Returned(k1) && out2 == Returned(k2)
      && DeliveriesTo(s3.invoked, cb1) == CallsWith(cb1, k1, [DataFrame(k1), DataFrame(k1), DataFrame(k1), CompleteFrame(k1)])
      && DeliveriesTo(s3.invoked, cb2) == CallsWith(cb2, k2, [DataFrame(k2), DataFrame(k2), DataFrame(k2), CompleteFrame(k2)])
  {
    MockAnswersStart(k1, query, variables);
    MockAnswersStart(k2, query, variables);
    var a := Respond(StartFrame(k1, StartPayload(query, variables, JNull))).value;
    var b := Respond(StartFrame(k2, StartPayload(query, variables, JNull))).value;
    assert AllFor(a, k1) && AllFor(b, k2);
    TwoSubscriptionsOverReplies(query, variables, cb1, cb2, k1, k2, a, b, wire);
  }

  lemma {:induction false} InterleavesSymmetric(m: seq<Frame>, a: seq<Frame>, b: seq<Frame>)
    requires Interleaves(m, a, b)
    ensures Interleaves(m, b, a)
    decreases |m|
  {
    if m != [] {
      if a != [] && m[0] == a[0] && Interleaves(m[1..], a[1..], b) {
        InterleavesSymmetric(m[1..], a[1..], b);
      } else {
        InterleavesSymmetric(m[1..], a, b[1..]);
      }
    }
  }

  /** The subscription document of the test suite. */
  const TEST_SUBSCRIPTION: string :=
    "\n" + "subscription" + " getUser($userId: Int!) {\n  user (id: $userId) {\n    id\n    username\n  }\n}\n"

  /** The subscription document of the test suite is recognised as one. */
  lemma TestSubscriptionDocument()
    ensures IsSubscriptionText(TEST_SUBSCRIPTION)
  {
    var tail := " getUser($userId: Int!) {\n  user (id: $userId) {\n    id\n    username\n  }\n}\n";
    var rest := "subscription" + tail;
    assert rest[..|"subscription"|] == "subscription";
    assert TEST_SUBSCRIPTION == "\n" + rest;
    SubscriptionKeywordAfterSpace("\n", rest);
  }
}
