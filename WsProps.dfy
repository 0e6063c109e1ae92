/**
 * What the websocket transport promises, proved about module WsTransport.
 */
module WsProps {
  import opened Protocol
  import opened WsTransport

  // The bounded wait.

  /** With no retries left nothing is read and TransportException is raised. */
  lemma RetriesOverReadsNothing(incoming: seq<Input>, types: seq<string>, opId: Option<OpId>,
                                running: map<OpId, bool>)
    ensures WaitFor(incoming, types, opId, 0, running) == Wait(Raised(TransportException(RETRIES_OVER)), 0)
  {
  }

  /** When the first `retries` messages are frames of no wanted type (and
      the operation, if any, is running), the wait reads exactly those and
      gives up with TransportException. */
  lemma {:induction false} UnwantedFramesExhaustRetries(incoming: seq<Input>, types: seq<string>,
                                                        opId: Option<OpId>, retries: nat,
                                                        running: map<OpId, bool>)
    requires retries <= |incoming|
    requires !IdGiven(opId) || (opId.value in running && running[opId.value])
    requires forall i :: 0 <= i < retries ==> incoming[i].Received? && incoming[i].frame.typ !in types
    ensures WaitFor(incoming, types, opId, retries, running) == Wait(Raised(TransportException(RETRIES_OVER)), retries)
    decreases retries
  {
    if retries > 0 {
      UnwantedFramesExhaustRetries(incoming[1..], types, opId, retries - 1, running);
    }
  }

  /** The wait returns the first wanted frame when it comes within the
      retries, after reading exactly up to it. */
  lemma {:induction false} FirstWantedFrameIsReturned(incoming: seq<Input>, types: seq<string>,
                                                      opId: Option<OpId>, retries: nat,
                                                      running: map<OpId, bool>, j: nat)
    requires j < retries && j < |incoming|
    requires !IdGiven(opId) || (opId.value in running && running[opId.value])
    requires forall i :: 0 <= i < j ==> incoming[i].Received? && incoming[i].frame.typ !in types
    requires incoming[j].Received? && incoming[j].frame.typ in types
    ensures WaitFor(incoming, types, opId, retries, running) == Wait(Returned(incoming[j].frame), j + 1)
    decreases j
  {
    if j > 0 {
      FirstWantedFrameIsReturned(incoming[1..], types, opId, retries - 1, running, j - 1);
    }
  }

  /** Once its operation is stopped, a wait returns the next frame whatever
      its type, after reading only that one. */
  lemma StoppedOperationTakesNextFrame(incoming: seq<Input>, types: seq<string>, opId: Option<OpId>,
                                       retries: nat, running: map<OpId, bool>)
    requires retries > 0 && incoming != [] && incoming[0].Received?
    requires Stopped(opId, running)
    ensures WaitFor(incoming, types, opId, retries, running) == Wait(Returned(incoming[0].frame), 1)
  {
  }

  /** A wait for an operation missing from the operation map fails with
      KeyError on the first frame it reads. */
  lemma UnknownOperationIsKeyError(incoming: seq<Input>, types: seq<string>, opId: OpId,
                                   retries: nat, running: map<OpId, bool>)
    requires retries > 0 && incoming != [] && incoming[0].Received?
    requires opId != "" && opId !in running
    ensures WaitFor(incoming, types, Some(opId), retries, running) == Wait(Raised(KeyError(opId)), 1)
  {
  }

  // The transport's operations.

  /** Connecting twice opens one connection. */
  lemma MakeClientIdempotent(t: Transport)
    ensures MakeClient(MakeClient(t)) == MakeClient(t)
    ensures MakeClient(t).connected
    ensures MakeClient(t).connections == t.connections + (if t.connected then 0 else 1)
  {
  }

  /** `set_session` stores the headers whatever happens, connects if need
      be and sends exactly one `connection_init` carrying them; the
      operation map is left alone. */
  lemma SetSessionSends(t: Transport, headers: Json)
    ensures var r := SetSession(t, headers).0;
      && r.headers == headers
      && r.connected
      && r.sent == MakeClient(t).sent + [Frame(CONNECTION_INIT, None, Some(InitPayload(headers)))]
      && r.operations == t.operations
  {
    assert "headers" in InitPayload(headers).fields;
    var t1 := SendMsg(t.(headers := headers), CONNECTION_INIT, InitPayload(headers), None);
    assert t1.sent == MakeClient(t).sent + [Frame(CONNECTION_INIT, None, Some(InitPayload(headers)))];
    var w := Await(t1, [CONNECTION_ACK, CONNECTION_ERROR], None);
    var r := Handshake(w.0, w.1, headers).0;
    assert r.(initDone := w.0.initDone).(incoming := t1.incoming) == t1;
  }

  /** `set_session` reads exactly the messages its wait reads. */
  lemma SetSessionReads(t: Transport, headers: Json)
    ensures var w := WaitFor(t.incoming, [CONNECTION_ACK, CONNECTION_ERROR], None, DEFAULT_RETRIES, t.operations);
      SetSession(t, headers).0.incoming == t.incoming[w.used..]
  {
  }

  /** The reply decides `set_session`: `connection_ack` sets the flag,
      `connection_error` clears it and raises SessionRefused; when no reply
      decides it the flag is untouched and the wait's failure is passed on. */
  lemma SetSessionDecidedByReply(t: Transport, headers: Json)
    ensures var w := WaitFor(t.incoming, [CONNECTION_ACK, CONNECTION_ERROR], None, DEFAULT_RETRIES, t.operations);
      var r := SetSession(t, headers);
      && (r.1 == Returned(()) <==> w.outcome.Returned? && w.outcome.value.typ == CONNECTION_ACK)
      && (r.1 == Raised(SessionRefused(headers)) <==> w.outcome.Returned? && w.outcome.value.typ == CONNECTION_ERROR)
      && (r.1.Returned? ==> r.0.initDone)
      && (r.1 == Raised(SessionRefused(headers)) ==> !r.0.initDone)
      && (!w.outcome.Returned? ==> r.0.initDone == t.initDone && r.1 == Propagate(w.outcome))
  {
    var t1 := SendMsg(t.(headers := headers), CONNECTION_INIT, InitPayload(headers), None);
    var w := WaitFor(t.incoming, [CONNECTION_ACK, CONNECTION_ERROR], None, DEFAULT_RETRIES, t.operations);
    var t2 := t1.(incoming := t.incoming[w.used..]);
    assert Await(t1, [CONNECTION_ACK, CONNECTION_ERROR], None) == (t2, w.outcome);
    if !w.outcome.Returned? {
      assert SetSession(t, headers) == (t2, Propagate(w.outcome));
    } else if w.outcome.value.typ == CONNECTION_ACK {
      assert SetSession(t, headers) == (t2.(initDone := true), Returned(()));
    } else {
      assert w.outcome.value.typ == CONNECTION_ERROR;
      assert SetSession(t, headers) == (t2.(initDone := false), Raised(SessionRefused(headers)));
    }
  }
  /** The handshake `execute` and `subscribe` run first: none once a
      session is open; otherwise `set_session()` without headers, which
      replaces the stored headers by None. */
  lemma EnsureSessionEffect(t: Transport)
    ensures t.initDone ==> EnsureSession(t) == (t, Returned(()))
    ensures !t.initDone ==>
      && EnsureSession(t).0.headers == JNull
      && EnsureSession(t).0.sent == MakeClient(t).sent + [Frame(CONNECTION_INIT, None, Some(InitPayload(JNull)))]
    ensures EnsureSession(t).0.operations == t.operations
    ensures EnsureSession(t).1.Returned? ==> EnsureSession(t).0.initDone
  {
    if !t.initDone {
      SetSessionSends(t, JNull);
      SetSessionReads(t, JNull);
      SetSessionDecidedByReply(t, JNull);
    }
  }

  /** After a handshake that went through, `execute` goes on exactly as on a
      transport whose session was already open; a handshake that failed ends
      it with the same failure. */
  lemma ExecuteOpensSessionFirst(t: Transport, operation: string, operationName: Json, variables: Json, opId: OpId)
    ensures var (s, init) := EnsureSession(t);
      && (init.Returned? ==> s.initDone && Execute(t, operation, operationName, variables, opId)
                                            == Execute(s, operation, operationName, variables, opId))
      && (!init.Returned? ==> Execute(t, operation, operationName, variables, opId) == (s, Propagate(init)))
  {
    EnsureSessionEffect(t);
    EnsureSessionEffect(EnsureSession(t).0);
  }

  /** On an open session `execute` sends one `start` frame carrying the
      operation under the given id, reads up to the first `data`, `error` or
      `connection_error` reply and changes nothing else. */
  lemma ExecuteSends(t: Transport, operation: string, operationName: Json, variables: Json, opId: OpId)
    requires t.initDone
    ensures var w := WaitFor(t.incoming, [DATA, ERROR, CONNECTION_ERROR], None, DEFAULT_RETRIES, t.operations);
      var r := Execute(t, operation, operationName, variables, opId).0;
      && r.sent == MakeClient(t).sent + [BuildFrame(START, StartPayload(operation, operationName, variables), Some(opId))]
      && r.incoming == t.incoming[w.used..]
      && r.operations == t.operations && r.headers == t.headers && r.initDone
  {
    var t2 := SendMsg(t, START, StartPayload(operation, operationName, variables), Some(opId));
    var w := WaitFor(t.incoming, [DATA, ERROR, CONNECTION_ERROR], None, DEFAULT_RETRIES, t.operations);
    var t3 := t2.(incoming := t.incoming[w.used..]);
    assert Execute(t, operation, operationName, variables, opId) == Run(t, operation, operationName, variables, opId);
    assert Await(t2, [DATA, ERROR, CONNECTION_ERROR], None) == (t3, w.outcome);
    assert Run(t, operation, operationName, variables, opId).0 == t3;
  }

  /** On an open session the reply decides what `execute` gives back: a
      `data` or `error` frame is returned; a `connection_error` returns
      nothing, or raises KeyError when it has no payload to print; a wait
      that fails passes its failure on. */
  lemma ExecuteAnswer(t: Transport, operation: string, operationName: Json, variables: Json, opId: OpId)
    requires t.initDone
    ensures var w := WaitFor(t.incoming, [DATA, ERROR, CONNECTION_ERROR], None, DEFAULT_RETRIES, t.operations);
      var r := Execute(t, operation, operationName, variables, opId).1;
      && (r.Returned? && r.value.Some? <==>
            w.outcome.Returned? && (w.outcome.value.typ == DATA || w.outcome.value.typ == ERROR))
      && (r.Returned? && r.value.Some? ==> r.value.value == w.outcome.value)
      && (r == Returned(None) <==>
            w.outcome.Returned? && w.outcome.value.typ == CONNECTION_ERROR && w.outcome.value.payload.Some?)
      && (r == Raised(KeyError("payload")) <==>
            w.outcome.Returned? && w.outcome.value.typ == CONNECTION_ERROR && w.outcome.value.payload.None?)
      && (!w.outcome.Returned? ==> r == Propagate(w.outcome))
  {
    var t2 := SendMsg(t, START, StartPayload(operation, operationName, variables), Some(opId));
    var w := WaitFor(t.incoming, [DATA, ERROR, CONNECTION_ERROR], None, DEFAULT_RETRIES, t.operations);
    var t3 := t2.(incoming := t.incoming[w.used..]);
    assert Execute(t, operation, operationName, variables, opId) == Run(t, operation, operationName, variables, opId);
    assert Await(t2, [DATA, ERROR, CONNECTION_ERROR], None) == (t3, w.outcome);
    var r := Run(t, operation, operationName, variables, opId).1;
    if !w.outcome.Returned? {
      assert r == Propagate(w.outcome);
    } else if w.outcome.value.typ == DATA || w.outcome.value.typ == ERROR {
      assert r == Returned(Some(w.outcome.value));
    } else {
      assert w.outcome.value.typ == CONNECTION_ERROR;
      assert r == if w.outcome.value.payload.None? then Raised(KeyError("payload")) else Returned(None);
    }
  }

  /** On an open session `subscribe` sends one `start` frame, records the
      operation as running and returns its id; it reads nothing. */
  lemma SubscribeEffect(t: Transport, operation: string, operationName: Json, variables: Json, opId: OpId)
    requires t.initDone
    ensures var r := Subscribe(t, operation, operationName, variables, opId);
      && r.1 == Returned(opId)
      && r.0.operations == t.operations[opId := true]
      && r.0.sent == MakeClient(t).sent + [BuildFrame(START, StartPayload(operation, operationName, variables), Some(opId))]
      && r.0.incoming == t.incoming && r.0.headers == t.headers && r.0.initDone
  {
  }

  /** `stop_subscription` of a recorded id sends one `stop` frame and forgets
      the id, keeping every other operation; it reads nothing. */
  lemma StopSubscriptionEffect(t: Transport, opId: OpId)
    requires opId in t.operations
    ensures var r := StopSubscription(t, opId);
      && r.1 == Returned(())
      && r.0.operations == t.operations - {opId}
      && r.0.sent == MakeClient(t).sent + [BuildFrame(STOP, JNull, Some(opId))]
      && r.0.incoming == t.incoming && r.0.headers == t.headers && r.0.initDone == t.initDone
  {
  }

  /** `stop_subscription` of an id that is not recorded raises KeyError
      before anything is sent. */
  lemma StopUnknownSubscription(t: Transport, opId: OpId)
    requires opId !in t.operations
    ensures StopSubscription(t, opId) == (t, Raised(KeyError(opId)))
  {
  }

  /** Subscribing under a new id and stopping it again leaves the operation
      map as it was, having sent `start` then `stop`. */
  lemma SubscribeThenStop(t: Transport, operation: string, operationName: Json, variables: Json, opId: OpId)
    requires t.initDone && opId !in t.operations
    ensures var r := StopSubscription(Subscribe(t, operation, operationName, variables, opId).0, opId);
      && r.1 == Returned(())
      && r.0.operations == t.operations
      && r.0.sent == MakeClient(t).sent + [BuildFrame(START, StartPayload(operation, operationName, variables), Some(opId)),
                                           BuildFrame(STOP, JNull, Some(opId))]
  {
    var s := Subscribe(t, operation, operationName, variables, opId).0;
    SubscribeEffect(t, operation, operationName, variables, opId);
    StopSubscriptionEffect(s, opId);
    assert MakeClient(s) == s;
    assert t.operations[opId := true] - {opId} == t.operations;
  }
}

/**
 * The operation ids `gen_id` makes.
 */
module WsIds {
  import opened Protocol
  import opened WsTransport

  predicate IsAsciiAlphanumeric(c: char) {
    ('a' <= c <= 'z') || ('A' <= c <= 'Z') || ('0' <= c <= '9')
  }

  /** The `n` characters from `lo` on, in order. */
  function CharRange(lo: char, n: nat): (r: string)
    requires lo as int + n <= 0xD800
    ensures |r| == n
    ensures forall c :: c in r <==> lo <= c && (c as int) < lo as int + n
  {
    var r := seq(n, i requires 0 <= i < n => (lo as int + i) as char);
    forall c | lo <= c && (c as int) < lo as int + n ensures c in r {
      assert r[c as int - lo as int] == c;
    }
    r
  }

  lemma AsciiLettersAndDigitsAreRanges()
    ensures ASCII_LOWERCASE == CharRange('a', 26)
    ensures ASCII_UPPERCASE == CharRange('A', 26)
    ensures DIGITS == CharRange('0', 10)
  {
  }

  /** The default alphabet is exactly the ASCII letters and digits. */
  lemma IdCharsAreAlphanumerics(c: char)
    ensures c in ID_CHARS <==> IsAsciiAlphanumeric(c)
  {
    AsciiLettersAndDigitsAreRanges();
    assert c in ID_CHARS <==> c in ASCII_LOWERCASE || c in ASCII_UPPERCASE || c in DIGITS;
  }

  /** A default id is six ASCII letters or digits, whatever the draws. */
  lemma DefaultIdShape(draw: nat -> nat)
    ensures var r := GenId(ID_SIZE, ID_CHARS, draw);
      r.Ok? && |r.value| == 6 && forall i :: 0 <= i < 6 ==> IsAsciiAlphanumeric(r.value[i])
  {
    var r := GenId(ID_SIZE, ID_CHARS, draw);
    forall i | 0 <= i < 6 ensures IsAsciiAlphanumeric(r.value[i]) {
      IdCharsAreAlphanumerics(r.value[i]);
    }
  }

  function IndexOf(chars: string, c: char): (k: nat)
    requires c in chars
    ensures k < |chars| && chars[k] == c
  {
    if chars[0] == c then 0 else 1 + IndexOf(chars[1..], c)
  }

  /** Draws that make `gen_id` spell `s`. */
  function DrawsFor(s: string, chars: string): nat -> nat {
    (i: nat) => if i < |s| && s[i] in chars then IndexOf(chars, s[i]) else 0
  }

  /** Every string of the right length over the alphabet can come out of
      `gen_id`: the draws decide the id and nothing else restricts it. */
  lemma AnyIdCanBeDrawn(s: string, chars: string)
    requires forall i :: 0 <= i < |s| ==> s[i] in chars
    ensures GenId(|s|, chars, DrawsFor(s, chars)) == Ok(s)
  {
    if |s| > 0 {
      assert s[0] in chars;
      var draw := DrawsFor(s, chars);
      var id := seq(|s|, i requires 0 <= i < |s| => chars[draw(i) % |chars|]);
      assert GenId(|s|, chars, draw) == Ok(id);
      forall i | 0 <= i < |s| ensures id[i] == s[i] {
        var k := IndexOf(chars, s[i]);
        assert draw(i) == k;
        assert k % |chars| == k;
      }
      assert id == s;
    }
  }

}
