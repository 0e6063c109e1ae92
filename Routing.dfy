/**
 * One iteration of the client's receiver loop, as a pure function: how a
 * decoded frame is filtered, checked and routed to the global queue or to
 * the queue of its operation, and which callback it triggers.
 */
module Routing {
  import opened Protocol

  /** The three tables the receiver shares with callers: the global queue of
      frames without an id, one FIFO queue per operation id, and the callback
      registered for each subscription id. */
  datatype Mailboxes = Mailboxes(
    global: seq<Frame>,
    perOp: map<OpId, seq<Frame>>,
    callbacks: map<OpId, Callback>)

  /** A step either routes the frame, listing the callback calls it makes, or
      raises InvalidPayloadException, which ends the receiver thread. */
  datatype Step = Stepped(boxes: Mailboxes, calls: seq<Invocation>) | Violation(frame: Frame)

  /** `data` and `complete` frames must name their operation. */
  predicate LacksRequiredId(f: Frame) {
    (f.typ == DATA || f.typ == COMPLETE) && f.id.None?
  }

  /** A queue that does not exist yet reads as empty. */
  function QueueOrEmpty(b: Mailboxes, k: OpId): seq<Frame> {
    if k in b.perOp then b.perOp[k] else []
  }

  /** The dispatch step of the receiver loop. The receiver only adds to the
      queues: it never removes a queue and never touches the callbacks. */
  function Dispatch(b: Mailboxes, input: Input): (r: Step)
    ensures r.Stepped? ==> b.perOp.Keys <= r.boxes.perOp.Keys && r.boxes.callbacks == b.callbacks
    ensures r.Violation? <==> input.Received? && LacksRequiredId(input.frame)
  {
    match input
    case Malformed => Stepped(b, [])
    case Received(f) =>
      if f.typ == KEEP_ALIVE then Stepped(b, [])
      else if LacksRequiredId(f) then Violation(f)
      else if f.id.Some? then
        var k := f.id.value;
        var boxes := b.(perOp := b.perOp[k := QueueOrEmpty(b, k) + [f]]);
        Stepped(boxes, if k in b.callbacks then [Invocation(b.callbacks[k], k, f)] else [])
      else
        Stepped(b.(global := b.global + [f]), [])
  }

  /** Every queued frame is where the receiver puts it: the global queue holds
      frames without an id, queue `k` holds frames with id `k`, and no queue
      holds a keep-alive. */
  ghost predicate WellRouted(b: Mailboxes) {
    && (forall i :: 0 <= i < |b.global| ==> b.global[i].id.None? && b.global[i].typ != KEEP_ALIVE)
    && (forall k, i :: k in b.perOp && 0 <= i < |b.perOp[k]| ==>
          b.perOp[k][i].id == Some(k) && b.perOp[k][i].typ != KEEP_ALIVE)
  }

  /** A keep-alive frame, or text that is not JSON, changes nothing and calls
      no callback. */
  lemma NoiseIsIgnored(b: Mailboxes, input: Input)
    requires input.Malformed? || input.frame.typ == KEEP_ALIVE
    ensures Dispatch(b, input) == Stepped(b, [])
  {
  }

  /** A `data` or `complete` frame without an id is a protocol violation and
      routes nothing. */
  lemma MissingIdIsViolation(b: Mailboxes, f: Frame)
    requires f.typ == DATA || f.typ == COMPLETE
    requires f.id.None?
    ensures Dispatch(b, Received(f)) == Violation(f)
  {
  }

  /** A frame with id `k` goes to the end of `k`'s queue (a new queue holding
      just that frame when `k` had none); all other queues and the global
      queue stay as they were; `k`'s callback, if any, is called exactly once
      with `(k, frame)`, and no other callback is called. */
  lemma TaggedFrameGoesToItsQueue(b: Mailboxes, f: Frame, k: OpId)
    requires f.typ != KEEP_ALIVE && f.id == Some(k)
    ensures Dispatch(b, Received(f)).Stepped?
    ensures var r := Dispatch(b, Received(f));
      && r.boxes.global == b.global
      && r.boxes.perOp.Keys == b.perOp.Keys + {k}
      && r.boxes.perOp[k] == (if k in b.perOp then b.perOp[k] + [f] else [f])
      && (forall j :: j in b.perOp && j != k ==> r.boxes.perOp[j] == b.perOp[j])
      && r.calls == (if k in b.callbacks then [Invocation(b.callbacks[k], k, f)] else [])
  {
  }

  /** A frame without an id that is neither a keep-alive nor a `data` or
      `complete` frame goes to the end of the global queue and touches
      nothing else. */
  lemma UntaggedFrameGoesToGlobalQueue(b: Mailboxes, f: Frame)
    requires f.typ != KEEP_ALIVE && !LacksRequiredId(f) && f.id.None?
    ensures Dispatch(b, Received(f)) == Stepped(b.(global := b.global + [f]), [])
  {
  }

  /** Dispatch keeps every frame where it belongs. */
  lemma DispatchKeepsRouting(b: Mailboxes, input: Input)
    requires WellRouted(b)
    ensures Dispatch(b, input).Stepped? ==> WellRouted(Dispatch(b, input).boxes)
  {
    if input.Received? && Dispatch(b, input).Stepped? {
      var f := input.frame;
      var r := Dispatch(b, input).boxes;
      if f.typ != KEEP_ALIVE && f.id.Some? {
        var k := f.id.value;
        forall j, i | j in r.perOp && 0 <= i < |r.perOp[j]|
          ensures r.perOp[j][i].id == Some(j) && r.perOp[j][i].typ != KEEP_ALIVE
        {
          if j == k && i == |r.perOp[j]| - 1 {
            assert r.perOp[j][i] == f;
          } else if j == k {
            assert r.perOp[j][i] == QueueOrEmpty(b, k)[i];
          }
        }
      }
    }
  }
}
