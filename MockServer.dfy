/**
 * The mock GraphQL server of the test suite (tests/test.py `mock_server`): a
 * pure function from one client frame to the frames the server sends back.
 */
module MockServer {
  import opened Protocol

  /** Python's `str.isspace` for one character. */
  predicate IsSpace(c: char) {
    var n := c as int;
    || (0x09 <= n <= 0x0D) || (0x1C <= n <= 0x20) || n == 0x85 || n == 0xA0 || n == 0x1680
    || (0x2000 <= n <= 0x200A) || n == 0x2028 || n == 0x2029 || n == 0x202F || n == 0x205F || n == 0x3000
  }

  function LStrip(s: string): (r: string)
    ensures |r| <= |s| && (r == [] || !IsSpace(r[0]))
  {
    if s != [] && IsSpace(s[0]) then LStrip(s[1..]) else s
  }

  function RStrip(s: string): (r: string)
    ensures |r| <= |s| && (r == [] || !IsSpace(r[|r| - 1]))
  {
    if s != [] && IsSpace(s[|s| - 1]) then RStrip(s[..|s| - 1]) else s
  }

  /** Python's `str.strip()`. */
  function Strip(s: string): string {
    RStrip(LStrip(s))
  }

  predicate StartsWith(s: string, prefix: string) {
    |prefix| <= |s| && s[..|prefix|] == prefix
  }

  /** The server's test for a subscription document. */
  predicate IsSubscriptionText(query: string) {
    StartsWith(Strip(query), "subscription")
  }

  const HELLO: Json := JObject(map["data" := JObject(map["msg" := JStr("hello world")])])

  function DataFrame(opId: OpId): Frame {
    Frame(DATA, Some(opId), Some(HELLO))
  }

  function CompleteFrame(opId: OpId): Frame {
    Frame(COMPLETE, Some(opId), None)
  }

  /** `frame['payload']['query']` when it is a string; `None` when the lookup
      or the later `strip()` would raise. */
  function QueryText(payload: Option<Json>): Option<string> {
    if payload.Some? && payload.value.JObject? && "query" in payload.value.fields
       && payload.value.fields["query"].JStr?
    then Some(payload.value.fields["query"].s)
    else None
  }

  /** `mock_server`: `None` where the handler raises, or returns nothing for
      a frame type it does not know. */
  function Respond(f: Frame): Option<seq<Frame>> {
    if f.typ == CONNECTION_INIT then Some([Frame(CONNECTION_ACK, None, None)])
    else if f.typ == START then
      if f.id.None? || QueryText(f.payload).None? then None
      else if IsSubscriptionText(QueryText(f.payload).value) then
        var k := f.id.value;
        Some([DataFrame(k), DataFrame(k), DataFrame(k), CompleteFrame(k)])
      else
        Some([DataFrame(f.id.value), CompleteFrame(f.id.value)])
    else if f.typ == STOP then
      if f.id.None? then None else Some([CompleteFrame(f.id.value)])
    else None
  }

  /** A `connection_init` frame is answered by exactly one `connection_ack`. */
  lemma InitIsAcknowledged(f: Frame)
    requires f.typ == CONNECTION_INIT
    ensures Respond(f) == Some([Frame(CONNECTION_ACK, None, None)])
  {
  }

  /** Every answer to `start` or `stop` carries the request's id: some `data`
      frames followed by one `complete`, three `data` frames for a
      subscription document, one for any other document, none for `stop`. */
  lemma StartAndStopAnswers(f: Frame)
    requires f.typ == START || f.typ == STOP
    requires Respond(f).Some?
    ensures var r := Respond(f).value;
      && f.id.Some? && r != []
      && (forall i :: 0 <= i < |r| ==> r[i].id == f.id)
      && r[|r| - 1] == CompleteFrame(f.id.value)
      && (forall i :: 0 <= i < |r| - 1 ==> r[i] == DataFrame(f.id.value))
      && |r| == (if f.typ == STOP then 1 else if IsSubscriptionText(QueryText(f.payload).value) then 4 else 2)
  {
  }

  /** Leading whitespace does not change what `strip()` yields, so
      indented documents are recognised. */
  lemma {:induction false} LeadingSpaceIgnored(c: char, s: string)
    requires IsSpace(c)
    ensures Strip([c] + s) == Strip(s)
  {
    assert ([c] + s)[1..] == s;
  }

  /** A document that starts with `subscription` after optional leading
      whitespace is a subscription document. */
  lemma {:induction false} SubscriptionKeywordAfterSpace(pad: string, rest: string)
    requires forall i :: 0 <= i < |pad| ==> IsSpace(pad[i])
    requires StartsWith(rest, "subscription")
    ensures IsSubscriptionText(pad + rest)
    decreases |pad|
  {
    if pad == [] {
      assert pad + rest == rest;
      assert LStrip(rest) == rest;
      RStripKeepsPrefix(rest, "subscription");
    } else {
      LeadingSpaceIgnored(pad[0], pad[1..] + rest);
      assert pad + rest == [pad[0]] + (pad[1..] + rest);
      SubscriptionKeywordAfterSpace(pad[1..], rest);
    }
  }

  /** Trailing stripping never reaches into a prefix that ends in a
      non-space character. */
  lemma {:induction false} RStripKeepsPrefix(s: string, prefix: string)
    requires StartsWith(s, prefix) && prefix != [] && !IsSpace(prefix[|prefix| - 1])
    ensures StartsWith(RStrip(s), prefix)
    decreases |s|
  {
    if s != [] && IsSpace(s[|s| - 1]) {
      assert |s| > |prefix|;
      assert s[..|s| - 1][..|prefix|] == s[..|prefix|];
      RStripKeepsPrefix(s[..|s| - 1], prefix);
    }
  }
}
