# py-graphql-client in Dafny

A model of the GraphQL-over-WebSocket client `graphql_client`. The client
speaks the Apollo `subscriptions-transport-ws` protocol. Its frames carry a
`type` (`connection_init`, `connection_ack`, `connection_error`, `start`,
`data`, `error`, `complete`, `stop`, the keep-alive `ka`), an optional
operation `id` and an optional `payload`. The model has four parts:

- **The websocket client** (`graphql_client/__init__.py`).
  - The receiver thread reads one frame at a time:
    - it drops keep-alives and text that is not JSON;
    - it rejects `data`/`complete` frames without an id;
    - it routes frames with an id to that operation's queue and calls the
      operation's callback;
    - it puts every other frame on the global queue.
  - Around the receiver sit:
    - the `connection_init` handshake;
    - `query`: start, take the reply, stop, take the `complete`, drop the
      queue;
    - `subscribe`, which checks the callback and registers it;
    - `stop_subscribe`.
  - Module `ClientSpec` states all of this as functions on a `Session` value.
  - Class `Engine.GraphQLClient` has the source's fields. Each of its methods
    is proved to change them exactly as the matching `ClientSpec` function
    says.
  - Modules `Routing` and `ClientProps` prove what the client promises.
- **The alternate websocket transport** (`graphql_client/transport/websocket.py`).
  - It covers frame building and the bounded `_wait_for`.
  - It covers the `set_session` handshake, `execute`, and the operation-map
    bookkeeping of `subscribe`/`stop_subscription`.
  - It covers `_make_client` and `gen_id`.
  - Module `WsTransport` holds the functions on a `Transport` value.
  - Class `WsEngine.WebsocketTransport` is proved against those functions.
  - Modules `WsProps` and `WsIds` hold the properties.
- **The transport-agnostic client** (`graphql_client/client.py`), in module
  `Facade`.
  - It refuses subscription calls unless the transport is a websocket one.
  - It forwards everything else unchanged.
- **The test suite's mock server** (`tests/test.py`).
  - Module `MockServer` models it as a pure function from a client frame to
    the frames the server answers with.
  - Module `Scenarios` drives the client against it, as `test_query`,
    `test_subscription` and `test_multiple_subscriptions` do.

The socket is two sequences:
- the messages the server has sent and the client has not read yet
  (`pending` / `incoming`);
- the log of frames the client has written (`sent`).

How blocking and threads are modelled:
- A blocking `queue.get()` runs the receiver until a frame reaches the
  awaited queue.
- When the server's messages run out first, the call ends in `Blocked`: it
  would wait forever.
- The receiver thread runs only when a caller waits, or when `ReceiverTask`
  is called.
- Callback calls are recorded in the order they are made (`invoked`).

## Model

| member | source | states |
|---|---|---|
| Routing.Dispatch | graphql_client/__init__.py:105-142 | a routing step never removes a queue and never touches the callbacks; it raises InvalidPayloadException exactly for a `data`/`complete` frame without an id |
| Routing.NoiseIsIgnored | graphql_client/__init__.py:105-112 | a keep-alive, or text that is not JSON, changes no queue and calls no callback |
| Routing.MissingIdIsViolation | graphql_client/__init__.py:116-122 | a `data` or `complete` frame without an id is a protocol violation and routes nothing |
| Routing.TaggedFrameGoesToItsQueue | graphql_client/__init__.py:125-138 | a frame with id `k` goes to the end of `k`'s queue (a new one-frame queue if `k` had none); other queues and the global queue are unchanged; `k`'s callback, if any, is called exactly once with `(k, frame)` and no other is called |
| Routing.UntaggedFrameGoesToGlobalQueue | graphql_client/__init__.py:140-142 | a frame without an id (not a keep-alive, not `data`/`complete`) goes to the end of the global queue and changes nothing else |
| Routing.DispatchKeepsRouting | graphql_client/__init__.py:124-142 | every frame in a queue keeps belonging there: the global queue holds only frames without an id, queue `k` only frames with id `k`, and no queue holds a keep-alive |
| ClientSpec.Receive | graphql_client/__init__.py:96-142 | one receiver iteration consumes exactly one message and changes only the queues, the fault and the callback log |
| ClientSpec.Drain | graphql_client/__init__.py:92-142 | the receiver loop ends only when it has read everything or has stopped (shutdown or violation), and changes only what the receiver owns |
| ClientSpec.Pop | graphql_client/__init__.py:157-158 | taking from a queue removes exactly its head and keeps the set of queues; the global queue and every other operation queue are unchanged |
| ClientSpec.Await | graphql_client/__init__.py:157-158 | a blocking get either returns a frame or leaves the awaited queue empty with nothing more to read (which frame it returns is `ClientProps.AwaitTakesFirst`) |
| ClientProps.ReceiveRoutes | graphql_client/__init__.py:105-142 | one receiver step extends the global queue, each operation queue and the callback log exactly as the per-message reference definitions say |
| ClientProps.NoViolationTail | graphql_client/__init__.py:116-122 | a run of messages with no protocol violation keeps that property after its first message |
| ClientProps.DrainConsumesAll | graphql_client/__init__.py:96-142 | with no protocol violation pending, the receiver reads every message and keeps listening |
| ClientProps.DrainFillsGlobalQueue | graphql_client/__init__.py:140-142 | the global queue gains exactly the frames without an id, keep-alives excepted, in arrival order |
| ClientProps.DrainFillsOperationQueue | graphql_client/__init__.py:125-133 | each operation's queue gains exactly that id's frames, keep-alives excepted, in arrival order |
| ClientProps.DrainNotifies | graphql_client/__init__.py:135-138 | the callback log gains one call per frame whose id has a callback, in arrival order |
| ClientProps.DeliveriesDistribute | graphql_client/__init__.py:135-138 | the calls a callback receives from two runs are those of the first run followed by those of the second |
| ClientProps.CallsWithConcat | graphql_client/__init__.py:135-138 | calling a callback on two runs of frames is calling it on the first run, then on the second |
| ClientProps.DeliveriesFollowArrival | graphql_client/__init__.py:135-138 | a callback registered for one id alone is called once per frame of that id, in arrival order, with that id |
| ClientProps.CallbackSeesOwnFramesInOrder | graphql_client/__init__.py:135-138 | after the receiver has run, such a callback has seen exactly its own operation's frames, in the order the server sent them |
| ClientProps.DrainCallsOnlyRegistered | graphql_client/__init__.py:135-138 | every callback call the receiver makes goes to the callback registered for the frame's id |
| ClientProps.AwaitKeepsRouting | graphql_client/__init__.py:157-158 | a blocking get keeps the queues well routed and returns a non-keep-alive frame of the awaited queue (an untagged one from the global queue, one tagged with `k` from `k`'s queue) |
| ClientProps.ViolationEndsReceiver | graphql_client/__init__.py:116-122 | a protocol violation ends the receiver at once: nothing is routed and no callback is called |
| ClientProps.ConnectionInitEffect | graphql_client/__init__.py:160-182 | the handshake does nothing after an earlier success with equal headers; otherwise it caches the headers and sends one `connection_init` carrying them; it sets the flag exactly when it returns, leaves the flag unchanged when it raises, and raises only ConnectionException |
| ClientProps.ConnectionInitIdempotent | graphql_client/__init__.py:161-164 | after a successful handshake, a second one with the same headers is a no-op |
| ClientProps.AwaitTakesFirst | graphql_client/__init__.py:157-158 | a blocking get is first-in, first-out: with no protocol violation pending it returns the head of the queue, or else the first frame the server sends for that queue; it blocks exactly when there is none; the frames it leaves stay in order for the next get, and the receiver keeps listening |
| ClientProps.AwaitStep | graphql_client/__init__.py:125-133 | one receiver step during a wait on an empty queue leaves the result of the wait unchanged, keeps the receiver listening, and neither loses nor reorders the frames still to come for the queue |
| ClientProps.HandshakeDecidedByFirstUntaggedFrame | graphql_client/__init__.py:163-182 | the frame at the head of the global queue, or else the first untagged frame the server sends, decides the handshake: `connection_ack` accepts, `connection_error` raises its payload or 'unknown error', any other type raises a message naming that type; with no such frame the handshake waits forever |
| ClientProps.ExchangeEffect | graphql_client/__init__.py:206-214 | the exchange returns a non-keep-alive frame with its own id; it sends `start` then `stop` with that id and leaves no queue for it; callbacks and subscriptions are unchanged; with no protocol violation pending it returns exactly when the server sends two frames for the id, and returns the first of them |
| ClientProps.ExchangeTakesFirst | graphql_client/__init__.py:206-214 | with no protocol violation pending, the exchange returns exactly when the server sends two frames for its id and returns the first of them; otherwise it waits forever |
| ClientProps.HandshakeKeepsListening | graphql_client/__init__.py:163-182 | with no protocol violation pending, the receiver is still listening after the handshake, with no violation pending |
| ClientProps.QueryEffect | graphql_client/__init__.py:198-214 | `query` returns a non-keep-alive frame of its own operation; after the handshake it has sent `start` then `stop` with its id; it leaves no queue and no callback for the id (which frame it returns is `ClientProps.QueryTakesFirst`) |
| ClientProps.QueryTakesFirst | graphql_client/__init__.py:198-214 | with no protocol violation pending, the receiver is still listening after `query`'s handshake; after a successful handshake `query` returns exactly when the server sends two frames for its id, and what it returns is the first of them |
| ClientProps.SubscribeChecksCallbackFirst | graphql_client/__init__.py:233-235 | a missing or non-callable callback raises TypeError before any handshake or send; nothing changes |
| ClientProps.SubscribeEffect | graphql_client/__init__.py:184-192 | a successful `subscribe` returns the fresh id; it registers the callback under that id with an empty queue, sends one `start` with the id after the handshake, and appends the reconnection record (lines 237-246 too) |
| ClientProps.StopSubscribeRemovesOnlyItsOwn | graphql_client/__init__.py:248-255 | `stop_subscribe` sends `stop` and removes exactly that id's callback and queue; other ids and the global queue are unchanged |
| ClientProps.StopSubscribeUnknownId | graphql_client/__init__.py:147-148 | `stop_subscribe` of an id without a callback has already sent `stop` when it raises KeyError |
| ClientProps.RemovalTolerance | graphql_client/__init__.py:147-155 | removing a missing queue changes nothing, whereas removing a missing callback raises KeyError |
| ClientProps.DrainSilentWithoutCallbacks | graphql_client/__init__.py:135-138 | with no callback registered, the receiver calls none |
| ClientProps.StoppedSubscriptionIsSilent | graphql_client/__init__.py:248-255 | after `stop_subscribe(k)`, whatever the server sends, no callback is called with `k` |
| Engine.GraphQLClient.constructor | graphql_client/__init__.py:50-63 | a fresh client: not initialised, no headers, empty queues and tables |
| Engine.GraphQLClient.Deliver | graphql_client/__init__.py:99 | the server's new messages are appended to what the receiver will read |
| Engine.GraphQLClient.ReceiveOne | graphql_client/__init__.py:105-142 | updates the fields in place exactly as `ClientSpec.Receive` |
| Engine.GraphQLClient.ReceiverTask | graphql_client/__init__.py:92-142 | the `while` loop updates the fields exactly as `ClientSpec.Drain` |
| Engine.GraphQLClient.Take | graphql_client/__init__.py:157-158 | a blocking get on either queue, as `ClientSpec.Await` |
| Engine.GraphQLClient.GetOperationResult | graphql_client/__init__.py:157-158 | `_get_operation_result`, as `ClientSpec.Await` on the operation's queue |
| Engine.GraphQLClient.Send | graphql_client/__init__.py:169 | appends the frame to the socket's log |
| Engine.GraphQLClient.ConnectionInit | graphql_client/__init__.py:160-182 | `_connection_init`, as `ClientSpec.ConnectionInit` |
| Engine.GraphQLClient.InsertSubscriber | graphql_client/__init__.py:144-145 | `_insert_subscriber`, as `ClientSpec.InsertSubscriber` |
| Engine.GraphQLClient.RemoveSubscriber | graphql_client/__init__.py:147-148 | `_remove_subscriber`, KeyError included |
| Engine.GraphQLClient.CreateOperationQueue | graphql_client/__init__.py:150-151 | `_create_operation_queue`: a new empty queue for the id |
| Engine.GraphQLClient.RemoveOperationQueue | graphql_client/__init__.py:153-155 | `_remove_operation_queue`, a no-op for a missing id |
| Engine.GraphQLClient.Start | graphql_client/__init__.py:184-192 | `_start`: queue, then callback, then the `start` frame |
| Engine.GraphQLClient.Stop | graphql_client/__init__.py:194-196 | `_stop`: one `stop` frame with the id |
| Engine.GraphQLClient.Query | graphql_client/__init__.py:198-214 | `query`, as `ClientSpec.Query` |
| Engine.GraphQLClient.Subscribe | graphql_client/__init__.py:216-246 | `subscribe`, as `ClientSpec.Subscribe` |
| Engine.GraphQLClient.StopSubscribe | graphql_client/__init__.py:248-255 | `stop_subscribe`, as `ClientSpec.StopSubscribe` |
| Engine.GraphQLClient.Close | graphql_client/__init__.py:257-262 | `close` sets the shutdown flag, after which the receiver starts no further iteration |
| WsTransport.BuildFrame | graphql_client/transport/websocket.py:99-107 | the frame always has the type; it has a payload iff the payload is truthy and an id iff the id is a non-empty string, each with the given value |
| WsTransport.WaitFor | graphql_client/transport/websocket.py:87-97 | reads at most `retries` messages; every skipped one is a frame of an unwanted type while the operation runs; a returned frame is the last one read and has a wanted type or belongs to a stopped operation; retries running out raises TransportException; failures are only that, JSONDecodeError at bad text, or KeyError for an id missing from the map |
| WsTransport.GenId | graphql_client/transport/websocket.py:181-182 | fails (IndexError) iff a non-empty id must be drawn from an empty alphabet; otherwise exactly `size` characters, all from `chars` |
| WsTransport.Await | graphql_client/transport/websocket.py:90 | a wait changes nothing but what remains to be read |
| WsTransport.Handshake | graphql_client/transport/websocket.py:113-117 | the reply to `connection_init` can change only the session flag |
| WsTransport.NewId | graphql_client/transport/websocket.py:123-140 | the id `execute`/`subscribe` draw has the default length 6 |
| WsProps.RetriesOverReadsNothing | graphql_client/transport/websocket.py:88-89 | with no retries left, nothing is read and TransportException is raised |
| WsProps.UnwantedFramesExhaustRetries | graphql_client/transport/websocket.py:87-97 | `retries` frames of unwanted types use up the retries exactly, then TransportException |
| WsProps.FirstWantedFrameIsReturned | graphql_client/transport/websocket.py:95-97 | the first frame of a wanted type within the retries is returned, after reading exactly up to it |
| WsProps.StoppedOperationTakesNextFrame | graphql_client/transport/websocket.py:93-94 | once its operation is stopped, the wait returns the next frame whatever its type |
| WsProps.UnknownOperationIsKeyError | graphql_client/transport/websocket.py:93 | waiting for an id missing from the operation map raises KeyError on the first frame read |
| WsProps.MakeClientIdempotent | graphql_client/transport/websocket.py:83-85 | `_make_client` connects at most once: a second call changes nothing |
| WsProps.SetSessionSends | graphql_client/transport/websocket.py:109-111 | `set_session` always stores the headers, connects if need be, sends exactly one `connection_init` carrying them and leaves the operation map alone |
| WsProps.SetSessionReads | graphql_client/transport/websocket.py:112 | `set_session` reads exactly the messages its wait for `connection_ack`/`connection_error` reads |
| WsProps.SetSessionDecidedByReply | graphql_client/transport/websocket.py:112-117 | `connection_ack` sets the flag and returns; `connection_error` clears it and raises ConnectionException; these are the only ways to return or to raise that; other failures leave the flag unchanged |
| WsProps.EnsureSessionEffect | graphql_client/transport/websocket.py:120-121 | no handshake once a session is open; otherwise `set_session()` without headers, which replaces the stored headers by None |
| WsProps.ExecuteOpensSessionFirst | graphql_client/transport/websocket.py:119-133 | after a successful handshake, `execute` goes on exactly as on an open session; a failed handshake ends it with the same failure |
| WsProps.ExecuteSends | graphql_client/transport/websocket.py:123-127 | on an open session `execute` sends one `start` with the operation, name and variables under the id, reads up to the reply and changes nothing else |
| WsProps.ExecuteAnswer | graphql_client/transport/websocket.py:127-133 | a `data`/`error` reply is returned; a `connection_error` returns nothing, or raises KeyError when it has no payload to print; these are iffs |
| WsProps.SubscribeEffect | graphql_client/transport/websocket.py:140-150 | on an open session `subscribe` sends one `start`, records the id as running, returns it and reads nothing |
| WsProps.StopSubscriptionEffect | graphql_client/transport/websocket.py:164-171 | `stop_subscription` of a recorded id sends one `stop` with that id and deletes exactly that entry |
| WsProps.StopUnknownSubscription | graphql_client/transport/websocket.py:167 | `stop_subscription` of an unrecorded id raises KeyError before anything is sent |
| WsProps.SubscribeThenStop | graphql_client/transport/websocket.py:135-171 | subscribing under a new id and stopping it restores the operation map, having sent `start` then `stop` |
| WsIds.CharRange | graphql_client/transport/websocket.py:181 | a run of consecutive characters holds exactly the characters in its range |
| WsIds.AsciiLettersAndDigitsAreRanges | graphql_client/transport/websocket.py:181 | Python's `ascii_lowercase`, `ascii_uppercase` and `digits` are the ranges a-z, A-Z and 0-9 |
| WsIds.IdCharsAreAlphanumerics | graphql_client/transport/websocket.py:181 | the default alphabet holds exactly the ASCII letters and digits |
| WsIds.DefaultIdShape | graphql_client/transport/websocket.py:181-182 | a default id is six ASCII letters or digits, whatever the draws |
| WsIds.IndexOf | graphql_client/transport/websocket.py:182 | a character of the alphabet has a position in it |
| WsIds.AnyIdCanBeDrawn | graphql_client/transport/websocket.py:181-182 | every string over the alphabet comes out of `gen_id` for some draws |
| WsEngine.WebsocketTransport.constructor | graphql_client/transport/websocket.py:76-81 | no client, no headers, not initialised, empty operation map |
| WsEngine.WebsocketTransport.MakeClient | graphql_client/transport/websocket.py:83-85 | as `WsTransport.MakeClient` |
| WsEngine.WebsocketTransport.SendMsg | graphql_client/transport/websocket.py:99-107 | builds the frame key by key, as `WsTransport.SendMsg` |
| WsEngine.WebsocketTransport.WaitFor | graphql_client/transport/websocket.py:87-97 | the recursive read consumes exactly the messages `WsTransport.WaitFor` counts, returns its outcome and changes nothing else |
| WsEngine.WebsocketTransport.SetSession | graphql_client/transport/websocket.py:109-117 | as `WsTransport.SetSession` |
| WsEngine.WebsocketTransport.Handshake | graphql_client/transport/websocket.py:113-117 | the end of `set_session`, as `WsTransport.Handshake` |
| WsEngine.WebsocketTransport.Execute | graphql_client/transport/websocket.py:119-133 | as `WsTransport.Execute` with the id drawn by `gen_id()` |
| WsEngine.WebsocketTransport.Run | graphql_client/transport/websocket.py:123-133 | the part of `execute` after the handshake, as `WsTransport.Run` |
| WsEngine.WebsocketTransport.Subscribe | graphql_client/transport/websocket.py:135-150 | as `WsTransport.Subscribe` |
| WsEngine.WebsocketTransport.StopSubscription | graphql_client/transport/websocket.py:164-171 | clears the flag before sending `stop`, then deletes the entry, as `WsTransport.StopSubscription` |
| Facade.Gate | graphql_client/client.py:22-31 | a call goes through iff the transport is a websocket one or the call is not a subscription call; it goes through unchanged; a refusal is TransportException with the source's message |
| Facade.ForwardedCalls | graphql_client/client.py:8-34 | over any series of calls, a websocket transport receives every call in order; any other transport receives exactly the calls that are not subscription calls, in order (the filter `NonSubscription`) |
| Facade.ForwardedAppend | graphql_client/client.py:22-31 | one more call reaches the transport exactly when the gate lets it through |
| Facade.ExecuteIsNeverRefused | graphql_client/client.py:12-20 | query and mutation calls pass the gate unchanged on every transport |
| Facade.GraphQLClient.constructor | graphql_client/client.py:4-6 | no headers, nothing requested, nothing forwarded |
| Facade.GraphQLClient.Forward | graphql_client/client.py:22-31 | a call goes through the gate: when refused it raises and nothing reaches the transport; otherwise it reaches the transport unchanged; the log of requested calls grows by it and the transport's log stays what the gate lets through |
| Facade.GraphQLClient.SetSession | graphql_client/client.py:8-10 | records the headers and forwards the identical headers to the transport |
| Facade.GraphQLClient.Query | graphql_client/client.py:12-15 | forwards operation, name and variables unchanged to `execute` |
| Facade.GraphQLClient.Mutate | graphql_client/client.py:17-20 | does exactly what `query` does |
| Facade.GraphQLClient.Subscribe | graphql_client/client.py:22-26 | on a non-websocket transport raises TransportException and forwards nothing; otherwise forwards the call |
| Facade.GraphQLClient.StopSubscription | graphql_client/client.py:28-31 | the same gate for `stop_subscription` |
| Facade.GraphQLClient.Stop | graphql_client/client.py:33-34 | forwards `stop_all_operations` to any transport |
| Facade.GraphQLClient.Close | graphql_client/client.py:36-37 | changes nothing |
| MockServer.InitIsAcknowledged | tests/test.py:60-61 | `connection_init` is answered by exactly one `connection_ack` |
| MockServer.StartAndStopAnswers | tests/test.py:63-79 | every answer to `start` or `stop` carries the request's id; a subscription document gets three `data` then `complete`; any other document gets one `data` then `complete`; `stop` gets one `complete` |
| MockServer.LeadingSpaceIgnored | tests/test.py:65 | leading whitespace does not change what `strip()` yields |
| MockServer.SubscriptionKeywordAfterSpace | tests/test.py:65 | a document starting with `subscription` after whitespace is a subscription document |
| MockServer.RStripKeepsPrefix | tests/test.py:65 | stripping trailing whitespace never cuts into a prefix that ends in a non-space character |
| Scenarios.FramesForAllFor | tests/test.py:168-169 | from frames all for `k`, the receiver routes every one to `k` |
| Scenarios.FramesForInterleaving | tests/test.py:206-217 | from any interleaving of two operations' frames, each operation gets exactly its own frames, in order |
| Scenarios.HandshakeWithMock | tests/test.py:60-61 | a fresh client's handshake with the mock server sends `connection_init`, reads the `connection_ack` and succeeds |
| Scenarios.AwaitOwnFrame | graphql_client/__init__.py:157-158 | waiting on an operation's empty queue takes the next frame when it is for that operation |
| Scenarios.ExchangeOverTwoFrames | graphql_client/__init__.py:206-214 | when the server answers with two frames for the operation, the exchange returns the first and sends `start` and `stop` |
| Scenarios.QueryOverReplies | tests/test.py:150-153 | a fresh client whose server acknowledges and answers with a `data` frame gets that frame from `query` |
| Scenarios.QueryAgainstMockServer | tests/test.py:150-153 | `test_query`: against the mock server `query` returns a `data` frame with its own id, after `connection_init`, `start` and `stop`; when `query` returns, the operation has no queue |
| Scenarios.QueryStateAgainstMockServer | tests/test.py:150-153 | for a document that is not a subscription, the whole state `query` leaves against the mock server: initialised, no queues, nothing unread, three frames sent |
| Scenarios.LateCompleteRecreatesQueue | graphql_client/__init__.py:125-133 | the mock server's `complete` answering `query`'s `stop` (tests/test.py:78-79) arrives after the queue was dropped; the receiver creates the queue again holding that frame, and nothing removes it |
| Scenarios.TestQueryDocument | tests/test.py:121-128 | the test suite's query document is not a subscription document |
| Scenarios.AwaitPastOtherFrame | graphql_client/__init__.py:125-133 | a get on one operation's queue reads past a frame for another id, which goes to that id's queue |
| Scenarios.TakePastLateComplete | graphql_client/__init__.py:157-158 | a second query's first get skips the late `complete` of the first query and takes its own `data` frame |
| Scenarios.QueryAfterLateComplete | graphql_client/__init__.py:198-214 | a `query` after a finished one: no second handshake, its own `data` frame returned, `start` and `stop` sent, and the earlier operation's re-created queue left behind |
| Scenarios.ExchangeAfterLateComplete | graphql_client/__init__.py:206-214 | the exchange of that second `query`: its `data` frame returned, `start` and `stop` sent, and only the earlier operation's queue left |
| Scenarios.TakeOwnComplete | graphql_client/__init__.py:153-158 | the second get of that exchange takes its own `complete`; removing its queue leaves only the earlier operation's queue |
| Scenarios.RepeatedQueriesAgainstMockServer | tests/test.py:176-180 | `test_multiple_queries`, two rounds: each `query` returns the `data` frame of its own id, five frames are sent in all, and the first operation's queue stays behind holding its late `complete` |
| Scenarios.SubscriptionOverReplies | tests/test.py:155-174 | the callback is called once per frame the server sends for the subscription, in order, and never after `stop_subscribe` |
| Scenarios.SubscriptionAgainstMockServer | tests/test.py:155-174 | `test_subscription`: the callback sees its own id for three `data` frames then one `complete`, and nothing after the stop |
| Scenarios.TwoCallbacksOverInterleaving | tests/test.py:182-222 | with two callbacks, each gets exactly its own operation's frames, in order, from any interleaving |
| Scenarios.TwoSubscriptionsOverReplies | tests/test.py:198-199 | two subscriptions on one fresh connection both succeed and register their callbacks |
| Scenarios.TwoSubscriptionsDoNotMix | tests/test.py:182-222 | `test_multiple_subscriptions`: for any interleaving of the two mock replies, each callback gets exactly its own three `data` frames and `complete`, never the other's id |
| Scenarios.InterleavesSymmetric | tests/test.py:182-222 | an interleaving of `a` and `b` is one of `b` and `a` |
| Scenarios.TestSubscriptionDocument | tests/test.py:130-137 | the test suite's subscription document is recognised as a subscription |

## Left out

- Socket I/O and JSON text are not modelled. Frames are values, text that is not JSON is the single input `Malformed`, and the socket is a sequence of server messages plus a log of client frames.
- Threads are not modelled: the receiver thread, `join`, the transport's per-subscription receive thread (`_subscription_recieve_thread`) and the unsynchronised sharing of the maps. One step runs at a time, and the receiver runs when a caller waits or when `ReceiverTask` is called.
- Reconnection (`_reconnect`, the `WebSocketConnectionClosedException` branch of the receiver) is not modelled, because it opens a new socket. Its only trace is the subscription record `subscribe` appends.
- `uuid.uuid4()` and `random.choice` are not modelled: a client operation id is a parameter, and `gen_id`'s draws are a function parameter `draw`.
- Logging, `__dump_queues`, `print` and `sys.exit` are left out. The one `print` with an effect, printing a missing payload in `execute`, is modelled as its KeyError.
- What a callback itself does is not modelled; only the call `callback(op_id, frame)` is recorded.
- Frames without a `type` key, JSON values that are not objects, ids that are not strings, and the retry count as anything but a natural number are not modelled. A Python `KeyError`/`TypeError` on such input is therefore missing.
- Engine.GraphQLClient.Close: models only the shutdown flag. The `join` of the receiver thread and closing the socket are not modelled. In the source, `close` joins the receiver thread before closing the socket, so it can wait for a receiver blocked in `recv`; the model does not capture this.
- WsEngine.WebsocketTransport.StopSubscription: the `join(10)` on the subscription thread is left out. The running flag is cleared and then deleted in the same call, so the model's state after the call shows only the deletion.
- `stop_all_operations` (closing the transport's socket) is not modelled; the facade only records that it was called.
- Facade.GraphQLClient.Query: the facade records the call it forwards. It does not return the transport's reply, because the reply depends on which transport is used. For the websocket transport the reply is what `WsTransport.Execute` gives.
- Facade.GraphQLClient.Mutate: as for `Query`, the transport's reply to `execute` is not returned.
- Facade.GraphQLClient.Subscribe: the operation id that `transport.subscribe` returns is not returned; the method returns `Ok(())` when the call goes through. For the websocket transport the id is what `WsTransport.Subscribe` returns.
- `graphql_client/transport/http.py` and `GraphQLHttpClient.py` are not part of this model. They are thin wrappers over an HTTP library, and their status check (`<= 200 and >= 400`) can never be true. To the facade they are "a transport that is not a websocket one".
- `graphql_client/transport/base.py` is an abstract interface with no logic. Its `TransportException` is modelled as an exception value.
