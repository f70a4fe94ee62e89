# dice-server in Dafny

A model of the dice-server library: a WebSocket protocol in which a dice
client asks a dice server for dice rolls and the server answers with the rolled
values. The model covers the client class `DiceClient`, the server class
`DiceServer` and the message and event types they exchange. It proves that both
classes keep their bookkeeping straight:
- Every awaited request's promise is resolved at most once, whatever happens:
  by its response, by its cancellation or not at all.
- The server's connection registry always matches its set of open sockets, as
  long as `open` is called once (see `ServerModel.Open` under Left out).
- The heartbeat pings each live connection and terminates each silent one exactly once.
- A connection that never answers is dropped on the second heartbeat.
- Roll responses and dice updates reach exactly the connections they are meant for.

## Layout

- `types.dfy` (`Types`): roll descriptions, supported dice, the client and
  server message unions, the server's events and the client's callbacks.
- `identity.dfy` (`Identity`): the "draw a random id again while it is taken"
  loop both classes use. The random source is a parameter: the sequence of
  values it would return.
- `client_model.dfy` (`ClientModel`): the client as a state machine over values.
  Its state holds the socket flags, the pending table, the promises created, the
  messages sent, the callbacks invoked and the promises resolved. It also
  defines the client's invariant `Consistent`.
- `client_properties.dfy` (`ClientProperties`): the invariant is kept by every
  step and every run; round trips, idempotence and the version handshake.
- `client.dfy` (`Client`): class `DiceClient`. Its fields are the client's
  state, and every method is proved to change them exactly as the matching
  `ClientModel` function says, keeping `Consistent`.
- `server_model.dfy` (`ServerModel`): the server as a state machine. Its state
  holds the `clients` registry, the open sockets in accept order, every
  send or termination on the wire and every event emitted. It also defines the
  invariant `Registry`.
- `server_properties.dfy` (`ServerProperties`): `Registry` is kept; heartbeat,
  handshake, broadcast and routing properties.
- `server.dfy` (`Server`): class `DiceServer`. Its heartbeat and dice broadcast
  are loops over the open sockets, proved against `ServerModel`.
- `records.dfy` (`Records`): the record lookups as written in the source, and
  the inputs on which they differ from a lookup by key (see Findings).

## Model

| member | source | states |
|---|---|---|
| Types.Complete | src/types.ts:18-24 | a completed roll extends its description with the rolled values, and it is valid exactly when it holds `amount` values |
| Types.CompleteDescriptionOf | src/types.ts:18-24 | every completed roll is its description completed with its values |
| Identity.FreshIndex | src/dice-client.ts:84-88 | the retry loop stops at the first value of the random source that is not taken; every earlier value was taken |
| Identity.DrawFreshId | src/dice-server.ts:28-32 | the id drawn is not a key of the table, and it is the first such value of the source |
| Identity.FirstFreshUnique | src/dice-client.ts:102-106 | a value that is not taken and follows only taken ones is the id drawn |
| ClientModel.Initial | src/dice-client.ts:14-25 | a new client has no socket, is not ready, has nothing pending and no dice, and satisfies the invariant |
| ClientModel.Send | src/dice-client.ts:143-150 | with a socket the message is appended to what was sent; without one nothing changes; the bookkeeping is never touched |
| ClientModel.Invoke | src/dice-client.ts:34 | an optional callback is logged exactly when it is registered; nothing else changes |
| ClientModel.SetCallbacks | src/dice-client.ts:18 | assigning `eventCallbacks` replaces the callbacks and leaves requests, promises and sockets alone |
| ClientModel.Disconnect | src/dice-client.ts:72-81 | the socket is detached and no longer ready; pending requests, promises, sent messages, the event log and the registered callbacks are untouched; without a socket nothing changes |
| ClientModel.Connect | src/dice-client.ts:27-30 | a socket is attached, not ready unless it already was with none attached; pending requests are untouched |
| ClientModel.Opened | src/dice-client.ts:32-35 | the client becomes ready and `onOpen` fires if registered; a detached socket's handler does nothing |
| ClientModel.Closed | src/dice-client.ts:65-69 | the client is no longer ready and `onClose` fires if registered |
| ClientModel.RequestRoll | src/dice-client.ts:83-99 | a fresh id becomes pending without a promise, and one RollRequest for it is sent if a socket is attached |
| ClientModel.RequestRollPromise | src/dice-client.ts:101-117 | a fresh id becomes pending with a newly created promise, and one RollRequest is sent if a socket is attached |
| ClientModel.Cancel | src/dice-client.ts:119-141 | for a pending id, its promise resolves with no rolls and `cancelled` (or `onRollCancelled` fires), the entry goes, and one CancelRollRequest is sent; for any other id nothing changes |
| ClientModel.HandleRollResponse | src/dice-client.ts:152-169 | for a pending id, its promise resolves with the rolls and not cancelled (or `onRollResponse` fires), and the entry goes; for any other id nothing changes; nothing is sent |
| ClientModel.Receive | src/dice-client.ts:37-63 | a server message does nothing without a socket, never creates a request or promise, and the client's only reply is one Pong, sent exactly for a Ping |
| ClientProperties.StepConsistent | src/dice-client.ts:17 | every operation and socket callback keeps the invariant: each promise is awaited by exactly one pending entry or has been resolved once, never both |
| ClientProperties.RequestConsistent | src/dice-client.ts:83-117 | both kinds of request keep the invariant: the new promise is awaited by the new entry only |
| ClientProperties.CancelConsistent | src/dice-client.ts:119-141 | cancelling keeps the invariant |
| ClientProperties.HandleRollResponseConsistent | src/dice-client.ts:152-169 | handling a response keeps the invariant |
| ClientProperties.ReceiveConsistent | src/dice-client.ts:37-63 | every server message keeps the invariant |
| ClientProperties.RunConsistent | src/dice-client.ts:12-25 | from any consistent state, any sequence of calls and callbacks ends consistent |
| ClientProperties.ResolvedAtMostOnce | src/dice-client.ts:160-168 | starting from a new client, no promise is ever resolved twice |
| ClientProperties.SecondResponseIgnored | src/dice-client.ts:152-158 | a second response for the same id changes nothing |
| ClientProperties.SecondCancelIgnored | src/dice-client.ts:119-125 | a second cancellation of the same id changes nothing |
| ClientProperties.ResponseAfterCancelDropped | src/dice-client.ts:152-158 | a response that arrives after its request was cancelled is dropped |
| ClientProperties.UnsupportedVersionDisconnects | src/dice-client.ts:41-47 | a version other than 1 reports one error, detaches the socket with pending requests kept, and every later message is ignored |
| ClientProperties.SupportedVersionAccepted | src/dice-client.ts:4 | version 1 changes nothing |
| ClientProperties.SupportedDiceCached | src/dice-client.ts:49-53 | a SupportedDice message replaces the cached dice and reports the same value |
| ClientProperties.PingAnswered | src/dice-client.ts:58-61 | a Ping is answered with exactly one Pong |
| ClientProperties.DisconnectKeepsPending | src/dice-client.ts:72-81 | disconnecting keeps the pending table and is idempotent |
| ClientProperties.AwaitedResponseDelivered | src/dice-client.ts:101-117 | the promise of a request resolves with exactly the rolls of the response to it, and the request was sent first |
| ClientProperties.AwaitedCancelDelivered | src/dice-client.ts:127-140 | cancelling an awaited request resolves its promise as cancelled, and a CancelRollRequest follows the RollRequest |
| ClientProperties.EventResponseDelivered | src/dice-client.ts:162-166 | without a promise, the response goes to `onRollResponse` instead and no promise is resolved |
| ClientProperties.RequestWhileDisconnected | src/dice-client.ts:143-147 | a request made without a socket sends nothing but is still pending |
| Client.DiceClient.constructor | src/dice-client.ts:21-25 | the new client's state is the model's initial state; without callbacks given, none is registered |
| Client.DiceClient.SetCallbacks | src/dice-client.ts:18 | follows `ClientModel.SetCallbacks` and keeps the invariant |
| Client.DiceClient.Invoke | src/dice-client.ts:34 | an optional callback is invoked only when registered |
| Client.DiceClient.Send | src/dice-client.ts:143-150 | a message goes to the attached socket, or is dropped without one |
| Client.DiceClient.Connect | src/dice-client.ts:27-70 | follows `ClientModel.Connect` and keeps the invariant |
| Client.DiceClient.Disconnect | src/dice-client.ts:72-81 | follows `ClientModel.Disconnect` and keeps the invariant |
| Client.DiceClient.Opened | src/dice-client.ts:32-35 | follows `ClientModel.Opened` and keeps the invariant |
| Client.DiceClient.Closed | src/dice-client.ts:65-69 | follows `ClientModel.Closed` and keeps the invariant |
| Client.DiceClient.RequestRoll | src/dice-client.ts:83-99 | returns an id that was not pending and is now pending without a promise |
| Client.DiceClient.RequestRollPromise | src/dice-client.ts:101-117 | returns a fresh id and the new promise that its entry now holds |
| Client.DiceClient.CancelRollRequest | src/dice-client.ts:119-141 | follows `ClientModel.Cancel` and keeps the invariant |
| Client.DiceClient.HandleRollResponse | src/dice-client.ts:152-169 | follows `ClientModel.HandleRollResponse` and keeps the invariant |
| Client.DiceClient.OnMessage | src/dice-client.ts:37-63 | dispatches a server message as `ClientModel.Receive` says and keeps the invariant |
| ServerModel.Initial | src/dice-server.ts:15-22 | a new server is not listening, has no connections and holds the given dice |
| ServerModel.Open | src/dice-server.ts:24-25 | the server listens; connections, wire and events are untouched |
| ServerModel.Accept | src/dice-server.ts:27-82 | a connection is registered alive under an id not registered before; it gets the version and then the current dice, and `onConnection` is emitted |
| ServerModel.Receive | src/dice-server.ts:37-65 | a client frame never sends, registers or unregisters anything; it emits at most one event, and only a Pong changes a liveness flag, to alive |
| ServerModel.SocketError | src/dice-server.ts:67-70 | a socket error emits `onError` with the error and the connection id; nothing else changes |
| ServerModel.ConnectionClosed | src/dice-server.ts:72-76 | the closed connection leaves the registry and the socket set; `onConnectionClose` is emitted |
| ServerModel.Tick | src/dice-server.ts:84-94 | on an open server every registered connection is marked not alive, and each open socket is pinged or terminated in order; otherwise nothing happens |
| ServerModel.Close | src/dice-server.ts:108-111 | the server stops listening; the registry is kept until the close event |
| ServerModel.ServerClosed | src/dice-server.ts:100-105 | the registry is emptied and `onClose` is emitted |
| ServerModel.SendTo | src/dice-server.ts:121-133 | a message to a registered id is sent; one to any other id is dropped without error |
| ServerModel.SendRollResponse | src/dice-server.ts:113-119 | one RollResponse with the request id and rolls goes to a registered connection; an unknown id changes nothing |
| ServerModel.SetSupportedDice | src/dice-server.ts:135-140 | the dice are replaced, and on an open server they are sent to every open socket |
| ServerProperties.OneEach | src/dice-server.ts:85 | a per-socket action over sockets without repeats touches each registered id exactly once |
| ServerProperties.StepRegistry | src/dice-server.ts:15 | every step keeps the registry and the open sockets equal, without repeats |
| ServerProperties.RunRegistry | src/dice-server.ts:27-105 | any sequence of steps keeps the registry invariant |
| ServerProperties.HeartbeatEachOnce | src/dice-server.ts:84-94 | a heartbeat acts on each registered connection exactly once: a Ping if alive, a termination if not; afterwards none is alive |
| ServerProperties.QuietRun | src/dice-server.ts:44-47 | without a Pong from it or a close, a connection stays registered, a silent one stays silent, and a live one stays live until a heartbeat |
| ServerProperties.NeverAnsweringTerminatedOnSecondTick | src/dice-server.ts:84-94 | a connection that never answers is pinged by the first heartbeat and terminated by the second |
| ServerProperties.AnsweringNeverTerminated | src/dice-server.ts:44-47 | a connection that answered since the last heartbeat is pinged, not terminated |
| ServerProperties.AcceptHandshake | src/dice-server.ts:78-81 | a new connection's first two messages are the version 1 and the current dice; no other connection is added or removed |
| ServerProperties.PongRevives | src/dice-server.ts:44-47 | a Pong marks that connection alive and changes nothing else |
| ServerProperties.OtherFramesOnlyEmit | src/dice-server.ts:40-64 | any other frame emits at most one event: a roll request, a cancellation, or an error without a connection id for an unparseable payload |
| ServerProperties.CloseRemovesOnlyThatConnection | src/dice-server.ts:72-76 | a connection close removes that id only and keeps the invariant |
| ServerProperties.RollResponseOnlyToItsConnection | src/dice-server.ts:113-133 | a roll response goes once to the connection it names and to no other; an unknown id gets nothing |
| ServerProperties.DiceChangeReachesEveryone | src/dice-server.ts:135-140 | a dice change reaches each open connection exactly once, with the new dice |
| ServerProperties.LaterConnectionGetsNewDice | src/dice-server.ts:79 | a connection opened after a dice change gets the new dice in its handshake |
| ServerProperties.ServerCloseEmpties | src/dice-server.ts:100-105 | after the server closes, the registry is empty and `onClose` was emitted |
| Server.DiceServer.constructor | src/dice-server.ts:18-22 | the new server's state is the model's initial state; without dice given, it holds `['all']` |
| Server.DiceServer.Open | src/dice-server.ts:24-25 | follows `ServerModel.Open` and keeps the invariant |
| Server.DiceServer.OnConnection | src/dice-server.ts:27-82 | returns the fresh id the socket is registered under and follows `ServerModel.Accept` |
| Server.DiceServer.OnMessage | src/dice-server.ts:37-65 | follows `ServerModel.Receive` and keeps the invariant |
| Server.DiceServer.OnSocketError | src/dice-server.ts:67-70 | emits the error with the connection id |
| Server.DiceServer.OnSocketClose | src/dice-server.ts:72-76 | follows `ServerModel.ConnectionClosed` and keeps the invariant |
| Server.DiceServer.Heartbeat | src/dice-server.ts:84-94 | its loop over the open sockets computes `ServerModel.Tick` |
| Server.DiceServer.Close | src/dice-server.ts:108-111 | follows `ServerModel.Close` |
| Server.DiceServer.OnServerClose | src/dice-server.ts:100-105 | follows `ServerModel.ServerClosed` |
| Server.DiceServer.SendRaw | src/dice-server.ts:121-133 | follows `ServerModel.SendTo` |
| Server.DiceServer.SendRollResponse | src/dice-server.ts:113-119 | sends one RollResponse to a registered connection |
| Server.DiceServer.SetSupportedDice | src/dice-server.ts:135-140 | its loop over the open sockets computes `ServerModel.SetSupportedDice` |
| Records.LookupTruthyAgrees | src/dice-client.ts:17 | a truthiness lookup in a record made from `{}` matches key membership except on the inherited names, which it always accepts |
| Records.HandleRollResponseAsWritten | src/dice-client.ts:152-168 | as written, an inherited name that is not pending fires `onRollResponse` and leaves the table and the promises as they were |
| Records.CancelAsWritten | src/dice-client.ts:119-140 | as written, an inherited name that is not pending fires `onRollCancelled` and sends a CancelRollRequest |
| Records.SendToAsWritten | src/dice-server.ts:121-132 | as written, the send throws exactly for an inherited name that is not a registered connection |
| Records.ClientAsWrittenAgreesOffInherited | src/dice-client.ts:119-169 | the client's guards as written behave like lookups by key on every other id |
| Records.SendAsWrittenAgreesOffInherited | src/dice-server.ts:121-133 | `_sendRaw` as written behaves like a lookup by key on every other id |
| Records.UnrequestedResponseDelivered | src/dice-client.ts:152-165 | a response for "constructor" reaches `onRollResponse` although nothing is pending |
| Records.UnrequestedCancelSent | src/dice-client.ts:119-140 | cancelling "toString" sends a CancelRollRequest for a roll never requested |
| Records.SendToInheritedNameThrows | src/dice-server.ts:121-132 | a roll response to connection "__proto__" throws instead of being dropped |

## Left out

- ServerModel.Open: each `open` in the source builds a new WebSocket server
  whose socket set starts empty. The model keeps one socket set across calls.
  So after a second `open`, or `close` then `open`, the source's heartbeat and
  `setSupportedDice` no longer reach connections accepted by the earlier
  server, but the model's `Tick` and `SetSupportedDice` still do. The earlier
  server's late `close` event also empties `clients` and emits `onClose` while
  the new server is live; the model has no second server to close. The
  properties proved about the heartbeat and the broadcast hold for a server
  opened once.
- Server.DiceServer.Open: follows `ServerModel.Open`, with the same limit.
- JSON encoding and decoding. Messages are typed values. A server frame is a
  decoded message, a message of an unhandled type, or an unparseable payload.
  The client handles decoded messages only; a malformed frame there throws in
  the socket's handler, which is not modelled.
- The random id source (nanoid) is a parameter. If it never yields a free id,
  the source's loop never ends; the model treats such a call as changing
  nothing.
- The transport (ws and the browser WebSocket) is left out. A send is a
  `Sent` entry on a log, and `terminate` is a `Terminated` entry. The later
  `close` event is a separate input.
- ClientModel.Send: sends are not refused while a socket is still connecting. In the source a
  `send` on a connecting socket throws: `requestRoll` or `requestRollPromise`
  called between `connect` and `onopen` then throws before its entry is added,
  and `cancelRollRequest` throws after the entry is removed and the request
  settled. The model lets such sends through. A socket the server has
  terminated stays registered until its close event arrives.
- Timers are not modelled: the 30-second heartbeat is an input that can occur
  at any time. Calling `open` twice in the source starts two intervals; the
  model has one heartbeat.
- ClientModel.Invoke: the client's callbacks are assumed to return normally
  and not to call back into the client; the model only logs the call. In the source each
  callback runs before the bookkeeping that follows it, so a callback that
  throws or re-enters changes the outcome: if `onError` throws, `disconnect` is
  skipped and the unsupported server stays attached; if `onRollCancelled`
  throws, the entry stays and no CancelRollRequest is sent; if `onRollResponse`
  throws, the entry stays pending and a repeated response fires it again; if
  `onRollResponse` calls `cancelRollRequest` for its own id, the roll is both
  answered and cancelled and a CancelRollRequest goes out for an answered roll.
  `ClientProperties.UnsupportedVersionDisconnects`, `SecondResponseIgnored`
  and the other client properties hold under this assumption.
- Requests made with `requestRoll` are settled through callbacks, not
  promises; the model proves no whole-run "at most once" property for them,
  only that a second response or cancellation for the same id is ignored.
  The random source may return an id again once its request is settled, so
  the same id can name two requests over a run.
- ServerModel.Receive: the server's event listeners are assumed to return
  normally. In the source the `try` around a frame's handling also covers the
  `onRollRequest` and `onCancelRollRequest` emits, so a listener that throws
  (for instance one that maps over `rolls` when a peer sends no array) has its
  error caught and emitted again as `onError` without a connection id: such a
  frame emits two events. A throwing `onError` listener escapes the handler
  altogether. `Server.DiceServer.OnMessage` and
  `ServerProperties.OtherFramesOnlyEmit` ("at most one event") hold only under
  this assumption.
- Promise scheduling and EventEmitter listeners are left out. Resolving a
  promise appends it to a log. Emitting an event appends it to a log, whoever
  listens.
- Debug logging, the `debug` flag and the server's `listening` log line are
  left out.
- Errors are strings, not `Error` objects.
- Numbers are unbounded integers, not IEEE doubles. The source does no
  arithmetic on them.
- The URL given to `connect` and the ServerOptions given to `open` are left
  out, and so is the WebSocket constructor parameter.
- `disconnect` calls `close` on the old socket and removes its handlers, so
  its close event is never seen. The model detaches the socket at once.
- A Pong sets `isAlive` on the socket object itself. The model sets it only
  while the id is registered; after the server closes, nothing is registered
  and every socket is closing.
- The client and server lookups model the evidently intended by-key lookup.
  The record lookups as written live in `Records`; see Findings.
- The sample client and server programs shipped with the library are left out.

## Findings

| source | as written | input that shows it | evidently intended | confidence | as-written member | corrected member |
|---|---|---|---|---|---|---|
| src/dice-client.ts:152-158 | `if(!this.pendingRollRequests[rollId])` also passes for names inherited from Object.prototype | a server RollResponse with id "constructor" while nothing is pending invokes `onRollResponse("constructor", …)` | a response for an id that is not pending is dropped | high, not executed | Records.UnrequestedResponseDelivered | ClientModel.HandleRollResponse |
| src/dice-client.ts:119-125 | the same guard in `cancelRollRequest` | `cancelRollRequest("toString")` on a connected client with nothing pending sends CancelRollRequest "toString" | cancelling an id that is not pending does nothing | high, not executed | Records.UnrequestedCancelSent | ClientModel.Cancel |
| src/dice-server.ts:124-132 | `if (!this.clients[connectionId])` passes for inherited names, and the value found has no `send` | `sendRollResponse("__proto__", …)` throws a TypeError | a message to an unknown connection id is dropped without error | high, not executed | Records.SendToInheritedNameThrows | ServerModel.SendTo |
