// The client of src/dice-client.ts as a state machine over values: each
// operation and each socket callback is a function from the old client state to
// the new one. The class in client.dfy is proved to follow these functions.

module ClientModel {
  import opened Types
  import opened Identity

  /** The server protocol versions this client accepts. */
  const SupportedServerVersions: seq<int> := [1]

  /** The error reported when the server speaks another version. */
  const UnsupportedServerVersion: string := "Unsupported server version"

  /** What an awaited request's promise is resolved with. */
  datatype RollRequestResult =
    RollRequestResult(completedRolls: seq<CompletedRollDescription>, cancelled: bool)

  /** A promise (named by the number it was created with) resolved with a result. */
  datatype Settlement = Settlement(promise: nat, result: RollRequestResult)

  /** Everything the client holds or has done.
      hasSocket: a socket is attached (`webSocket` is set);
      ready: `webSocketReady`;
      pending: request id to the promise awaiting it, if any;
      nextPromise: number of the next promise to be created;
      outbox: every message handed to the socket;
      events: every callback invoked;
      settled: every promise resolution, in order. */
  datatype ClientState = ClientState(
    callbacks: ClientCallbacks,
    hasSocket: bool,
    ready: bool,
    supportedDice: Option<SupportedDiceValue>,
    pending: map<string, Option<nat>>,
    nextPromise: nat,
    outbox: seq<ClientMessage>,
    events: seq<ClientEvent>,
    settled: seq<Settlement>)

  /** Promise p still waits in the pending table. */
  ghost predicate Awaiting(s: ClientState, p: nat)
  {
    exists id :: id in s.pending && s.pending[id] == Some(p)
  }

  /** Promise p has been resolved. */
  ghost predicate Resolved(s: ClientState, p: nat)
  {
    exists k :: 0 <= k < |s.settled| && s.settled[k].promise == p
  }

  /** The client's invariant: a socket is ready only while attached; every promise
      created so far is either still awaited by exactly one pending entry or has
      been resolved exactly once, never both. */
  ghost predicate Consistent(s: ClientState)
  {
    && (s.ready ==> s.hasSocket)
    && (forall id :: id in s.pending && s.pending[id].Some? ==> s.pending[id].value < s.nextPromise)
    && (forall a, b :: a in s.pending && b in s.pending && a != b && s.pending[a].Some? ==>
          s.pending[a] != s.pending[b])
    && (forall k :: 0 <= k < |s.settled| ==> s.settled[k].promise < s.nextPromise)
    && (forall i, j :: 0 <= i < j < |s.settled| ==> s.settled[i].promise != s.settled[j].promise)
    && (forall id, k :: id in s.pending && 0 <= k < |s.settled| ==>
          s.pending[id] != Some(s.settled[k].promise))
    && (forall p: nat :: p < s.nextPromise ==> Awaiting(s, p) || Resolved(s, p))
  }

  /** A freshly constructed client: no socket, nothing pending. */
  function Initial(callbacks: ClientCallbacks): (s: ClientState)
    ensures Consistent(s)
    ensures !s.hasSocket && !s.ready && s.pending == map[] && s.supportedDice == None
  {
    ClientState(callbacks, false, false, None, map[], 0, [], [], [])
  }

  /** `send`: hands the message to the socket, or drops it when none is attached. */
  function Send(s: ClientState, m: ClientMessage): (r: ClientState)
    ensures s.hasSocket ==> r.outbox == s.outbox + [m]
    ensures !s.hasSocket ==> r == s
    ensures r.pending == s.pending && r.settled == s.settled && r.events == s.events
    ensures r.nextPromise == s.nextPromise && r.hasSocket == s.hasSocket && r.ready == s.ready
  {
    if s.hasSocket then s.(outbox := s.outbox + [m]) else s
  }

  /** Invokes the callback for `e` when one is registered. */
  function Invoke(s: ClientState, e: ClientEvent): (r: ClientState)
    ensures Registered(s.callbacks, e) ==> r.events == s.events + [e]
    ensures !Registered(s.callbacks, e) ==> r == s
    ensures r.pending == s.pending && r.settled == s.settled && r.outbox == s.outbox
    ensures r.nextPromise == s.nextPromise && r.hasSocket == s.hasSocket && r.ready == s.ready
  {
    if Registered(s.callbacks, e) then s.(events := s.events + [e]) else s
  }

  /** The callback invocations that firing `e` adds to the event log. */
  function Fired(cb: ClientCallbacks, e: ClientEvent): seq<ClientEvent>
  {
    if Registered(cb, e) then [e] else []
  }

  /** The messages that sending `m` adds to the outbox. */
  function Transmitted(s: ClientState, m: ClientMessage): seq<ClientMessage>
  {
    if s.hasSocket then [m] else []
  }

  /** `disconnect`: detaches the socket; nothing else changes. */
  function Disconnect(s: ClientState): (r: ClientState)
    ensures !r.hasSocket && (s.hasSocket ==> !r.ready)
    ensures r.pending == s.pending && r.settled == s.settled && r.events == s.events
    ensures r.outbox == s.outbox && r.supportedDice == s.supportedDice
    ensures r.callbacks == s.callbacks && r.nextPromise == s.nextPromise
    ensures !s.hasSocket ==> r == s
  {
    if s.hasSocket then s.(hasSocket := false, ready := false) else s
  }

  /** `connect`: disconnects, then attaches a new socket that is not yet open. */
  function Connect(s: ClientState): (r: ClientState)
    ensures r.hasSocket && r.ready == (s.ready && !s.hasSocket)
    ensures r.pending == s.pending && r.settled == s.settled && r.events == s.events
    ensures r.outbox == s.outbox
  {
    Disconnect(s).(hasSocket := true)
  }

  /** The socket's `onopen`: ready, and `onOpen` is invoked. */
  function Opened(s: ClientState): (r: ClientState)
    ensures s.hasSocket ==> r.ready && r.hasSocket && r.events == s.events + Fired(s.callbacks, OnOpen)
    ensures !s.hasSocket ==> r == s
    ensures r.pending == s.pending && r.outbox == s.outbox && r.settled == s.settled
  {
    if s.hasSocket then Invoke(s.(ready := true), OnOpen) else s
  }

  /** The socket's `onclose`: no longer ready, and `onClose` is invoked. */
  function Closed(s: ClientState): (r: ClientState)
    ensures s.hasSocket ==> !r.ready && r.hasSocket && r.events == s.events + Fired(s.callbacks, OnClientClose)
    ensures !s.hasSocket ==> r == s
    ensures r.pending == s.pending && r.outbox == s.outbox && r.settled == s.settled
  {
    if s.hasSocket then Invoke(s.(ready := false), OnClientClose) else s
  }

  /** `requestRoll`: a fresh id, a RollRequest sent, an entry without a promise. */
  function RequestRoll(s: ClientState, candidates: seq<string>, rolls: seq<RollDescription>): (r: ClientState)
    requires HasFresh(candidates, s.pending.Keys)
    ensures var id := FirstFresh(candidates, s.pending.Keys);
      && id !in s.pending
      && r.pending == s.pending[id := None]
      && r.outbox == s.outbox + Transmitted(s, RollRequest(id, rolls))
      && r.events == s.events && r.settled == s.settled && r.nextPromise == s.nextPromise
      && r.hasSocket == s.hasSocket && r.ready == s.ready
  {
    var id := FirstFresh(candidates, s.pending.Keys);
    Send(s, RollRequest(id, rolls)).(pending := s.pending[id := None])
  }

  /** `requestRollPromise`: a fresh id, a RollRequest sent, and an entry holding a
      new promise (number `s.nextPromise`). The promise's executor runs at once, so
      the entry exists when the call returns. */
  function RequestRollPromise(s: ClientState, candidates: seq<string>, rolls: seq<RollDescription>): (r: ClientState)
    requires HasFresh(candidates, s.pending.Keys)
    ensures var id := FirstFresh(candidates, s.pending.Keys);
      && id !in s.pending
      && r.pending == s.pending[id := Some(s.nextPromise)]
      && r.nextPromise == s.nextPromise + 1
      && r.outbox == s.outbox + Transmitted(s, RollRequest(id, rolls))
      && r.events == s.events && r.settled == s.settled
      && r.hasSocket == s.hasSocket && r.ready == s.ready
  {
    var id := FirstFresh(candidates, s.pending.Keys);
    Send(s, RollRequest(id, rolls)).(pending := s.pending[id := Some(s.nextPromise)],
                                     nextPromise := s.nextPromise + 1)
  }

  /** `cancelRollRequest`: on a pending id, resolves its promise with an empty
      cancelled result (or invokes `onRollCancelled`), removes the entry and sends
      one CancelRollRequest; on any other id, changes nothing. */
  function Cancel(s: ClientState, id: string): (r: ClientState)
    ensures id !in s.pending ==> r == s
    ensures id in s.pending ==>
      && r.pending == s.pending - {id}
      && r.outbox == s.outbox + Transmitted(s, CancelRollRequest(id))
      && r.nextPromise == s.nextPromise && r.hasSocket == s.hasSocket && r.ready == s.ready
      && (s.pending[id].Some? ==>
            r.settled == s.settled + [Settlement(s.pending[id].value, RollRequestResult([], true))]
            && r.events == s.events)
      && (s.pending[id].None? ==>
            r.settled == s.settled && r.events == s.events + Fired(s.callbacks, OnRollCancelled(id)))
  {
    if id !in s.pending then s
    else
      var notified := match s.pending[id]
        case Some(p) => s.(settled := s.settled + [Settlement(p, RollRequestResult([], true))])
        case None => Invoke(s, OnRollCancelled(id));
      Send(notified.(pending := s.pending - {id}), CancelRollRequest(id))
  }

  /** `handleRollResponse`: on a pending id, resolves its promise with the rolls
      (or invokes `onRollResponse`) and removes the entry; on any other id, changes
      nothing. It never sends. */
  function HandleRollResponse(s: ClientState, id: string, rolls: seq<CompletedRollDescription>): (r: ClientState)
    ensures id !in s.pending ==> r == s
    ensures r.outbox == s.outbox && r.hasSocket == s.hasSocket && r.ready == s.ready
    ensures id in s.pending ==>
      && r.pending == s.pending - {id}
      && r.nextPromise == s.nextPromise
      && (s.pending[id].Some? ==>
            r.settled == s.settled + [Settlement(s.pending[id].value, RollRequestResult(rolls, false))]
            && r.events == s.events)
      && (s.pending[id].None? ==>
            r.settled == s.settled && r.events == s.events + Fired(s.callbacks, OnRollResponse(id, rolls)))
  {
    if id !in s.pending then s
    else
      var notified := match s.pending[id]
        case Some(p) => s.(settled := s.settled + [Settlement(p, RollRequestResult(rolls, false))])
        case None => Invoke(s, OnRollResponse(id, rolls));
      notified.(pending := s.pending - {id})
  }

  /** The socket's `onmessage` handler for a decoded server message. A detached
      socket's handler has been removed, so nothing happens without a socket.
      A server message never creates a request or a promise, and the only reply
      the client ever sends to one is a single Pong. */
  function Receive(s: ClientState, m: ServerMessage): (r: ClientState)
    ensures !s.hasSocket ==> r == s
    ensures r.pending.Keys <= s.pending.Keys && r.nextPromise == s.nextPromise
    ensures r.outbox == s.outbox || r.outbox == s.outbox + [ClientShared(Pong)]
    ensures r.outbox == s.outbox + [ClientShared(Pong)] <==> s.hasSocket && m == ServerShared(Ping)
  {
    if !s.hasSocket then s
    else
      match m
      case ServerVersion(v) =>
        if v in SupportedServerVersions then s
        else Disconnect(Invoke(s, OnClientError(UnsupportedServerVersion)))
      case SupportedDice(dice) =>
        Invoke(s.(supportedDice := Some(dice)), OnSupportedDiceUpdated(dice))
      case RollResponse(id, rolls) => HandleRollResponse(s, id, rolls)
      case ServerShared(Ping) => Send(s, ClientShared(Pong))
      case ServerShared(Pong) => s
  }

  /** Assigning the public `eventCallbacks` field: later events reach the new
      callbacks; nothing else changes. */
  function SetCallbacks(s: ClientState, callbacks: ClientCallbacks): (r: ClientState)
    ensures r.callbacks == callbacks
    ensures r.pending == s.pending && r.settled == s.settled && r.nextPromise == s.nextPromise
    ensures r.outbox == s.outbox && r.events == s.events && r.hasSocket == s.hasSocket && r.ready == s.ready
  {
    s.(callbacks := callbacks)
  }

  /** Everything that can happen to a client: a call by its owner or a callback
      of its socket. A request carries the values the id source would return. */
  datatype ClientInput =
    | ConnectCall
    | SetCallbacksCall(callbacks: ClientCallbacks)
    | DisconnectCall
    | SocketOpened
    | SocketClosed
    | MessageReceived(m: ServerMessage)
    | RequestRollCall(candidates: seq<string>, rolls: seq<RollDescription>)
    | RequestRollPromiseCall(candidates: seq<string>, rolls: seq<RollDescription>)
    | CancelCall(id: string)
    | HandleRollResponseCall(id: string, completed: seq<CompletedRollDescription>)

  /** One step. A request whose id source never yields a fresh id never returns;
      it is modelled as leaving the state as it is. */
  function Step(s: ClientState, input: ClientInput): ClientState
  {
    match input
    case ConnectCall => Connect(s)
    case SetCallbacksCall(callbacks) => SetCallbacks(s, callbacks)
    case DisconnectCall => Disconnect(s)
    case SocketOpened => Opened(s)
    case SocketClosed => Closed(s)
    case MessageReceived(m) => Receive(s, m)
    case RequestRollCall(c, rolls) =>
      if HasFresh(c, s.pending.Keys) then RequestRoll(s, c, rolls) else s
    case RequestRollPromiseCall(c, rolls) =>
      if HasFresh(c, s.pending.Keys) then RequestRollPromise(s, c, rolls) else s
    case CancelCall(id) => Cancel(s, id)
    case HandleRollResponseCall(id, rolls) => HandleRollResponse(s, id, rolls)
  }

  /** A sequence of steps. */
  function Run(s: ClientState, inputs: seq<ClientInput>): ClientState
    decreases |inputs|
  {
    if inputs == [] then s else Run(Step(s, inputs[0]), inputs[1..])
  }
}
