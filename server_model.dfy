// The server of src/dice-server.ts as a state machine over values: the
// connection registry, the socket set of the listening server, the frames put on
// the wire and the events emitted. The class in server.dfy is proved to follow
// these functions.

module ServerModel {
  import opened Types
  import opened Identity

  /** The protocol version the server announces to every connection. */
  const ServerVersionNumber: int := 1

  /** The supported dice a server is constructed with when none are given. */
  const DefaultSupportedDice: SupportedDiceValue := [AllFaces]

  /** A registered socket, reduced to its liveness flag. */
  datatype Socket = Socket(isAlive: bool)

  /** What the server does to a connection's transport: send it a message or
      terminate it. */
  datatype Wire = Sent(conn: string, msg: ServerMessage) | Terminated(conn: string)

  /** An inbound frame: a decoded client message, a message whose type tag the
      server does not handle, or a payload that does not parse. */
  datatype Frame = Decoded(m: ClientMessage) | UnknownType(tag: string) | Unparseable(error: string)

  /** Everything the server holds or has done.
      listening: a WebSocket server is open (`server` is set);
      clients: the `clients` record, connection id to socket;
      sockets: the open sockets of the listening server, in accept order,
               each named by its connection id;
      wire: every send and termination, in order;
      events: every event emitted. */
  datatype ServerState = ServerState(
    listening: bool,
    supportedDice: SupportedDiceValue,
    clients: map<string, Socket>,
    sockets: seq<string>,
    wire: seq<Wire>,
    events: seq<ServerEvent>)

  predicate Distinct(ids: seq<string>)
  {
    forall i, j :: 0 <= i < j < |ids| ==> ids[i] != ids[j]
  }

  /** The server's invariant: the socket set and the registry hold the same
      connections, each once. */
  ghost predicate Registry(s: ServerState)
  {
    Distinct(s.sockets) && forall id :: id in s.clients <==> id in s.sockets
  }

  /** A freshly constructed server: not listening, no connections. */
  function Initial(dice: SupportedDiceValue): (s: ServerState)
    ensures Registry(s) && !s.listening && s.clients == map[] && s.supportedDice == dice
  {
    ServerState(false, dice, map[], [], [], [])
  }

  /** The sequence without `id`, order kept. */
  function Without(ids: seq<string>, id: string): (r: seq<string>)
    ensures forall x :: x in r <==> x in ids && x != id
    ensures Distinct(ids) ==> Distinct(r)
    ensures |r| <= |ids|
  {
    if ids == [] then []
    else if ids[0] == id then Without(ids[1..], id)
    else
      DistinctTail(ids);
      [ids[0]] + Without(ids[1..], id)
  }

  /** The tail of a sequence without repetitions has none either, and does not
      hold the head. */
  lemma DistinctTail(ids: seq<string>)
    requires |ids| > 0
    ensures Distinct(ids) ==> Distinct(ids[1..]) && ids[0] !in ids[1..]
  {
    if Distinct(ids) {
      forall i, j | 0 <= i < j < |ids[1..]| ensures ids[1..][i] != ids[1..][j] {
        assert ids[1..][i] == ids[i + 1] && ids[1..][j] == ids[j + 1];
      }
      forall k | 0 <= k < |ids[1..]| ensures ids[1..][k] != ids[0] {
        assert ids[1..][k] == ids[k + 1];
      }
    }
  }

  /** The connection a wire action concerns. */
  function Target(w: Wire): string
  {
    match w
    case Sent(conn, _) => conn
    case Terminated(conn) => conn
  }

  /** The heartbeat's action on one socket: an alive one is pinged, any other is
      terminated. */
  function Probe(id: string, clients: map<string, Socket>): Wire
  {
    if id in clients && clients[id].isAlive then Sent(id, ServerShared(Ping)) else Terminated(id)
  }

  /** The heartbeat's actions on the given sockets, in order. */
  function Probes(ids: seq<string>, clients: map<string, Socket>): seq<Wire>
  {
    seq(|ids|, k requires 0 <= k < |ids| => Probe(ids[k], clients))
  }

  /** One copy of `m` for each of the given sockets, in order. */
  function Broadcast(ids: seq<string>, m: ServerMessage): seq<Wire>
  {
    seq(|ids|, k requires 0 <= k < |ids| => Sent(ids[k], m))
  }

  /** Every registered socket marked not alive. */
  function Unmarked(clients: map<string, Socket>): map<string, Socket>
  {
    map id | id in clients :: Socket(false)
  }

  /** `open`: a WebSocket server is listening. */
  function Open(s: ServerState): (r: ServerState)
    ensures r.listening && r.clients == s.clients && r.wire == s.wire && r.events == s.events
  {
    s.(listening := true)
  }

  /** The `connection` handler: registers the socket under a fresh id, alive,
      sends it the version and then the current dice, and emits `onConnection`. */
  function Accept(s: ServerState, candidates: seq<string>): (r: ServerState)
    requires HasFresh(candidates, s.clients.Keys)
    ensures var id := FirstFresh(candidates, s.clients.Keys);
      && id !in s.clients
      && r.clients == s.clients[id := Socket(true)]
      && r.sockets == s.sockets + [id]
      && r.wire == s.wire + [Sent(id, ServerVersion(ServerVersionNumber)), Sent(id, SupportedDice(s.supportedDice))]
      && r.events == s.events + [OnConnection(id)]
      && r.listening == s.listening && r.supportedDice == s.supportedDice
  {
    var id := FirstFresh(candidates, s.clients.Keys);
    s.(clients := s.clients[id := Socket(true)],
       sockets := s.sockets + [id],
       wire := s.wire + [Sent(id, ServerVersion(ServerVersionNumber)), Sent(id, SupportedDice(s.supportedDice))],
       events := s.events + [OnConnection(id)])
  }

  /** The socket's `message` handler for connection `id`. A client's frame never
      makes the server send, register or unregister anything; it emits at most
      one event. */
  function Receive(s: ServerState, id: string, frame: Frame): (r: ServerState)
    ensures r.wire == s.wire && r.sockets == s.sockets && r.clients.Keys == s.clients.Keys
    ensures r.listening == s.listening && r.supportedDice == s.supportedDice
    ensures r.events == s.events || (|r.events| == |s.events| + 1 && r.events[..|s.events|] == s.events)
    ensures r.clients != s.clients ==> frame == Decoded(ClientShared(Pong)) && id in r.clients && r.clients[id].isAlive
  {
    match frame
    case Decoded(ClientShared(Pong)) =>
      if id in s.clients then s.(clients := s.clients[id := Socket(true)]) else s
    case Decoded(RollRequest(requestId, rolls)) =>
      s.(events := s.events + [OnRollRequest(id, requestId, rolls)])
    case Decoded(CancelRollRequest(requestId)) =>
      s.(events := s.events + [OnCancelRollRequest(id, requestId)])
    case Decoded(ClientShared(Ping)) => s
    case UnknownType(_) => s
    case Unparseable(error) =>
      s.(events := s.events + [OnError(error, None)])
  }

  /** The socket's `error` handler: the error is emitted with the connection id. */
  function SocketError(s: ServerState, id: string, error: string): (r: ServerState)
    ensures r.events == s.events + [OnError(error, Some(id))]
    ensures r.clients == s.clients && r.sockets == s.sockets && r.wire == s.wire && r.listening == s.listening
  {
    s.(events := s.events + [OnError(error, Some(id))])
  }

  /** The socket's `close` handler: the connection leaves the registry and the
      socket set, and `onConnectionClose` is emitted. */
  function ConnectionClosed(s: ServerState, id: string): (r: ServerState)
    ensures r.clients == s.clients - {id}
    ensures forall x :: x in r.sockets <==> x in s.sockets && x != id
    ensures r.events == s.events + [OnConnectionClose(id)]
    ensures r.wire == s.wire && r.listening == s.listening
  {
    s.(clients := s.clients - {id},
       sockets := Without(s.sockets, id),
       events := s.events + [OnConnectionClose(id)])
  }

  /** One run of the 30-second heartbeat interval: alive sockets are marked not
      alive and pinged, sockets still not alive are terminated. Without an open
      server there is no socket to visit. */
  function Tick(s: ServerState): (r: ServerState)
    ensures s.listening ==> r.clients == Unmarked(s.clients) && r.wire == s.wire + Probes(s.sockets, s.clients)
    ensures !s.listening ==> r == s
    ensures r.sockets == s.sockets && r.events == s.events
  {
    if !s.listening then s
    else s.(clients := Unmarked(s.clients), wire := s.wire + Probes(s.sockets, s.clients))
  }

  /** `close`: the WebSocket server is closed and forgotten. */
  function Close(s: ServerState): (r: ServerState)
    ensures !r.listening && r.clients == s.clients && r.wire == s.wire && r.events == s.events
  {
    s.(listening := false)
  }

  /** The WebSocket server's `close` handler: the registry is emptied and
      `onClose` is emitted. */
  function ServerClosed(s: ServerState): (r: ServerState)
    ensures r.clients == map[] && r.sockets == [] && r.events == s.events + [OnClose]
    ensures r.wire == s.wire
  {
    s.(clients := map[], sockets := [], events := s.events + [OnClose])
  }

  /** `_sendRaw` with a connection id: sends to a registered connection, and
      drops the message without error for any other id. */
  function SendTo(s: ServerState, id: string, m: ServerMessage): (r: ServerState)
    ensures id in s.clients ==> r == s.(wire := s.wire + [Sent(id, m)])
    ensures id !in s.clients ==> r == s
  {
    if id in s.clients then s.(wire := s.wire + [Sent(id, m)]) else s
  }

  /** `sendRollResponse`. */
  function SendRollResponse(s: ServerState, conn: string, requestId: string,
                            rolls: seq<CompletedRollDescription>): (r: ServerState)
    ensures conn in s.clients ==> r.wire == s.wire + [Sent(conn, RollResponse(requestId, rolls))]
    ensures conn !in s.clients ==> r == s
    ensures r.clients == s.clients && r.sockets == s.sockets && r.events == s.events
  {
    SendTo(s, conn, RollResponse(requestId, rolls))
  }

  /** `setSupportedDice`: stores the new dice and, when a server is open, sends
      them to every open socket. */
  function SetSupportedDice(s: ServerState, dice: SupportedDiceValue): (r: ServerState)
    ensures r.supportedDice == dice && r.clients == s.clients && r.sockets == s.sockets
    ensures r.wire == s.wire + (if s.listening then Broadcast(s.sockets, SupportedDice(dice)) else [])
    ensures r.events == s.events
  {
    s.(supportedDice := dice,
       wire := s.wire + if s.listening then Broadcast(s.sockets, SupportedDice(dice)) else [])
  }

  /** Everything that can happen to a server: a call by its owner, an event of
      the transport, or a heartbeat. A connection carries the values the id
      source would return. */
  datatype ServerInput =
    | OpenCall
    | Connection(candidates: seq<string>)
    | MessageFrom(id: string, frame: Frame)
    | SocketErrorFrom(id: string, error: string)
    | SocketClose(id: string)
    | HeartbeatTick
    | CloseCall
    | ServerClose
    | SendRollResponseCall(conn: string, requestId: string, rolls: seq<CompletedRollDescription>)
    | SetSupportedDiceCall(dice: SupportedDiceValue)

  /** One step. Connections only arrive while a server is open; a connection
      whose id source never yields a fresh id never completes its handler and is
      modelled as leaving the state as it is. */
  function Step(s: ServerState, input: ServerInput): ServerState
  {
    match input
    case OpenCall => Open(s)
    case Connection(c) =>
      if s.listening && HasFresh(c, s.clients.Keys) then Accept(s, c) else s
    case MessageFrom(id, frame) => Receive(s, id, frame)
    case SocketErrorFrom(id, error) => SocketError(s, id, error)
    case SocketClose(id) => ConnectionClosed(s, id)
    case HeartbeatTick => Tick(s)
    case CloseCall => Close(s)
    case ServerClose => ServerClosed(s)
    case SendRollResponseCall(conn, requestId, rolls) => SendRollResponse(s, conn, requestId, rolls)
    case SetSupportedDiceCall(dice) => SetSupportedDice(s, dice)
  }

  /** A sequence of steps. */
  function Run(s: ServerState, inputs: seq<ServerInput>): ServerState
    decreases |inputs|
  {
    if inputs == [] then s else Run(Step(s, inputs[0]), inputs[1..])
  }
}
