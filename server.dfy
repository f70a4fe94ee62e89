// The DiceServer class of src/dice-server.ts. Its fields are the server's
// state; every method and handler changes them exactly as the matching
// ServerModel function says, and keeps the registry and the socket set in step.

module Server {
  import opened Types
  import opened Identity
  import ServerModel
  import ServerProperties

  /** The registry partway through a heartbeat: the sockets in `visited` are
      marked not alive, the others are as they were. */
  function MarkedPrefix(c: map<string, ServerModel.Socket>, visited: seq<string>): map<string, ServerModel.Socket>
  {
    map id | id in c :: if id in visited then ServerModel.Socket(false) else c[id]
  }

  /** Visiting one more registered socket, not visited before, marks it and
      finds it as it was. */
  lemma MarkStep(c: map<string, ServerModel.Socket>, ids: seq<string>, i: nat)
    requires i < |ids| && ServerModel.Distinct(ids) && (forall id :: id in c <==> id in ids)
    ensures ids[i] in MarkedPrefix(c, ids[..i])
    ensures MarkedPrefix(c, ids[..i])[ids[i]] == c[ids[i]]
    ensures MarkedPrefix(c, ids[..i + 1]) == MarkedPrefix(c, ids[..i])[ids[i] := ServerModel.Socket(false)]
  {
    assert ids[..i + 1] == ids[..i] + [ids[i]];
    assert ids[i] !in ids[..i] by {
      forall k | 0 <= k < i ensures ids[..i][k] != ids[i] {
        assert ids[..i][k] == ids[k];
      }
    }
  }

  /** Once every registered socket is visited, all are marked. */
  lemma MarkAll(c: map<string, ServerModel.Socket>, ids: seq<string>)
    requires forall id :: id in c ==> id in ids
    ensures MarkedPrefix(c, ids) == ServerModel.Unmarked(c)
  {
  }

  /** The heartbeat's actions on one more socket. */
  lemma ProbesStep(ids: seq<string>, i: nat, c: map<string, ServerModel.Socket>)
    requires i < |ids|
    ensures ServerModel.Probes(ids[..i + 1], c) == ServerModel.Probes(ids[..i], c) + [ServerModel.Probe(ids[i], c)]
  {
    assert ServerModel.Probes(ids[..i + 1], c)[i] == ServerModel.Probe(ids[i], c);
  }

  /** A broadcast to one more socket. */
  lemma BroadcastStep(ids: seq<string>, i: nat, m: ServerMessage)
    requires i < |ids|
    ensures ServerModel.Broadcast(ids[..i + 1], m) == ServerModel.Broadcast(ids[..i], m) + [ServerModel.Sent(ids[i], m)]
  {
    assert ServerModel.Broadcast(ids[..i + 1], m)[i] == ServerModel.Sent(ids[i], m);
  }

  class DiceServer {
    /** A WebSocket server is open (`server` is set). */
    var listening: bool
    /** `supportedDice`. */
    var supportedDice: SupportedDiceValue
    /** `clients`: connection id to socket. */
    var clients: map<string, ServerModel.Socket>
    /** The open sockets of the WebSocket server, in accept order, by connection id. */
    var sockets: seq<string>
    /** Every send and termination, in order. */
    var wire: seq<ServerModel.Wire>
    /** Every event emitted. */
    var events: seq<ServerEvent>

    function State(): ServerModel.ServerState
      reads this
    {
      ServerModel.ServerState(listening, supportedDice, clients, sockets, wire, events)
    }

    ghost predicate Valid()
      reads this
    {
      ServerModel.Registry(State())
    }

    constructor (supportedDice: SupportedDiceValue := ServerModel.DefaultSupportedDice)
      ensures Valid() && State() == ServerModel.Initial(supportedDice)
    {
      listening := false;
      this.supportedDice := supportedDice;
      clients, sockets := map[], [];
      wire, events := [], [];
    }

    /** `open`. */
    method Open()
      requires Valid()
      modifies this
      ensures Valid() && State() == ServerModel.Open(old(State()))
    {
      listening := true;
    }

    /** The `connection` handler: returns the id the new socket is registered under. */
    method OnConnection(candidates: seq<string>) returns (id: string)
      requires Valid() && HasFresh(candidates, clients.Keys)
      modifies this
      ensures Valid() && State() == ServerModel.Accept(old(State()), candidates)
      ensures id == FirstFresh(candidates, old(clients).Keys) && id !in old(clients)
    {
      ghost var s := State();
      id := DrawFreshId(candidates, clients.Keys);
      clients := clients[id := ServerModel.Socket(true)];
      sockets := sockets + [id];
      wire := wire + [ServerModel.Sent(id, ServerVersion(ServerModel.ServerVersionNumber))];
      wire := wire + [ServerModel.Sent(id, SupportedDice(supportedDice))];
      events := events + [Types.OnConnection(id)];
      ServerProperties.StepRegistry(s.(listening := true), ServerModel.Connection(candidates));
    }

    /** The socket's `message` handler for connection `id`. */
    method OnMessage(id: string, frame: ServerModel.Frame)
      requires Valid()
      modifies this
      ensures Valid() && State() == ServerModel.Receive(old(State()), id, frame)
    {
      match frame
      case Decoded(ClientShared(Pong)) =>
        if id in clients {
          clients := clients[id := ServerModel.Socket(true)];
        }
      case Decoded(RollRequest(requestId, rolls)) =>
        events := events + [OnRollRequest(id, requestId, rolls)];
      case Decoded(CancelRollRequest(requestId)) =>
        events := events + [OnCancelRollRequest(id, requestId)];
      case Decoded(ClientShared(Ping)) =>
      case UnknownType(_) =>
      case Unparseable(error) =>
        events := events + [OnError(error, None)];
    }

    /** The socket's `error` handler. */
    method OnSocketError(id: string, error: string)
      requires Valid()
      modifies this
      ensures Valid() && State() == ServerModel.SocketError(old(State()), id, error)
    {
      events := events + [OnError(error, Some(id))];
    }

    /** The socket's `close` handler. */
    method OnSocketClose(id: string)
      requires Valid()
      modifies this
      ensures Valid() && State() == ServerModel.ConnectionClosed(old(State()), id)
    {
      ServerProperties.StepRegistry(State(), ServerModel.SocketClose(id));
      clients := clients - {id};
      sockets := ServerModel.Without(sockets, id);
      events := events + [OnConnectionClose(id)];
    }

    /** The heartbeat interval's body: visits every open socket in order. */
    method Heartbeat()
      requires Valid()
      modifies this
      ensures Valid() && State() == ServerModel.Tick(old(State()))
    {
      if !listening {
        return;
      }
      ghost var c0 := clients;
      ghost var w0 := wire;
      var i := 0;
      while i < |sockets|
        invariant 0 <= i <= |sockets|
        invariant listening && sockets == old(sockets) && supportedDice == old(supportedDice) && events == old(events)
        invariant clients == MarkedPrefix(c0, sockets[..i])
        invariant wire == w0 + ServerModel.Probes(sockets[..i], c0)
      {
        var id := sockets[i];
        MarkStep(c0, sockets, i);
        ProbesStep(sockets, i, c0);
        if clients[id].isAlive {
          clients := clients[id := ServerModel.Socket(false)];
          wire := wire + [ServerModel.Sent(id, ServerShared(Ping))];
        } else {
          wire := wire + [ServerModel.Terminated(id)];
        }
        i := i + 1;
      }
      assert sockets[..i] == sockets;
      MarkAll(c0, sockets);
    }

    /** `close`. */
    method Close()
      requires Valid()
      modifies this
      ensures Valid() && State() == ServerModel.Close(old(State()))
    {
      listening := false;
    }

    /** The WebSocket server's `close` handler. */
    method OnServerClose()
      requires Valid()
      modifies this
      ensures Valid() && State() == ServerModel.ServerClosed(old(State()))
    {
      clients := map[];
      sockets := [];
      events := events + [OnClose];
    }

    /** `_sendRaw` with a connection id. */
    method SendRaw(id: string, m: ServerMessage)
      requires Valid()
      modifies this
      ensures Valid() && State() == ServerModel.SendTo(old(State()), id, m)
    {
      if id !in clients {
        return;
      }
      wire := wire + [ServerModel.Sent(id, m)];
    }

    /** `sendRollResponse`. */
    method SendRollResponse(conn: string, requestId: string, rolls: seq<CompletedRollDescription>)
      requires Valid()
      modifies this
      ensures Valid() && State() == ServerModel.SendRollResponse(old(State()), conn, requestId, rolls)
    {
      SendRaw(conn, RollResponse(requestId, rolls));
    }

    /** `setSupportedDice`: stores the dice and sends them to every open socket. */
    method SetSupportedDice(dice: SupportedDiceValue)
      requires Valid()
      modifies this
      ensures Valid() && State() == ServerModel.SetSupportedDice(old(State()), dice)
    {
      supportedDice := dice;
      if !listening {
        return;
      }
      ghost var w0 := wire;
      var i := 0;
      while i < |sockets|
        invariant 0 <= i <= |sockets|
        invariant listening && supportedDice == dice
        invariant clients == old(clients) && sockets == old(sockets) && events == old(events)
        invariant wire == w0 + ServerModel.Broadcast(sockets[..i], SupportedDice(dice))
      {
        BroadcastStep(sockets, i, SupportedDice(dice));
        wire := wire + [ServerModel.Sent(sockets[i], SupportedDice(dice))];
        i := i + 1;
      }
      assert sockets[..i] == sockets;
    }
  }
}
