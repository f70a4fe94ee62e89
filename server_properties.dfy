// Properties of the server state machine: the registry and the socket set stay
// in step; the heartbeat pings each live connection once and terminates a
// connection that did not answer; sends reach only the connection they name; a
// dice change reaches every open connection once.

module ServerProperties {
  import opened Types
  import opened Identity
  import opened ServerModel

  /** How many wire actions concern connection `id`. */
  function CountFor(ws: seq<Wire>, id: string): nat
  {
    if ws == [] then 0 else (if Target(ws[0]) == id then 1 else 0) + CountFor(ws[1..], id)
  }

  /** Actions that match a sequence of distinct connections one to one concern
      each of those connections exactly once and no other. */
  lemma {:induction false} OneEach(ids: seq<string>, ws: seq<Wire>, id: string)
    requires |ws| == |ids| && Distinct(ids)
    requires forall k :: 0 <= k < |ids| ==> Target(ws[k]) == ids[k]
    ensures CountFor(ws, id) == if id in ids then 1 else 0
    decreases |ids|
  {
    if ids != [] {
      DistinctTail(ids);
      assert forall k :: 0 <= k < |ids[1..]| ==> Target(ws[1..][k]) == ids[1..][k] by {
        forall k | 0 <= k < |ids[1..]| ensures Target(ws[1..][k]) == ids[1..][k] {
          assert ws[1..][k] == ws[k + 1] && ids[1..][k] == ids[k + 1];
        }
      }
      OneEach(ids[1..], ws[1..], id);
      assert ids == [ids[0]] + ids[1..];
    }
  }

  /** Every step keeps the registry and the socket set in step. */
  lemma {:induction false} StepRegistry(s: ServerState, input: ServerInput)
    requires Registry(s)
    ensures Registry(Step(s, input))
  {
    match input
    case Connection(c) =>
      if s.listening && HasFresh(c, s.clients.Keys) {
        var r := Accept(s, c);
        var id := FirstFresh(c, s.clients.Keys);
        forall i, j | 0 <= i < j < |r.sockets| ensures r.sockets[i] != r.sockets[j] {
          if j == |s.sockets| {
            assert r.sockets[i] == s.sockets[i] && s.sockets[i] in s.clients;
          }
        }
      }
    case _ =>
  }

  /** Over any run the registry and the socket set stay in step. */
  lemma {:induction false} RunRegistry(s: ServerState, inputs: seq<ServerInput>)
    requires Registry(s)
    ensures Registry(Run(s, inputs))
    decreases |inputs|
  {
    if inputs != [] {
      StepRegistry(s, inputs[0]);
      RunRegistry(Step(s, inputs[0]), inputs[1..]);
    }
  }

  /** A heartbeat tick on an open server: each registered connection gets exactly
      one action, a Ping when it was alive and a termination when it was not;
      unregistered ids get none; afterwards no connection is alive. */
  lemma HeartbeatEachOnce(s: ServerState, id: string)
    requires Registry(s) && s.listening
    ensures var actions := Tick(s).wire[|s.wire|..];
      && CountFor(actions, id) == (if id in s.clients then 1 else 0)
      && (id in s.clients && s.clients[id].isAlive ==>
            Sent(id, ServerShared(Ping)) in actions && Terminated(id) !in actions)
      && (id in s.clients && !s.clients[id].isAlive ==>
            Terminated(id) in actions && Sent(id, ServerShared(Ping)) !in actions)
      && (id in s.clients ==> id in Tick(s).clients && !Tick(s).clients[id].isAlive)
  {
    var t := Tick(s);
    var actions := Probes(s.sockets, s.clients);
    assert t.wire[|s.wire|..] == actions;
    OneEach(s.sockets, actions, id);
    if id in s.clients {
      ProbeIsOnly(s.sockets, s.clients, id);
      assert Target(Terminated(id)) == id && Target(Sent(id, ServerShared(Ping))) == id;
      assert t.clients == Unmarked(s.clients);
    }
  }

  /** Among the heartbeat's actions on distinct sockets, the one on `id` is its
      probe, and no other action concerns `id`. */
  lemma ProbeIsOnly(ids: seq<string>, c: map<string, Socket>, id: string)
    requires Distinct(ids) && id in ids
    ensures Probe(id, c) in Probes(ids, c)
    ensures forall w :: w in Probes(ids, c) && Target(w) == id ==> w == Probe(id, c)
  {
    var k :| 0 <= k < |ids| && ids[k] == id;
    assert Probes(ids, c)[k] == Probe(id, c);
    forall w | w in Probes(ids, c) && Target(w) == id
      ensures w == Probe(id, c)
    {
      var j :| 0 <= j < |ids| && Probes(ids, c)[j] == w;
      assert Target(w) == ids[j];
    }
  }

  /** Inputs that cannot revive, remove or stop watching connection `id`: no Pong
      from it, no close of it, no close or re-open of the server. */
  predicate Quiet(input: ServerInput, id: string)
  {
    match input
    case MessageFrom(from, frame) => !(from == id && frame == Decoded(ClientShared(Pong)))
    case SocketClose(closed) => closed != id
    case OpenCall => false
    case CloseCall => false
    case ServerClose => false
    case _ => true
  }

  /** Over quiet inputs an open server keeps connection `id` registered, a
      connection that is not alive stays not alive, and without a heartbeat an
      alive one stays alive. */
  lemma {:induction false} QuietRun(s: ServerState, id: string, inputs: seq<ServerInput>)
    requires Registry(s) && s.listening && id in s.clients
    requires forall k :: 0 <= k < |inputs| ==> Quiet(inputs[k], id)
    ensures var r := Run(s, inputs);
      && Registry(r) && r.listening && id in r.clients
      && (!s.clients[id].isAlive ==> !r.clients[id].isAlive)
      && (s.clients[id].isAlive && HeartbeatTick !in inputs ==> r.clients[id].isAlive)
    decreases |inputs|
  {
    if inputs != [] {
      StepRegistry(s, inputs[0]);
      assert Quiet(inputs[0], id);
      var t := Step(s, inputs[0]);
      assert id in t.clients && t.listening;
      assert !s.clients[id].isAlive ==> !t.clients[id].isAlive;
      assert s.clients[id].isAlive && inputs[0] != HeartbeatTick ==> t.clients[id].isAlive;
      assert forall k :: 0 <= k < |inputs[1..]| ==> Quiet(inputs[1..][k], id) by {
        forall k | 0 <= k < |inputs[1..]| ensures Quiet(inputs[1..][k], id) {
          assert inputs[1..][k] == inputs[k + 1];
        }
      }
      QuietRun(t, id, inputs[1..]);
      assert HeartbeatTick !in inputs ==> HeartbeatTick !in inputs[1..];
    }
  }

  /** A connection that never answers a Ping is pinged by the first heartbeat
      after it connects and terminated by the second. */
  lemma NeverAnsweringTerminatedOnSecondTick(s: ServerState, candidates: seq<string>,
                                             before: seq<ServerInput>, between: seq<ServerInput>)
    requires Registry(s) && s.listening && HasFresh(candidates, s.clients.Keys)
    requires HeartbeatTick !in before
    requires forall k :: 0 <= k < |before| ==> Quiet(before[k], FirstFresh(candidates, s.clients.Keys))
    requires forall k :: 0 <= k < |between| ==> Quiet(between[k], FirstFresh(candidates, s.clients.Keys))
    ensures var id := FirstFresh(candidates, s.clients.Keys);
      var s1 := Run(Accept(s, candidates), before);
      var t1 := Tick(s1);
      var s2 := Run(t1, between);
      && Terminated(id) !in t1.wire[|s1.wire|..]
      && Sent(id, ServerShared(Ping)) in t1.wire[|s1.wire|..]
      && Terminated(id) in Tick(s2).wire[|s2.wire|..]
  {
    var id := FirstFresh(candidates, s.clients.Keys);
    var s0 := Accept(s, candidates);
    StepRegistry(s, Connection(candidates));
    QuietRun(s0, id, before);
    var s1 := Run(s0, before);
    HeartbeatEachOnce(s1, id);
    var t1 := Tick(s1);
    QuietRun(t1, id, between);
    HeartbeatEachOnce(Run(t1, between), id);
  }

  /** A connection that answers between heartbeats is never terminated: after a
      Pong from it, whatever happens short of a heartbeat or its close, the next
      heartbeat pings it and does not terminate it. */
  lemma AnsweringNeverTerminated(s: ServerState, id: string, after: seq<ServerInput>)
    requires Registry(s) && s.listening && id in s.clients
    requires HeartbeatTick !in after
    requires forall k :: 0 <= k < |after| ==> Quiet(after[k], id)
    ensures var s1 := Run(Receive(s, id, Decoded(ClientShared(Pong))), after);
      && Terminated(id) !in Tick(s1).wire[|s1.wire|..]
      && Sent(id, ServerShared(Ping)) in Tick(s1).wire[|s1.wire|..]
  {
    var s0 := Receive(s, id, Decoded(ClientShared(Pong)));
    StepRegistry(s, MessageFrom(id, Decoded(ClientShared(Pong))));
    QuietRun(s0, id, after);
    HeartbeatEachOnce(Run(s0, after), id);
  }

  /** A connection gets an id not already registered; its first two messages
      are the version and the current dice, and `onConnection` is emitted. */
  lemma AcceptHandshake(s: ServerState, candidates: seq<string>)
    requires Registry(s) && HasFresh(candidates, s.clients.Keys)
    ensures var id := FirstFresh(candidates, s.clients.Keys);
      var r := Accept(s, candidates);
      && id !in s.clients && id !in s.sockets
      && r.clients[id] == Socket(true)
      && r.wire[|s.wire|..] == [Sent(id, ServerVersion(1)), Sent(id, SupportedDice(s.supportedDice))]
      && r.events[|s.events|..] == [OnConnection(id)]
      && forall other :: other != id ==> (other in r.clients <==> other in s.clients)
  {
  }

  /** A Pong marks that connection alive and changes nothing else. */
  lemma PongRevives(s: ServerState, id: string)
    requires id in s.clients
    ensures Receive(s, id, Decoded(ClientShared(Pong))) == s.(clients := s.clients[id := Socket(true)])
  {
  }

  /** Every other frame leaves the registry, the sockets and the wire alone and
      at most emits one event: a roll request, a cancellation, or (for a payload
      that does not parse) an error without a connection id; a Ping or an
      unhandled type emits nothing. */
  lemma OtherFramesOnlyEmit(s: ServerState, id: string, frame: Frame)
    requires frame != Decoded(ClientShared(Pong))
    ensures var r := Receive(s, id, frame);
      && r.clients == s.clients && r.sockets == s.sockets && r.wire == s.wire
      && r.listening == s.listening && r.supportedDice == s.supportedDice
      && r.events == s.events + match frame
        case Decoded(RollRequest(requestId, rolls)) => [OnRollRequest(id, requestId, rolls)]
        case Decoded(CancelRollRequest(requestId)) => [OnCancelRollRequest(id, requestId)]
        case Unparseable(error) => [OnError(error, None)]
        case _ => []
  {
  }

  /** Closing a connection removes exactly that id and keeps the invariant. */
  lemma CloseRemovesOnlyThatConnection(s: ServerState, id: string)
    requires Registry(s)
    ensures var r := ConnectionClosed(s, id);
      && Registry(r) && id !in r.clients
      && (forall other :: other != id && other in s.clients ==> other in r.clients && r.clients[other] == s.clients[other])
      && r.events == s.events + [OnConnectionClose(id)]
  {
  }

  /** A roll response reaches exactly the connection it names, once, and to an
      unregistered id it sends nothing and fails in no way. */
  lemma RollResponseOnlyToItsConnection(s: ServerState, conn: string, requestId: string,
                                        rolls: seq<CompletedRollDescription>, other: string)
    ensures var r := SendRollResponse(s, conn, requestId, rolls);
      && (conn !in s.clients ==> r == s)
      && (conn in s.clients ==> r.wire == s.wire + [Sent(conn, RollResponse(requestId, rolls))])
      && CountFor(r.wire[|s.wire|..], other) == (if other == conn && conn in s.clients then 1 else 0)
  {
    var r := SendRollResponse(s, conn, requestId, rolls);
    if conn in s.clients {
      assert r.wire[|s.wire|..] == [Sent(conn, RollResponse(requestId, rolls))];
    } else {
      assert r.wire[|s.wire|..] == [];
    }
  }

  /** A dice change on an open server reaches every open connection exactly once,
      with the new dice, and nothing else. */
  lemma DiceChangeReachesEveryone(s: ServerState, dice: SupportedDiceValue, id: string)
    requires Registry(s) && s.listening
    ensures var actions := SetSupportedDice(s, dice).wire[|s.wire|..];
      && CountFor(actions, id) == (if id in s.clients then 1 else 0)
      && (id in s.clients ==> Sent(id, SupportedDice(dice)) in actions)
      && forall w :: w in actions ==> w.Sent? && w.msg == SupportedDice(dice)
  {
    var actions := SetSupportedDice(s, dice).wire[|s.wire|..];
    assert actions == Broadcast(s.sockets, SupportedDice(dice));
    OneEach(s.sockets, actions, id);
    if id in s.clients {
      var k :| 0 <= k < |s.sockets| && s.sockets[k] == id;
      assert actions[k] == Sent(id, SupportedDice(dice));
    }
  }

  /** A connection opened after a dice change receives the new dice in its
      handshake. */
  lemma LaterConnectionGetsNewDice(s: ServerState, dice: SupportedDiceValue, candidates: seq<string>)
    requires HasFresh(candidates, s.clients.Keys)
    ensures var t := SetSupportedDice(s, dice);
      var id := FirstFresh(candidates, s.clients.Keys);
      Accept(t, candidates).wire[|t.wire|..] == [Sent(id, ServerVersion(1)), Sent(id, SupportedDice(dice))]
  {
  }

  /** When the server closes, the registry is empty and `onClose` is emitted. */
  lemma ServerCloseEmpties(s: ServerState)
    ensures var r := ServerClosed(s);
      Registry(r) && r.clients == map[] && r.events == s.events + [OnClose]
  {
  }
}
