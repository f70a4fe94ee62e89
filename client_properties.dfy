// Properties of the client state machine: every step keeps the promise
// bookkeeping consistent (each promise is resolved at most once and none is
// lost), responses and cancellations are idempotent, and the request scenarios
// end as the protocol promises.

module ClientProperties {
  import opened Types
  import opened Identity
  import opened ClientModel

  /** Removing an entry that holds promise p and recording p's resolution keeps
      the invariant. */
  lemma {:induction false} ResolveEntryConsistent(s: ClientState, id: string, result: RollRequestResult)
    requires Consistent(s) && id in s.pending && s.pending[id].Some?
    ensures Consistent(s.(pending := s.pending - {id},
                          settled := s.settled + [Settlement(s.pending[id].value, result)]))
  {
    var p := s.pending[id].value;
    var r := s.(pending := s.pending - {id}, settled := s.settled + [Settlement(p, result)]);
    forall q: nat | q < r.nextPromise
      ensures Awaiting(r, q) || Resolved(r, q)
    {
      if q == p {
        assert r.settled[|s.settled|].promise == p;
      } else if Awaiting(s, q) {
        var other :| other in s.pending && s.pending[other] == Some(q);
        assert other in r.pending && r.pending[other] == Some(q);
      } else {
        var k :| 0 <= k < |s.settled| && s.settled[k].promise == q;
        assert r.settled[k].promise == q;
      }
    }
    forall other, k | other in r.pending && 0 <= k < |r.settled|
      ensures r.pending[other] != Some(r.settled[k].promise)
    {
      if k < |s.settled| {
        assert r.settled[k] == s.settled[k];
      }
    }
  }

  /** Removing an entry without a promise keeps the invariant. */
  lemma {:induction false} DropEntryConsistent(s: ClientState, id: string)
    requires Consistent(s) && id in s.pending && s.pending[id].None?
    ensures Consistent(s.(pending := s.pending - {id}))
  {
    var r := s.(pending := s.pending - {id});
    forall q: nat | q < r.nextPromise
      ensures Awaiting(r, q) || Resolved(r, q)
    {
      if Awaiting(s, q) {
        var other :| other in s.pending && s.pending[other] == Some(q);
        assert other in r.pending && r.pending[other] == Some(q);
      } else {
        assert Resolved(s, q);
      }
    }
  }

  /** Adding an entry for a fresh id, with or without a new promise, keeps the
      invariant. */
  lemma {:induction false} AddEntryConsistent(s: ClientState, id: string, awaited: bool)
    requires Consistent(s) && id !in s.pending
    ensures Consistent(if awaited
                       then s.(pending := s.pending[id := Some(s.nextPromise)], nextPromise := s.nextPromise + 1)
                       else s.(pending := s.pending[id := None]))
  {
    var r := if awaited
             then s.(pending := s.pending[id := Some(s.nextPromise)], nextPromise := s.nextPromise + 1)
             else s.(pending := s.pending[id := None]);
    forall q: nat | q < r.nextPromise
      ensures Awaiting(r, q) || Resolved(r, q)
    {
      if awaited && q == s.nextPromise {
        assert r.pending[id] == Some(q);
      } else if Awaiting(s, q) {
        var other :| other in s.pending && s.pending[other] == Some(q);
        assert other in r.pending && r.pending[other] == Some(q);
      } else {
        assert Resolved(s, q);
      }
    }
  }

  /** The invariant speaks only of the bookkeeping: a state with the same pending
      table, resolutions and promise counter is consistent too. */
  lemma {:induction false} SameBookkeepingConsistent(s: ClientState, t: ClientState)
    requires Consistent(s)
    requires t.pending == s.pending && t.settled == s.settled && t.nextPromise == s.nextPromise
    requires t.ready ==> t.hasSocket
    ensures Consistent(t)
  {
    forall q: nat | q < t.nextPromise
      ensures Awaiting(t, q) || Resolved(t, q)
    {
      assert Awaiting(s, q) || Resolved(s, q);
    }
  }

  /** Sending leaves the bookkeeping alone. */
  lemma SendConsistent(s: ClientState, m: ClientMessage)
    requires Consistent(s)
    ensures Consistent(Send(s, m))
  {
    SameBookkeepingConsistent(s, Send(s, m));
  }

  /** Invoking a callback leaves the bookkeeping alone. */
  lemma InvokeConsistent(s: ClientState, e: ClientEvent)
    requires Consistent(s)
    ensures Consistent(Invoke(s, e))
  {
    SameBookkeepingConsistent(s, Invoke(s, e));
  }

  /** Both kinds of request keep the invariant. */
  lemma {:induction false} RequestConsistent(s: ClientState, c: seq<string>, rolls: seq<RollDescription>, awaited: bool)
    requires Consistent(s) && HasFresh(c, s.pending.Keys)
    ensures awaited ==> Consistent(RequestRollPromise(s, c, rolls))
    ensures !awaited ==> Consistent(RequestRoll(s, c, rolls))
  {
    var id := FirstFresh(c, s.pending.Keys);
    SendConsistent(s, RollRequest(id, rolls));
    AddEntryConsistent(Send(s, RollRequest(id, rolls)), id, awaited);
  }

  /** Every step of the client keeps its invariant. */
  lemma {:induction false} StepConsistent(s: ClientState, input: ClientInput)
    requires Consistent(s)
    ensures Consistent(Step(s, input))
  {
    match input
    case ConnectCall => SameBookkeepingConsistent(s, Connect(s));
    case SetCallbacksCall(callbacks) => SameBookkeepingConsistent(s, SetCallbacks(s, callbacks));
    case DisconnectCall => SameBookkeepingConsistent(s, Disconnect(s));
    case SocketOpened => SameBookkeepingConsistent(s, Opened(s));
    case SocketClosed => SameBookkeepingConsistent(s, Closed(s));
    case MessageReceived(m) => ReceiveConsistent(s, m);
    case RequestRollCall(c, rolls) =>
      if HasFresh(c, s.pending.Keys) {
        RequestConsistent(s, c, rolls, false);
      }
    case RequestRollPromiseCall(c, rolls) =>
      if HasFresh(c, s.pending.Keys) {
        RequestConsistent(s, c, rolls, true);
      }
    case CancelCall(id) => CancelConsistent(s, id);
    case HandleRollResponseCall(id, rolls) => HandleRollResponseConsistent(s, id, rolls);
  }

  lemma {:induction false} CancelConsistent(s: ClientState, id: string)
    requires Consistent(s)
    ensures Consistent(Cancel(s, id))
  {
    if id in s.pending {
      var notified;
      if s.pending[id].Some? {
        ResolveEntryConsistent(s, id, RollRequestResult([], true));
        notified := s.(settled := s.settled + [Settlement(s.pending[id].value, RollRequestResult([], true))]);
      } else {
        InvokeConsistent(s, OnRollCancelled(id));
        DropEntryConsistent(Invoke(s, OnRollCancelled(id)), id);
        notified := Invoke(s, OnRollCancelled(id));
      }
      SendConsistent(notified.(pending := s.pending - {id}), CancelRollRequest(id));
    }
  }

  lemma {:induction false} HandleRollResponseConsistent(s: ClientState, id: string, rolls: seq<CompletedRollDescription>)
    requires Consistent(s)
    ensures Consistent(HandleRollResponse(s, id, rolls))
  {
    if id in s.pending {
      if s.pending[id].Some? {
        ResolveEntryConsistent(s, id, RollRequestResult(rolls, false));
      } else {
        InvokeConsistent(s, OnRollResponse(id, rolls));
        DropEntryConsistent(Invoke(s, OnRollResponse(id, rolls)), id);
      }
    }
  }

  lemma {:induction false} ReceiveConsistent(s: ClientState, m: ServerMessage)
    requires Consistent(s)
    ensures Consistent(Receive(s, m))
  {
    if s.hasSocket {
      match m
      case ServerVersion(v) =>
        if v !in SupportedServerVersions {
          SameBookkeepingConsistent(s, Receive(s, m));
        }
      case SupportedDice(dice) =>
        SameBookkeepingConsistent(s, Receive(s, m));
      case RollResponse(id, rolls) => HandleRollResponseConsistent(s, id, rolls);
      case ServerShared(Ping) => SendConsistent(s, ClientShared(Pong));
      case ServerShared(Pong) =>
    }
  }

  /** Over any sequence of calls and socket callbacks, starting from a freshly
      constructed client, the invariant holds: no promise is resolved twice, and
      every promise is either still pending or resolved. */
  lemma {:induction false} RunConsistent(s: ClientState, inputs: seq<ClientInput>)
    requires Consistent(s)
    ensures Consistent(Run(s, inputs))
    decreases |inputs|
  {
    if inputs != [] {
      StepConsistent(s, inputs[0]);
      RunConsistent(Step(s, inputs[0]), inputs[1..]);
    }
  }

  /** Each promise the client creates is resolved at most once, whatever happens. */
  lemma ResolvedAtMostOnce(callbacks: ClientCallbacks, inputs: seq<ClientInput>, i: nat, j: nat)
    requires i < j < |Run(Initial(callbacks), inputs).settled|
    ensures Run(Initial(callbacks), inputs).settled[i].promise != Run(Initial(callbacks), inputs).settled[j].promise
  {
    RunConsistent(Initial(callbacks), inputs);
  }

  /** A second response for the same id is a no-op. */
  lemma SecondResponseIgnored(s: ClientState, id: string, first: seq<CompletedRollDescription>,
                              second: seq<CompletedRollDescription>)
    ensures HandleRollResponse(HandleRollResponse(s, id, first), id, second) == HandleRollResponse(s, id, first)
  {
  }

  /** A second cancellation of the same id is a no-op. */
  lemma SecondCancelIgnored(s: ClientState, id: string)
    ensures Cancel(Cancel(s, id), id) == Cancel(s, id)
  {
  }

  /** After a cancellation, a response the server sends for that id anyway is
      dropped: no callback, no resolution, nothing sent. */
  lemma ResponseAfterCancelDropped(s: ClientState, id: string, rolls: seq<CompletedRollDescription>)
    ensures Receive(Cancel(s, id), RollResponse(id, rolls)) == Cancel(s, id)
  {
  }

  /** An unsupported server version reports exactly one error (when an error
      callback is registered), detaches the socket, leaves the pending table as
      it was, and every later message is ignored. */
  lemma UnsupportedVersionDisconnects(s: ClientState, v: int, later: ServerMessage)
    requires s.hasSocket && v != 1
    ensures var r := Receive(s, ServerVersion(v));
      && r.events == s.events + Fired(s.callbacks, OnClientError(UnsupportedServerVersion))
      && !r.hasSocket && !r.ready
      && r.pending == s.pending && r.outbox == s.outbox && r.settled == s.settled
      && Receive(r, later) == r
  {
  }

  /** The supported version changes nothing. */
  lemma SupportedVersionAccepted(s: ClientState)
    ensures Receive(s, ServerVersion(1)) == s
  {
  }

  /** A SupportedDice message replaces the cached value and reports that same value. */
  lemma SupportedDiceCached(s: ClientState, dice: SupportedDiceValue)
    requires s.hasSocket
    ensures var r := Receive(s, SupportedDice(dice));
      && r.supportedDice == Some(dice)
      && r.events == s.events + Fired(s.callbacks, OnSupportedDiceUpdated(dice))
      && r.pending == s.pending && r.outbox == s.outbox
  {
  }

  /** A Ping is answered with exactly one Pong. */
  lemma PingAnswered(s: ClientState)
    requires s.hasSocket
    ensures var r := Receive(s, ServerShared(Ping));
      && r.outbox == s.outbox + [ClientShared(Pong)]
      && r.pending == s.pending && r.events == s.events
  {
  }

  /** Disconnecting never touches the pending table and is a no-op when already
      disconnected. */
  lemma DisconnectKeepsPending(s: ClientState)
    ensures Disconnect(s).pending == s.pending
    ensures Disconnect(Disconnect(s)) == Disconnect(s)
  {
  }

  /** Awaited round trip: the promise created for a request is resolved with
      exactly the rolls of the response to that request, not cancelled, and the
      entry is gone. */
  lemma AwaitedResponseDelivered(s: ClientState, candidates: seq<string>, rolls: seq<RollDescription>,
                                 completed: seq<CompletedRollDescription>)
    requires s.hasSocket && HasFresh(candidates, s.pending.Keys)
    ensures var id := FirstFresh(candidates, s.pending.Keys);
      var s1 := RequestRollPromise(s, candidates, rolls);
      var s2 := Receive(s1, RollResponse(id, completed));
      && s1.outbox == s.outbox + [RollRequest(id, rolls)]
      && s2.settled == s.settled + [Settlement(s.nextPromise, RollRequestResult(completed, false))]
      && s2.pending == s.pending && s2.events == s.events
  {
  }

  /** Awaited cancellation: the promise is resolved with no rolls and cancelled,
      and a CancelRollRequest follows the RollRequest on the wire. */
  lemma AwaitedCancelDelivered(s: ClientState, candidates: seq<string>, rolls: seq<RollDescription>)
    requires s.hasSocket && HasFresh(candidates, s.pending.Keys)
    ensures var id := FirstFresh(candidates, s.pending.Keys);
      var s2 := Cancel(RequestRollPromise(s, candidates, rolls), id);
      && s2.settled == s.settled + [Settlement(s.nextPromise, RollRequestResult([], true))]
      && s2.outbox == s.outbox + [RollRequest(id, rolls), CancelRollRequest(id)]
      && s2.pending == s.pending && s2.events == s.events
  {
  }

  /** Event-driven round trip: without a promise, the response reaches the
      `onRollResponse` callback instead. */
  lemma EventResponseDelivered(s: ClientState, candidates: seq<string>, rolls: seq<RollDescription>,
                               completed: seq<CompletedRollDescription>)
    requires s.hasSocket && HasFresh(candidates, s.pending.Keys)
    ensures var id := FirstFresh(candidates, s.pending.Keys);
      var s2 := Receive(RequestRoll(s, candidates, rolls), RollResponse(id, completed));
      && s2.events == s.events + Fired(s.callbacks, OnRollResponse(id, completed))
      && s2.settled == s.settled && s2.pending == s.pending
  {
  }

  /** Requests made while no socket is attached send nothing, yet are pending. */
  lemma RequestWhileDisconnected(s: ClientState, candidates: seq<string>, rolls: seq<RollDescription>)
    requires !s.hasSocket && HasFresh(candidates, s.pending.Keys)
    ensures var r := RequestRoll(s, candidates, rolls);
      r.outbox == s.outbox && FirstFresh(candidates, s.pending.Keys) in r.pending
  {
  }
}
