// The DiceClient class of src/dice-client.ts. Its fields are the client's
// state; every method changes them exactly as the matching ClientModel function
// says, and keeps the client's invariant.

module Client {
  import opened Types
  import opened Identity
  import ClientModel
  import ClientProperties

  class DiceClient {
    /** `eventCallbacks`: which optional callbacks the owner registered. */
    var callbacks: ClientCallbacks
    /** `webSocket` is set. */
    var hasSocket: bool
    /** `webSocketReady`. */
    var ready: bool
    /** The dice set the server last advertised. */
    var supportedDice: Option<SupportedDiceValue>
    /** `pendingRollRequests`: request id to the promise awaiting it, if any. */
    var pending: map<string, Option<nat>>
    /** Number of the next promise `requestRollPromise` creates. */
    var nextPromise: nat
    /** Every message handed to a socket. */
    var outbox: seq<ClientMessage>
    /** Every callback invoked. */
    var events: seq<ClientEvent>
    /** Every promise resolution, in order. */
    var settled: seq<ClientModel.Settlement>

    function State(): ClientModel.ClientState
      reads this
    {
      ClientModel.ClientState(callbacks, hasSocket, ready, supportedDice, pending, nextPromise,
                              outbox, events, settled)
    }

    ghost predicate Valid()
      reads this
    {
      ClientModel.Consistent(State())
    }

    constructor (callbacks: ClientCallbacks := NoCallbacks)
      ensures Valid() && State() == ClientModel.Initial(callbacks)
    {
      this.callbacks := callbacks;
      hasSocket, ready, supportedDice := false, false, None;
      pending, nextPromise := map[], 0;
      outbox, events, settled := [], [], [];
    }

    /** Assigns the public `eventCallbacks` field. */
    method SetCallbacks(callbacks: ClientCallbacks)
      requires Valid()
      modifies this
      ensures Valid() && State() == ClientModel.SetCallbacks(old(State()), callbacks)
    {
      ClientProperties.StepConsistent(State(), ClientModel.SetCallbacksCall(callbacks));
      this.callbacks := callbacks;
    }

    /** Invokes the callback for `e` if one is registered. */
    method Invoke(e: ClientEvent)
      requires Valid()
      modifies this
      ensures Valid() && State() == ClientModel.Invoke(old(State()), e)
    {
      ClientProperties.InvokeConsistent(State(), e);
      if Registered(callbacks, e) {
        events := events + [e];
      }
    }

    /** `send`: a message goes to the attached socket; without one it is dropped. */
    method Send(m: ClientMessage)
      requires Valid()
      modifies this
      ensures Valid() && State() == ClientModel.Send(old(State()), m)
    {
      ClientProperties.SendConsistent(State(), m);
      if hasSocket {
        outbox := outbox + [m];
      }
    }

    /** `connect`: drops any current socket and attaches a new, not yet open one. */
    method Connect()
      requires Valid()
      modifies this
      ensures Valid() && State() == ClientModel.Connect(old(State()))
    {
      ClientProperties.StepConsistent(State(), ClientModel.ConnectCall);
      Disconnect();
      hasSocket := true;
    }

    /** `disconnect`: detaches the socket and its handlers, if there is one. */
    method Disconnect()
      requires Valid()
      modifies this
      ensures Valid() && State() == ClientModel.Disconnect(old(State()))
    {
      ClientProperties.StepConsistent(State(), ClientModel.DisconnectCall);
      if hasSocket {
        ready := false;
        hasSocket := false;
      }
    }

    /** The socket's `onopen` handler. */
    method Opened()
      requires Valid()
      modifies this
      ensures Valid() && State() == ClientModel.Opened(old(State()))
    {
      if hasSocket {
        ClientProperties.SameBookkeepingConsistent(State(), State().(ready := true));
        ready := true;
        Invoke(OnOpen);
      }
    }

    /** The socket's `onclose` handler. */
    method Closed()
      requires Valid()
      modifies this
      ensures Valid() && State() == ClientModel.Closed(old(State()))
    {
      if hasSocket {
        ClientProperties.SameBookkeepingConsistent(State(), State().(ready := false));
        ready := false;
        Invoke(OnClientClose);
      }
    }

    /** `requestRoll`: returns an id that was not pending; the request is sent and
        the id is pending without a promise. */
    method RequestRoll(candidates: seq<string>, rolls: seq<RollDescription>) returns (rollId: string)
      requires Valid() && HasFresh(candidates, pending.Keys)
      modifies this
      ensures Valid() && State() == ClientModel.RequestRoll(old(State()), candidates, rolls)
      ensures rollId == FirstFresh(candidates, old(pending).Keys)
      ensures rollId !in old(pending) && rollId in pending && pending[rollId] == None
    {
      ghost var s := State();
      ClientProperties.RequestConsistent(s, candidates, rolls, false);
      rollId := DrawFreshId(candidates, pending.Keys);
      Send(RollRequest(rollId, rolls));
      pending := pending[rollId := None];
      assert State() == ClientModel.RequestRoll(s, candidates, rolls);
    }

    /** `requestRollPromise`: returns a fresh id and the promise its response will
        resolve; the id is pending with that promise when the call returns. */
    method RequestRollPromise(candidates: seq<string>, rolls: seq<RollDescription>)
      returns (rollId: string, promise: nat)
      requires Valid() && HasFresh(candidates, pending.Keys)
      modifies this
      ensures Valid() && State() == ClientModel.RequestRollPromise(old(State()), candidates, rolls)
      ensures rollId == FirstFresh(candidates, old(pending).Keys)
      ensures rollId !in old(pending) && rollId in pending && pending[rollId] == Some(promise)
      ensures promise == old(nextPromise)
    {
      ghost var s := State();
      ClientProperties.RequestConsistent(s, candidates, rolls, true);
      rollId := DrawFreshId(candidates, pending.Keys);
      Send(RollRequest(rollId, rolls));
      promise := nextPromise;
      pending := pending[rollId := Some(promise)];
      nextPromise := nextPromise + 1;
      assert State() == ClientModel.RequestRollPromise(s, candidates, rolls);
    }

    /** `cancelRollRequest`. */
    method CancelRollRequest(rollId: string)
      requires Valid()
      modifies this
      ensures Valid() && State() == ClientModel.Cancel(old(State()), rollId)
    {
      ClientProperties.CancelConsistent(State(), rollId);
      if rollId !in pending {
        return;
      }
      match pending[rollId] {
        case Some(p) =>
          settled := settled + [ClientModel.Settlement(p, ClientModel.RollRequestResult([], true))];
        case None =>
          if Registered(callbacks, OnRollCancelled(rollId)) {
            events := events + [OnRollCancelled(rollId)];
          }
      }
      pending := pending - {rollId};
      if hasSocket {
        outbox := outbox + [Types.CancelRollRequest(rollId)];
      }
    }

    /** `handleRollResponse`. */
    method HandleRollResponse(rollId: string, completedRolls: seq<CompletedRollDescription>)
      requires Valid()
      modifies this
      ensures Valid() && State() == ClientModel.HandleRollResponse(old(State()), rollId, completedRolls)
    {
      ClientProperties.HandleRollResponseConsistent(State(), rollId, completedRolls);
      if rollId !in pending {
        return;
      }
      match pending[rollId] {
        case Some(p) =>
          settled := settled + [ClientModel.Settlement(p, ClientModel.RollRequestResult(completedRolls, false))];
        case None =>
          if Registered(callbacks, OnRollResponse(rollId, completedRolls)) {
            events := events + [OnRollResponse(rollId, completedRolls)];
          }
      }
      pending := pending - {rollId};
    }

    /** The socket's `onmessage` handler, for a decoded server message. */
    method OnMessage(m: ServerMessage)
      requires Valid()
      modifies this
      ensures Valid() && State() == ClientModel.Receive(old(State()), m)
    {
      if !hasSocket {
        return;
      }
      match m
      case ServerVersion(v) =>
        if v !in ClientModel.SupportedServerVersions {
          Invoke(OnClientError(ClientModel.UnsupportedServerVersion));
          Disconnect();
        }
      case SupportedDice(dice) =>
        ClientProperties.SameBookkeepingConsistent(State(), State().(supportedDice := Some(dice)));
        supportedDice := Some(dice);
        Invoke(OnSupportedDiceUpdated(dice));
      case RollResponse(id, rolls) =>
        HandleRollResponse(id, rolls);
      case ServerShared(Ping) =>
        Send(ClientShared(Pong));
      case ServerShared(Pong) =>
    }
  }
}
