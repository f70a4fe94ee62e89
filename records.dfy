// How the source looks up its `Record` tables. The client's pending table and
// the server's connection registry start as `{}` and are tested with
// `if (!table[id])`. A plain object also reaches the names it inherits from
// Object.prototype, all of which hold truthy values, so those names pass the
// guard although no entry was ever stored under them. This module models the
// guards as written and exhibits the inputs on which they go wrong; the rest of
// the model looks entries up by key (`id in table`), as evidently intended.

module Records {
  import opened Types
  import ClientModel
  import ServerModel

  /** The names a plain object inherits from Object.prototype; each holds an
      object or a function, so looking it up is truthy. */
  const InheritedNames: set<string> := {
    "constructor", "toString", "toLocaleString", "valueOf", "hasOwnProperty",
    "isPrototypeOf", "propertyIsEnumerable", "__proto__", "__defineGetter__",
    "__defineSetter__", "__lookupGetter__", "__lookupSetter__"
  }

  /** `table[key]` is truthy, for a table created as `{}` whose own entries are
      `own` (every stored value is an object, hence truthy). */
  predicate LookupTruthy(own: set<string>, key: string)
  {
    key in own || key in InheritedNames
  }

  /** The guard is right exactly on the names that are not inherited. */
  lemma LookupTruthyAgrees(own: set<string>, key: string)
    ensures key !in InheritedNames ==> (LookupTruthy(own, key) <==> key in own)
    ensures key in InheritedNames ==> LookupTruthy(own, key)
  {
  }

  /** `handleRollResponse` as written. An inherited name passes the guard; the
      value found has no `resolve`, so `onRollResponse` is invoked, and deleting a
      name the table does not own changes nothing. */
  function HandleRollResponseAsWritten(s: ClientModel.ClientState, id: string,
                                       rolls: seq<CompletedRollDescription>): (r: ClientModel.ClientState)
    ensures id in InheritedNames && id !in s.pending ==>
      && r.pending == s.pending && r.settled == s.settled && r.outbox == s.outbox
      && r.events == s.events + ClientModel.Fired(s.callbacks, OnRollResponse(id, rolls))
  {
    if !LookupTruthy(s.pending.Keys, id) then s
    else if id in s.pending then ClientModel.HandleRollResponse(s, id, rolls)
    else ClientModel.Invoke(s, OnRollResponse(id, rolls))
  }

  /** `cancelRollRequest` as written: an inherited name invokes `onRollCancelled`
      and sends a CancelRollRequest for a roll that was never requested. */
  function CancelAsWritten(s: ClientModel.ClientState, id: string): (r: ClientModel.ClientState)
    ensures id in InheritedNames && id !in s.pending ==>
      && r.pending == s.pending && r.settled == s.settled
      && r.events == s.events + ClientModel.Fired(s.callbacks, OnRollCancelled(id))
      && r.outbox == s.outbox + ClientModel.Transmitted(s, CancelRollRequest(id))
  {
    if !LookupTruthy(s.pending.Keys, id) then s
    else if id in s.pending then ClientModel.Cancel(s, id)
    else ClientModel.Send(ClientModel.Invoke(s, OnRollCancelled(id)), CancelRollRequest(id))
  }

  /** What `_sendRaw` with a connection id does: a new server state, or a
      TypeError thrown to the caller. */
  datatype SendOutcome = Done(s: ServerModel.ServerState) | Threw

  /** `_sendRaw` with a connection id, as written: an inherited name passes the
      guard, and the value found has no `send` method, so the call throws. */
  function SendToAsWritten(s: ServerModel.ServerState, id: string, m: ServerMessage): (r: SendOutcome)
    ensures r == Threw <==> id in InheritedNames && id !in s.clients
  {
    if !LookupTruthy(s.clients.Keys, id) then Done(s)
    else if id in s.clients then Done(s.(wire := s.wire + [ServerModel.Sent(id, m)]))
    else Threw
  }

  /** On every id that is not an inherited name, the client's guards as written
      behave as the model's by-key lookups. */
  lemma ClientAsWrittenAgreesOffInherited(s: ClientModel.ClientState, id: string,
                                          rolls: seq<CompletedRollDescription>)
    requires id !in InheritedNames
    ensures HandleRollResponseAsWritten(s, id, rolls) == ClientModel.HandleRollResponse(s, id, rolls)
    ensures CancelAsWritten(s, id) == ClientModel.Cancel(s, id)
  {
    LookupTruthyAgrees(s.pending.Keys, id);
  }

  /** On every id that is not an inherited name, `_sendRaw` as written behaves as
      the model's `SendTo`. */
  lemma SendAsWrittenAgreesOffInherited(s: ServerModel.ServerState, id: string, m: ServerMessage)
    requires id !in InheritedNames
    ensures SendToAsWritten(s, id, m) == Done(ServerModel.SendTo(s, id, m))
  {
    LookupTruthyAgrees(s.clients.Keys, id);
  }

  /** A RollResponse for "constructor", which no request ever used, reaches the
      owner's `onRollResponse` when nothing is pending; the intended behaviour
      drops it. */
  lemma UnrequestedResponseDelivered(cb: ClientCallbacks, rolls: seq<CompletedRollDescription>)
    requires cb.onRollResponse
    ensures var s := ClientModel.Initial(cb);
      && HandleRollResponseAsWritten(s, "constructor", rolls).events == [OnRollResponse("constructor", rolls)]
      && ClientModel.HandleRollResponse(s, "constructor", rolls) == s
  {
  }

  /** Cancelling "toString" on a connected client with nothing pending sends a
      CancelRollRequest to the server; the intended behaviour does nothing. */
  lemma UnrequestedCancelSent(cb: ClientCallbacks)
    ensures var s := ClientModel.Connect(ClientModel.Initial(cb));
      && CancelAsWritten(s, "toString").outbox == [CancelRollRequest("toString")]
      && ClientModel.Cancel(s, "toString") == s
  {
  }

  /** `sendRollResponse` to connection "__proto__" throws, where an unknown
      connection id is meant to be ignored. */
  lemma SendToInheritedNameThrows(dice: SupportedDiceValue, m: ServerMessage)
    ensures var s := ServerModel.Initial(dice);
      && SendToAsWritten(s, "__proto__", m) == Threw
      && ServerModel.SendTo(s, "__proto__", m) == s
  {
  }
}
