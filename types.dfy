// Shared value types of the dice protocol: roll descriptions, the supported-dice
// value, the two message unions exchanged over a connection and the event maps
// of the server and of the client.

module Types {

  datatype Option<+T> = None | Some(value: T)

  /** A request for `amount` dice of `faces` faces each (4d12: amount 4, faces 12).
      The wire carries JavaScript numbers; the model keeps them as integers. */
  datatype RollDescription = RollDescription(amount: int, faces: int)

  /** A roll description extended with the values rolled for it. */
  datatype CompletedRollDescription =
    CompletedRollDescription(amount: int, faces: int, completedRolls: seq<int>)

  /** A completed roll is valid when it holds exactly `amount` values. */
  predicate IsValidCompletion(c: CompletedRollDescription)
  {
    |c.completedRolls| == c.amount
  }

  /** The roll description a completed roll extends. */
  function DescriptionOf(c: CompletedRollDescription): (d: RollDescription)
    ensures d.amount == c.amount && d.faces == c.faces
  {
    RollDescription(c.amount, c.faces)
  }

  /** Extends a roll description with rolled values. */
  function Complete(d: RollDescription, values: seq<int>): (c: CompletedRollDescription)
    ensures DescriptionOf(c) == d && c.completedRolls == values
    ensures IsValidCompletion(c) <==> |values| == d.amount
  {
    CompletedRollDescription(d.amount, d.faces, values)
  }

  /** Every completed roll is the completion of the description it extends. */
  lemma CompleteDescriptionOf(c: CompletedRollDescription)
    ensures Complete(DescriptionOf(c), c.completedRolls) == c
  {
  }

  /** One entry of the supported-dice value: a face count or the sentinel 'all'. */
  datatype DiceValue = Faces(count: int) | AllFaces

  type SupportedDiceValue = seq<DiceValue>

  /** Messages either side may send. */
  datatype SharedMessage = Ping | Pong

  /** Messages that come from the server. */
  datatype ServerMessage =
    | ServerVersion(version: int)
    | SupportedDice(dice: SupportedDiceValue)
    | RollResponse(id: string, rolls: seq<CompletedRollDescription>)
    | ServerShared(shared: SharedMessage)

  /** Messages that come from the client. */
  datatype ClientMessage =
    | RollRequest(id: string, rolls: seq<RollDescription>)
    | CancelRollRequest(id: string)
    | ClientShared(shared: SharedMessage)

  /** The events a server emits, with their arguments. */
  datatype ServerEvent =
    | OnConnection(conn: string)
    | OnConnectionClose(conn: string)
    | OnClose
    | OnError(error: string, source: Option<string>)
    | OnRollRequest(conn: string, requestId: string, rolls: seq<RollDescription>)
    | OnCancelRollRequest(conn: string, requestId: string)

  /** The callbacks a client invokes, with their arguments. */
  datatype ClientEvent =
    | OnOpen
    | OnClientClose
    | OnClientError(error: string)
    | OnRollResponse(rollId: string, completedRolls: seq<CompletedRollDescription>)
    | OnSupportedDiceUpdated(dice: SupportedDiceValue)
    | OnRollCancelled(rollId: string)

  /** Which of the client's optional callbacks are registered. */
  datatype ClientCallbacks = ClientCallbacks(
    onOpen: bool,
    onClose: bool,
    onError: bool,
    onRollResponse: bool,
    onSupportedDiceUpdated: bool,
    onRollCancelled: bool)

  /** The callbacks of a client constructed without any: none registered. */
  const NoCallbacks: ClientCallbacks := ClientCallbacks(false, false, false, false, false, false)

  /** Whether invoking the callback for `e` reaches a registered handler. */
  predicate Registered(cb: ClientCallbacks, e: ClientEvent)
  {
    match e
    case OnOpen => cb.onOpen
    case OnClientClose => cb.onClose
    case OnClientError(_) => cb.onError
    case OnRollResponse(_, _) => cb.onRollResponse
    case OnSupportedDiceUpdated(_) => cb.onSupportedDiceUpdated
    case OnRollCancelled(_) => cb.onRollCancelled
  }
}
