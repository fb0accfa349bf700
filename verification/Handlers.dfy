/** POST /onion at guard, relay and exit nodes. */
module Handlers {
  import opened Wrappers
  import opened Strings
  import opened Wire
  import opened Keys

  type Addr = string

  /** A guard forwards like a relay and may also end a one-hop circuit itself. */
  datatype Role = Relay | Guard | Exit

  datatype HttpReply = Success(payload: Bytes) | Failure(code: int)

  /** What a node decides on reading an onion: the key was looked up once and travels with it. */
  datatype Action =
    | Refuse(code: int)
    | Forward(key: Key, nextHop: Addr, payload: Bytes)
    | Perform(key: Key, request: ExitLayer)

  /** The outcome of posting to the next hop: no reply, or a status with a decodable body or not. */
  datatype HopOutcome = NoReply | Replied(code: int, payload: Option<Bytes>)

  datatype DestOutcome =
    | Answer(response: ExitResponse)
    | InvalidRequest(msg: string)
    | Unreachable(msg: string)
    | ReadFailed(msg: string)

  function Serve(role: Role, keys: map<CircuitId, Key>, circuit: CircuitId, payload: Bytes): Action {
    if circuit == "" || payload == EMPTY then Refuse(400)
    else if circuit !in keys then Refuse(401)
    else Peel(role, keys[circuit], payload)
  }

  /** Try a forwarding layer first, except at an exit; only a guard then falls back to an exit layer. */
  function Peel(role: Role, key: Key, payload: Bytes): Action {
    if role.Exit? then PeelExit(key, payload)
    else
      match UnwrapLayer(key, payload)
      case Ok(layer) => Forward(key, layer.nextHop, layer.payload)
      case Err(_) => if role.Guard? then PeelExit(key, payload) else Refuse(400)
  }

  function PeelExit(key: Key, payload: Bytes): Action {
    match UnwrapExitLayer(key, payload)
    case Ok(request) => Perform(key, request)
    case Err(_) => Refuse(400)
  }

  /** The reply of a node that forwarded under `key`. */
  function HopReply(key: Key, nonce: Nonce, outcome: HopOutcome): HttpReply {
    match outcome
    case Replied(200, Some(inner)) =>
      (match Encrypt(key, nonce, inner) case Ok(wrapped) => Success(wrapped) case Err(_) => Failure(500))
    case _ => Failure(502)
  }

  const INVALID_REQUEST := "invalid destination request"
  const EXIT_LAYER := "exit layer"
  const UNREACHABLE := "destination unreachable"
  const READ_FAILED := "failed to read destination response"

  function ErrorText(outcome: DestOutcome): string
    requires !outcome.Answer?
  {
    match outcome
    case InvalidRequest(msg) => INVALID_REQUEST + ": " + msg
    case Unreachable(msg) => UNREACHABLE + ": " + msg
    case ReadFailed(msg) => READ_FAILED + ": " + msg
  }

  /** The exit handler picks its status by looking for phrases in the error text, in this order. */
  function ExitStatus(err: string): int {
    if Contains(err, INVALID_REQUEST) || Contains(err, EXIT_LAYER) then 400
    else if Contains(err, UNREACHABLE) || Contains(err, READ_FAILED) then 502
    else 400
  }

  /** The reply of a node that carried the request to its destination. */
  function DestReply(role: Role, key: Key, nonce: Nonce, outcome: DestOutcome): HttpReply {
    if outcome.Answer? then
      match Encrypt(key, nonce, Text(ResponseDoc(outcome.response)))
      case Ok(wrapped) => Success(wrapped)
      case Err(_) => Failure(400)
    else if role.Exit? then Failure(ExitStatus(ErrorText(outcome)))
    else Failure(400)
  }

  function Respond(
    role: Role, action: Action, circuit: CircuitId, nonce: Nonce,
    post: (Addr, CircuitId, Bytes) -> HopOutcome, visit: ExitLayer -> DestOutcome): HttpReply
  {
    match action
    case Refuse(code) => Failure(code)
    case Forward(key, nextHop, payload) => HopReply(key, nonce, post(nextHop, circuit, payload))
    case Perform(key, request) => DestReply(role, key, nonce, visit(request))
  }

  datatype OnionBody = BadOnionJson | OnionBody(circuit: CircuitId, payload: Bytes)

  class OnionNode {
    const role: Role
    const store: KeyStore

    constructor (role: Role, store: KeyStore)
      ensures this.role == role && this.store == store
    {
      this.role, this.store := role, store;
    }

    /**
     * One request from start to reply. `post` and `visit` are what the network answers; `meanwhile`
     * are the /key and /setup writes other requests make while this one waits. The reply is the one
     * the key store of the start calls for, whatever was written in between.
     */
    method HandleOnion(
      isPost: bool, body: OnionBody, nonce: Nonce,
      post: (Addr, CircuitId, Bytes) -> HopOutcome, visit: ExitLayer -> DestOutcome,
      meanwhile: seq<KeyBody>) returns (reply: HttpReply)
      modifies store
      ensures !isPost ==> reply == Failure(405)
      ensures isPost && body.BadOnionJson? ==> reply == Failure(400)
      ensures isPost && body.OnionBody? ==>
                reply == Respond(role, Serve(role, old(store.Contents()), body.circuit, body.payload),
                                 body.circuit, nonce, post, visit)
    {
      if !isPost { return Failure(405); }
      if body.BadOnionJson? { return Failure(400); }
      if body.circuit == "" || body.payload == EMPTY { return Failure(400); }
      var buffer, ok := store.Get(body.circuit);
      if !ok { return Failure(401); }
      ghost var key := buffer[..];
      if !role.Exit? {
        var unwrapped := UnwrapLayer(buffer[..], body.payload);
        if unwrapped.Ok? {
          var outcome := post(unwrapped.value.nextHop, body.circuit, unwrapped.value.payload);
          WriteKeys(meanwhile, buffer);
          return HopReply(buffer[..], nonce, outcome);
        }
        if !role.Guard? { return Failure(400); }
      }
      var request := UnwrapExitLayer(buffer[..], body.payload);
      if request.Err? { return Failure(400); }
      var outcome := visit(request.value);
      WriteKeys(meanwhile, buffer);
      reply := DestReply(role, buffer[..], nonce, outcome);
    }

    /** Other requests' key writes; a buffer handed out earlier keeps its bytes. */
    method WriteKeys(bodies: seq<KeyBody>, held: array<octet>)
      modifies store
      ensures held[..] == old(held[..])
    {
      for i := 0 to |bodies|
        invariant held[..] == old(held[..])
      {
        var _ := store.HandleKey(true, bodies[i]);
      }
    }
  }

  // ---- Facts ---------------------------------------------------------------------------------

  /** A key that opened an onion can seal the reply: the internal-error replies never happen. */
  lemma PeelingKeysCanSeal(role: Role, keys: map<CircuitId, Key>, circuit: CircuitId, payload: Bytes, nonce: Nonce,
                           inner: Bytes, response: ExitResponse)
    ensures var action := Serve(role, keys, circuit, payload);
            && (action.Forward? ==> HopReply(action.key, nonce, Replied(200, Some(inner))) == Success(Sealed(action.key, nonce, inner)))
            && (action.Perform? ==> DestReply(role, action.key, nonce, Answer(response))
                                    == Success(Sealed(action.key, nonce, Text(ResponseDoc(response)))))
            && (action.Refuse? ==> action.code in {400, 401})
  {
  }

  /**
   * Why a node refuses: 401 exactly for a complete request of a circuit it has no key for, and 400
   * exactly if a field is missing or its key opens nothing that its role may act on.
   */
  lemma RefusalsMean(role: Role, keys: map<CircuitId, Key>, circuit: CircuitId, payload: Bytes)
    ensures Serve(role, keys, circuit, payload) == Refuse(401) <==> circuit != "" && payload != EMPTY && circuit !in keys
    ensures Serve(role, keys, circuit, payload) == Refuse(400) <==>
            || circuit == "" || payload == EMPTY
            || (circuit in keys && (role.Exit? || UnwrapLayer(keys[circuit], payload).Err?)
                && (role.Relay? || UnwrapExitLayer(keys[circuit], payload).Err?))
  {
  }

  /** With a key that seals, a forwarding node answers 502 exactly unless a decodable 200 came back. */
  lemma ForwardingFails(key: Key, nonce: Nonce, outcome: HopOutcome)
    requires IsAesKey(key)
    ensures HopReply(key, nonce, outcome) == Failure(502) <==>
            outcome.NoReply? || outcome.code != 200 || outcome.payload.None?
  {
  }

  /** A request that cannot even be made is the client's fault at an exit; a guard answers 400 for every failure. */
  lemma FailedRequestStatuses(key: Key, nonce: Nonce, outcome: DestOutcome)
    requires !outcome.Answer?
    ensures outcome.InvalidRequest? ==> DestReply(Exit, key, nonce, outcome) == Failure(400)
    ensures DestReply(Guard, key, nonce, outcome) == Failure(400)
  {
    ContainsSelf(INVALID_REQUEST);
    if outcome.InvalidRequest? {
      ContainsInHead(INVALID_REQUEST, ": ", INVALID_REQUEST);
      ContainsInHead(INVALID_REQUEST + ": ", outcome.msg, INVALID_REQUEST);
    }
  }

  /** The phrase a 502 is recognised by spells neither phrase for a bad exit layer. */
  lemma {:induction false} StatusOfPrefixed(phrase: string, msg: string)
    requires 'x' !in phrase && 'v' !in phrase
    requires phrase == UNREACHABLE || phrase == READ_FAILED
    ensures ExitStatus(phrase + ": " + msg) == 502 <==> !Contains(msg, INVALID_REQUEST) && !Contains(msg, EXIT_LAYER)
  {
    var pre := phrase + ": ";
    ContainsOnlyInTail(pre, msg, INVALID_REQUEST, 2);
    ContainsOnlyInTail(pre, msg, EXIT_LAYER, 1);
    ContainsSelf(phrase);
    ContainsInHead(phrase, ": ", phrase);
    ContainsInHead(pre, msg, phrase);
  }

  /**
   * An exit node is meant to answer 502 when its destination is unreachable or breaks off. It does
   * so exactly when the transport's own message repeats neither phrase for a bad exit layer.
   */
  lemma {:induction false} BrokenDestinationIsBadGateway(key: Key, nonce: Nonce, msg: string)
    ensures DestReply(Exit, key, nonce, Unreachable(msg)) == Failure(502) <==>
            !Contains(msg, INVALID_REQUEST) && !Contains(msg, EXIT_LAYER)
    ensures DestReply(Exit, key, nonce, ReadFailed(msg)) == Failure(502) <==>
            !Contains(msg, INVALID_REQUEST) && !Contains(msg, EXIT_LAYER)
  {
    UnreachableStatus(msg);
    ReadFailedStatus(msg);
  }

  lemma UnreachableStatus(msg: string)
    ensures ExitStatus(ErrorText(Unreachable(msg))) == 502 <==> !Contains(msg, INVALID_REQUEST) && !Contains(msg, EXIT_LAYER)
  {
    StatusOfPrefixed(UNREACHABLE, msg);
  }

  lemma ReadFailedStatus(msg: string)
    ensures ExitStatus(ErrorText(ReadFailed(msg))) == 502 <==> !Contains(msg, INVALID_REQUEST) && !Contains(msg, EXIT_LAYER)
  {
    StatusOfPrefixed(READ_FAILED, msg);
  }

  /** The failing input: a destination whose URL spells the phrase is reported as a bad request. */
  lemma UnreachableReportedAsBadRequest(key: Key, nonce: Nonce)
    ensures DestReply(Exit, key, nonce, Unreachable("Get \"http://h/?q=exit layer\": refused")) == Failure(400)
  {
    var msg := "Get \"http://h/?q=exit layer\": refused";
    assert OccursAt(msg, "exit layer", 17);
    BrokenDestinationIsBadGateway(key, nonce, msg);
  }
}
