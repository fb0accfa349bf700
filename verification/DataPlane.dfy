/**
 * The network of onion nodes as a step system. Any number of onions are under way at once; key
 * writes, losses and replies interleave with them in any order. Nodes act by the functions of
 * `Handlers`; the network may lose a request before or after it arrives, or lose its reply.
 */
module DataPlane {
  import opened Wrappers
  import opened Wire
  import opened Keys
  import opened Handlers

  type Stores = map<Addr, map<CircuitId, Key>>

  /** How a call ended: refused, its forwarding lost, answered by a later call, or at the destination. */
  datatype Ending = Refused | Lost | Returned(child: nat) | Visited(outcome: DestOutcome)

  datatype Stage =
    | Arrived
    | Working(action: Action, child: Option<nat>)
    | Finished(action: Action, ending: Ending, reply: HttpReply)

  /** One /onion request at one node. `root` is the call a client made; `depth` counts forwardings. */
  datatype Call = Call(addr: Addr, circuit: CircuitId, payload: Bytes, root: nat, depth: nat, stage: Stage)

  /** A request carried out at a destination on behalf of the client call `root`. */
  datatype Effect = Effect(root: nat, request: ExitLayer, outcome: DestOutcome)

  datatype State = State(roles: map<Addr, Role>, stores: Stores, calls: seq<Call>, effects: seq<Effect>)

  datatype Step =
    | WriteKey(addr: Addr, circuit: CircuitId, key: Key)
    | Send(addr: Addr, circuit: CircuitId, payload: Bytes)
    | Dispatch(id: nat, delivered: bool)
    | Visit(id: nat, outcome: DestOutcome, nonce: Nonce)
    | Return(id: nat, nonce: Nonce)
    | Lose(id: nat)

  predicate Enabled(s: State, step: Step) {
    match step
    case WriteKey(addr, circuit, key) => addr in s.stores && circuit != "" && |key| == KEY_SIZE
    case Send(addr, _, _) => addr in s.roles
    case Dispatch(id, delivered) =>
      && id < |s.calls| && s.calls[id].stage.Arrived? && s.calls[id].addr in s.roles && s.calls[id].addr in s.stores
      && (delivered ==> var action := Decide(s, s.calls[id]);
                        action.Forward? ==> action.nextHop in s.roles)
    case Visit(id, _, _) =>
      && id < |s.calls| && s.calls[id].stage.Working? && s.calls[id].stage.action.Perform? && s.calls[id].addr in s.roles
    case Return(id, _) =>
      && id < |s.calls| && Awaiting(s.calls[id])
      && s.calls[id].stage.child.Some? && s.calls[id].stage.child.value < |s.calls|
      && s.calls[s.calls[id].stage.child.value].stage.Finished?
    case Lose(id) => id < |s.calls| && Awaiting(s.calls[id])
  }

  predicate Awaiting(c: Call) { c.stage.Working? && c.stage.action.Forward? }

  function Decide(s: State, c: Call): Action
    requires c.addr in s.roles && c.addr in s.stores
  {
    Serve(s.roles[c.addr], s.stores[c.addr], c.circuit, c.payload)
  }

  function Apply(s: State, step: Step): State
    requires Enabled(s, step)
  {
    match step
    case WriteKey(addr, circuit, key) => s.(stores := s.stores[addr := s.stores[addr][circuit := key]])
    case Send(addr, circuit, payload) =>
      s.(calls := s.calls + [Call(addr, circuit, payload, |s.calls|, 0, Arrived)])
    case Dispatch(id, delivered) =>
      var c := s.calls[id];
      var action := Decide(s, c);
      (match action
       case Refuse(code) => Put(s, id, Finished(action, Refused, Failure(code)))
       case Perform(_, _) => Put(s, id, Working(action, None))
       case Forward(_, nextHop, inner) =>
         if delivered then
           var t := Put(s, id, Working(action, Some(|s.calls|)));
           t.(calls := t.calls + [Call(nextHop, c.circuit, inner, c.root, c.depth + 1, Arrived)])
         else
           Put(s, id, Working(action, None)))
    case Visit(id, outcome, nonce) =>
      var c := s.calls[id];
      var t := Put(s, id, Finished(c.stage.action, Visited(outcome),
                                   DestReply(s.roles[c.addr], c.stage.action.key, nonce, outcome)));
      if outcome.InvalidRequest? then t
      else t.(effects := t.effects + [Effect(c.root, c.stage.action.request, outcome)])
    case Return(id, nonce) =>
      var c := s.calls[id];
      var child := c.stage.child.value;
      Put(s, id, Finished(c.stage.action, Returned(child),
                          HopReply(c.stage.action.key, nonce, AsOutcome(s.calls[child].stage.reply))))
    case Lose(id) =>
      var c := s.calls[id];
      Put(s, id, Finished(c.stage.action, Lost, HopReply(c.stage.action.key, [], NoReply)))
  }

  function Put(s: State, id: nat, stage: Stage): State
    requires id < |s.calls|
  {
    s.(calls := s.calls[id := s.calls[id].(stage := stage)])
  }

  function AsOutcome(reply: HttpReply): HopOutcome {
    match reply
    case Success(payload) => Replied(200, Some(payload))
    case Failure(code) => Replied(code, None)
  }

  ghost predicate Init(s: State) {
    && s.calls == [] && s.effects == []
    && s.stores.Keys == s.roles.Keys
    && forall a :: a in s.stores ==> s.stores[a] == map[]
  }

  /** A run from the first state of `tr` by `steps`, one after the other. */
  ghost predicate IsRun(tr: seq<State>, steps: seq<Step>) {
    && |tr| == |steps| + 1
    && forall i {:trigger Leads(tr, steps, i)} :: 0 <= i < |steps| ==> Leads(tr, steps, i)
  }

  ghost predicate Leads(tr: seq<State>, steps: seq<Step>, i: nat)
    requires |tr| == |steps| + 1 && i < |steps|
  {
    Enabled(tr[i], steps[i]) && tr[i + 1] == Apply(tr[i], steps[i])
  }

  // ---- What every step keeps -----------------------------------------------------------------

  ghost predicate Inv(s: State) {
    && s.stores.Keys == s.roles.Keys
    && (forall a :: a in s.stores ==> AllSessionKeys(s.stores[a]))
    && (forall i :: 0 <= i < |s.calls| ==> CallOk(s, i))
    && OneToken(s)
  }

  ghost predicate CallOk(s: State, i: nat)
    requires i < |s.calls|
  {
    var c := s.calls[i];
    && c.addr in s.roles
    && c.root <= i && s.calls[c.root].root == c.root && s.calls[c.root].circuit == c.circuit
    && (c.depth == 0 <==> c.root == i)
    && Pow(4, c.depth) * LeastSize(c.payload) <= Pow(3, c.depth) * LeastSize(s.calls[c.root].payload)
    && (c.depth > 0 ==> c.payload != EMPTY)
    && (!c.stage.Arrived? ==> Peeled(s.roles[c.addr], c.payload, c.stage.action))
    && (c.stage.Working? ==>
          && !c.stage.action.Refuse?
          && (c.stage.child.Some? ==> c.stage.action.Forward? && IsChild(s, i, c.stage.child.value)))
    && (c.stage.Finished? ==> EndedOk(s, i, c.stage.action, c.stage.ending, c.stage.reply))
  }

  /** The action is what some key made of this very payload; that key is the one kept in it. */
  ghost predicate Peeled(role: Role, payload: Bytes, action: Action) {
    match action
    case Refuse(code) => code in {400, 401}
    case Forward(key, nextHop, inner) =>
      !role.Exit? && IsAesKey(key) && UnwrapLayer(key, payload) == Ok(Layer(nextHop, inner))
    case Perform(key, request) =>
      !role.Relay? && IsAesKey(key) && UnwrapExitLayer(key, payload) == Ok(request)
  }

  ghost predicate IsChild(s: State, i: nat, j: nat)
    requires i < |s.calls| && !s.calls[i].stage.Arrived? && s.calls[i].stage.action.Forward?
  {
    var c := s.calls[i];
    && i < j < |s.calls|
    && s.calls[j].root == c.root && s.calls[j].circuit == c.circuit && s.calls[j].depth == c.depth + 1
    && s.calls[j].addr == c.stage.action.nextHop && s.calls[j].payload == c.stage.action.payload
  }

  ghost predicate EndedOk(s: State, i: nat, action: Action, ending: Ending, reply: HttpReply)
    requires i < |s.calls| && s.calls[i].stage == Finished(action, ending, reply)
    requires s.calls[i].addr in s.roles
  {
    match ending
    case Refused => action.Refuse? && reply == Failure(action.code)
    case Lost => action.Forward? && reply == Failure(502)
    case Returned(j) =>
      && action.Forward? && IsChild(s, i, j) && s.calls[j].stage.Finished?
      && (match s.calls[j].stage.reply
          case Success(inner) => reply.Success? && SealedUnder(reply.payload, action.key, inner)
          case Failure(_) => reply == Failure(502))
    case Visited(outcome) =>
      && action.Perform?
      && (match outcome
          case Answer(response) =>
            && reply.Success? && SealedUnder(reply.payload, action.key, Text(ResponseDoc(response)))
            && Effect(s.calls[i].root, action.request, outcome) in s.effects
          case _ =>
            && reply == Failure(if s.roles[s.calls[i].addr].Exit? then ExitStatus(ErrorText(outcome)) else 400)
            && (outcome.InvalidRequest? || Effect(s.calls[i].root, action.request, outcome) in s.effects))
  }

  predicate SealedUnder(cipher: Bytes, key: Key, plain: Bytes) {
    cipher.Sealed? && cipher.key == key && cipher.plain == plain
  }

  /** A call that can still bring about a visit to the destination. */
  predicate HasToken(c: Call) {
    c.stage.Arrived? || (c.stage.Working? && c.stage.action.Perform?)
  }

  /**
   * Per client call: forwardings form one chain, only its last call can still reach the
   * destination, and none can once one has.
   */
  ghost predicate OneToken(s: State) {
    Chained(s.calls) && Unvisited(s.calls, s.effects) && EachOnce(s.calls, s.effects)
  }

  ghost predicate Chained(calls: seq<Call>) {
    forall i, j :: 0 <= i < j < |calls| && calls[i].root == calls[j].root ==>
      !HasToken(calls[i]) && calls[i].depth < calls[j].depth
  }

  ghost predicate Unvisited(calls: seq<Call>, effects: seq<Effect>) {
    forall i, e :: 0 <= i < |calls| && HasToken(calls[i]) && 0 <= e < |effects| ==> effects[e].root != calls[i].root
  }

  ghost predicate EachOnce(calls: seq<Call>, effects: seq<Effect>) {
    && (forall d, e :: 0 <= d < e < |effects| ==> effects[d].root != effects[e].root)
    && (forall e :: 0 <= e < |effects| ==> effects[e].root < |calls|)
  }

  /** A step that gives no call a new chance and visits nothing. */
  lemma TokensShrink(s: State, t: State, id: nat)
    requires OneToken(s) && id < |s.calls| == |t.calls| && t.effects == s.effects
    requires t.calls[id] == s.calls[id].(stage := t.calls[id].stage) && (HasToken(t.calls[id]) ==> HasToken(s.calls[id]))
    requires forall i :: 0 <= i < |s.calls| && i != id ==> t.calls[i] == s.calls[i]
    ensures OneToken(t)
  {
  }

  function Pow(b: nat, n: nat): nat { if n == 0 then 1 else b * Pow(b, n - 1) }

  lemma PeelIsPeeled(role: Role, keys: map<CircuitId, Key>, circuit: CircuitId, payload: Bytes)
    ensures Peeled(role, payload, Serve(role, keys, circuit, payload))
  {
  }

  /** One more forwarding keeps the size bound. */
  lemma SizeBoundStep(depth: nat, outer: nat, inner: nat, first: nat)
    requires Pow(4, depth) * outer <= Pow(3, depth) * first
    requires 4 * inner <= 3 * outer
    ensures Pow(4, depth + 1) * inner <= Pow(3, depth + 1) * first
  {
    var p, q := Pow(4, depth), Pow(3, depth);
    calc {
      (4 * p) * inner;
      p * (4 * inner);
    <= { MulMonotone(p, 4 * inner, 3 * outer); }
      p * (3 * outer);
      3 * (p * outer);
    <=
      3 * (q * first);
      (3 * q) * first;
    }
  }

  lemma MulMonotone(p: nat, a: int, b: int)
    requires a <= b
    ensures p * a <= p * b
  {
    assert p * b == p * a + p * (b - a);
  }

  /**
   * Replacing the stage of call `id`, if there is one, leaves every other call, and every link
   * between calls, as it was.
   */
  lemma OthersStayOk(s: State, t: State, id: nat)
    requires Inv(s) && |s.calls| <= |t.calls|
    requires t.roles == s.roles && s.effects <= t.effects
    requires forall i :: 0 <= i < |s.calls| ==> t.calls[i] == s.calls[i].(stage := t.calls[i].stage)
    requires forall i :: 0 <= i < |s.calls| && i != id ==> t.calls[i] == s.calls[i]
    requires id < |s.calls| ==> !s.calls[id].stage.Finished?
    ensures forall i :: 0 <= i < |s.calls| && i != id ==> CallOk(t, i)
  {
    forall i | 0 <= i < |s.calls| && i != id
      ensures CallOk(t, i)
    {
      assert CallOk(s, i);
      var c := s.calls[i];
      if c.stage.Working? && c.stage.child.Some? {
        assert IsChild(t, i, c.stage.child.value);
      }
      if c.stage.Finished? && c.stage.ending.Returned? {
        assert IsChild(t, i, c.stage.ending.child);
      }
    }
  }

  lemma DispatchKeepsToken(s: State, id: nat, delivered: bool)
    requires Inv(s) && Enabled(s, Dispatch(id, delivered))
    ensures OneToken(Apply(s, Dispatch(id, delivered)))
  {
    var t := Apply(s, Dispatch(id, delivered));
    if delivered && Decide(s, s.calls[id]).Forward? {
      ChanceMovesOn(s, t, id, t.calls[id].stage, t.calls[|s.calls|]);
    } else {
      TokensShrink(s, t, id);
    }
  }

  /** A call that forwards hands its chance to the call it creates. */
  lemma ChanceMovesOn(s: State, t: State, id: nat, stage: Stage, child: Call)
    requires OneToken(s) && id < |s.calls| && HasToken(s.calls[id]) && t.effects == s.effects
    requires t.calls == s.calls[id := s.calls[id].(stage := stage)] + [child] && !HasToken(t.calls[id])
    requires child.root == s.calls[id].root && child.depth == s.calls[id].depth + 1
    ensures OneToken(t)
  {
    assert forall i :: 0 <= i < |s.calls| && i != id ==> t.calls[i] == s.calls[i];
  }

  /** The call a forwarding creates carries the inner onion, one level deeper, and within the size bound. */
  lemma ForwardedCallOk(s: State, id: nat)
    requires Inv(s) && Enabled(s, Dispatch(id, true)) && Decide(s, s.calls[id]).Forward?
    ensures var t := Apply(s, Dispatch(id, true));
            IsChild(t, id, |s.calls|) && CallOk(t, |s.calls|)
  {
    var t := Apply(s, Dispatch(id, true));
    var c := s.calls[id];
    var action := Decide(s, c);
    assert CallOk(s, id);
    var layer := Layer(action.nextHop, action.payload);
    ForwardedPayloadShrinks(action.key, c.payload, layer);
    SizeBoundStep(c.depth, LeastSize(c.payload), LeastSize(layer.payload), LeastSize(s.calls[c.root].payload));
    assert t.calls[c.root].payload == s.calls[c.root].payload;
  }

  lemma DispatchedCallOk(s: State, id: nat, delivered: bool)
    requires Inv(s) && Enabled(s, Dispatch(id, delivered))
    requires delivered && Decide(s, s.calls[id]).Forward? ==>
               IsChild(Apply(s, Dispatch(id, delivered)), id, |s.calls|)
    ensures CallOk(Apply(s, Dispatch(id, delivered)), id)
  {
    var c := s.calls[id];
    assert CallOk(s, id);
    PeelIsPeeled(s.roles[c.addr], s.stores[c.addr], c.circuit, c.payload);
  }

  lemma DispatchKeepsInv(s: State, id: nat, delivered: bool)
    requires Inv(s) && Enabled(s, Dispatch(id, delivered))
    ensures Inv(Apply(s, Dispatch(id, delivered)))
  {
    var t := Apply(s, Dispatch(id, delivered));
    if Decide(s, s.calls[id]).Forward? && delivered {
      ForwardedCallOk(s, id);
    }
    DispatchedCallOk(s, id, delivered);
    OthersStayOk(s, t, id);
    DispatchKeepsToken(s, id, delivered);
  }

  lemma VisitedCallOk(s: State, id: nat, outcome: DestOutcome, nonce: Nonce)
    requires Enabled(s, Visit(id, outcome, nonce)) && CallOk(s, id)
    ensures CallOk(Apply(s, Visit(id, outcome, nonce)), id)
  {
    var t := Apply(s, Visit(id, outcome, nonce));
    if !outcome.InvalidRequest? {
      assert t.effects[|s.effects|] == Effect(s.calls[id].root, s.calls[id].stage.action.request, outcome);
    }
  }

  /** The visit uses up its call's chance, and no call of its send had visited before. */
  lemma VisitKeepsToken(s: State, id: nat, outcome: DestOutcome, nonce: Nonce)
    requires Enabled(s, Visit(id, outcome, nonce)) && OneToken(s) && CallOk(s, id)
    ensures OneToken(Apply(s, Visit(id, outcome, nonce)))
  {
    assert HasToken(s.calls[id]);
  }

  lemma VisitKeepsInv(s: State, id: nat, outcome: DestOutcome, nonce: Nonce)
    requires Inv(s) && Enabled(s, Visit(id, outcome, nonce))
    ensures Inv(Apply(s, Visit(id, outcome, nonce)))
  {
    assert CallOk(s, id);
    OthersStayOk(s, Apply(s, Visit(id, outcome, nonce)), id);
    VisitedCallOk(s, id, outcome, nonce);
    VisitKeepsToken(s, id, outcome, nonce);
  }

  lemma ReturnKeepsInv(s: State, id: nat, nonce: Nonce)
    requires Inv(s) && Enabled(s, Return(id, nonce))
    ensures Inv(Apply(s, Return(id, nonce)))
  {
    assert CallOk(s, id) && CallOk(s, s.calls[id].stage.child.value);
    OthersStayOk(s, Apply(s, Return(id, nonce)), id);
    ReturnedCallOk(s, id, nonce);
    TokensShrink(s, Apply(s, Return(id, nonce)), id);
  }

  lemma ReturnedCallOk(s: State, id: nat, nonce: Nonce)
    requires Enabled(s, Return(id, nonce)) && CallOk(s, id) && CallOk(s, s.calls[id].stage.child.value)
    ensures CallOk(Apply(s, Return(id, nonce)), id)
  {
    var j := s.calls[id].stage.child.value;
    assert IsChild(Apply(s, Return(id, nonce)), id, j);
    if s.calls[j].stage.reply.Failure? {
      FailuresAreNot200(s, j);
    }
  }

  /** No failing reply carries status 200, so a forwarding node never mistakes one for an answer. */
  lemma FailuresAreNot200(s: State, i: nat)
    requires i < |s.calls| && CallOk(s, i) && s.calls[i].stage.Finished? && s.calls[i].stage.reply.Failure?
    ensures s.calls[i].stage.reply.code in {400, 401, 502}
  {
  }

  lemma LoseKeepsInv(s: State, id: nat)
    requires Inv(s) && Enabled(s, Lose(id))
    ensures Inv(Apply(s, Lose(id)))
  {
    var t := Apply(s, Lose(id));
    assert CallOk(s, id);
    OthersStayOk(s, t, id);
    TokensShrink(s, t, id);
    assert CallOk(t, id);
  }

  lemma SendKeepsToken(s: State, addr: Addr, circuit: CircuitId, payload: Bytes)
    requires Inv(s) && Enabled(s, Send(addr, circuit, payload))
    ensures OneToken(Apply(s, Send(addr, circuit, payload)))
  {
    assert forall i :: 0 <= i < |s.calls| ==> CallOk(s, i) && s.calls[i].root < |s.calls|;
  }

  lemma SendKeepsInv(s: State, addr: Addr, circuit: CircuitId, payload: Bytes)
    requires Inv(s) && Enabled(s, Send(addr, circuit, payload))
    ensures Inv(Apply(s, Send(addr, circuit, payload)))
  {
    var t := Apply(s, Send(addr, circuit, payload));
    OthersStayOk(s, t, |s.calls|);
    SendKeepsToken(s, addr, circuit, payload);
    assert CallOk(t, |s.calls|);
  }

  lemma WriteKeyKeepsInv(s: State, addr: Addr, circuit: CircuitId, key: Key)
    requires Inv(s) && Enabled(s, WriteKey(addr, circuit, key))
    ensures Inv(Apply(s, WriteKey(addr, circuit, key)))
  {
    OthersStayOk(s, Apply(s, WriteKey(addr, circuit, key)), |s.calls|);
  }

  lemma StepKeepsInv(s: State, step: Step)
    requires Inv(s) && Enabled(s, step)
    ensures Inv(Apply(s, step))
  {
    match step
    case WriteKey(addr, circuit, key) => WriteKeyKeepsInv(s, addr, circuit, key);
    case Send(addr, circuit, payload) => SendKeepsInv(s, addr, circuit, payload);
    case Dispatch(id, delivered) => DispatchKeepsInv(s, id, delivered);
    case Visit(id, outcome, nonce) => VisitKeepsInv(s, id, outcome, nonce);
    case Return(id, nonce) => ReturnKeepsInv(s, id, nonce);
    case Lose(id) => LoseKeepsInv(s, id);
  }

  /** The invariant holds throughout every run of the network. */
  lemma {:induction false} RunsKeepInv(tr: seq<State>, steps: seq<Step>, n: nat)
    requires IsRun(tr, steps) && Inv(tr[0]) && n < |tr|
    ensures Inv(tr[n])
  {
    if n > 0 {
      RunsKeepInv(tr, steps, n - 1);
      assert Leads(tr, steps, n - 1);
      StepKeepsInv(tr[n - 1], steps[n - 1]);
    }
  }

  lemma InitIsInv(s: State)
    requires Init(s)
    ensures Inv(s)
  {
  }
}
