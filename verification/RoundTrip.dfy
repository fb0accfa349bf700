/**
 * The round trip of a send whose hops hold the client's keys while nobody overwrites them: it can
 * fail only by a loss or by the destination, and it can always be completed.
 */
module RoundTrip {
  import opened Wrappers
  import opened Wire
  import opened Keys
  import opened Handlers
  import opened DataPlane
  import opened Onion
  import opened EndToEnd

  /** Every hop of the path stores the client's key for the circuit. */
  ghost predicate Holds(stores: Stores, circuit: CircuitId, path: seq<Hop>) {
    forall k :: 0 <= k < |path| ==> HoldsAt(stores, circuit, path[k])
  }

  predicate HoldsAt(stores: Stores, circuit: CircuitId, hop: Hop) {
    hop.addr in stores && circuit in stores[hop.addr] && stores[hop.addr][circuit] == hop.key
  }

  /** The two networks hold the same keys for this circuit id, whatever they hold for others. */
  ghost predicate SameOnCircuit(a: Stores, b: Stores, circuit: CircuitId) {
    forall h: Hop :: HoldsAt(a, circuit, h) <==> HoldsAt(b, circuit, h)
  }

  /** Forwarding roles first, a role that carries requests out last. */
  ghost predicate RolesFit(roles: map<Addr, Role>, path: seq<Hop>) {
    forall k :: 0 <= k < |path| ==>
      && path[k].addr in roles
      && if k == |path| - 1 then !roles[path[k].addr].Relay? else !roles[path[k].addr].Exit?
  }

  /** The step does not change the key of any hop of the path for this circuit. */
  ghost predicate Spares(step: Step, circuit: CircuitId, path: seq<Hop>) {
    step.WriteKey? && step.circuit == circuit ==>
      forall k :: 0 <= k < |path| && path[k].addr == step.addr ==> path[k].key == step.key
  }

  /** A send as the client makes it. */
  ghost predicate Sendable(circuit: CircuitId, path: seq<Hop>, nonces: seq<Nonce>, e: ExitLayer, doc: Doc) {
    circuit != "" && GoodPath(path) && |path| <= |nonces| && GoodRequest(e) && Describes(doc, e)
  }

  function Planned(path: seq<Hop>, nonces: seq<Nonce>, e: ExitLayer, doc: Doc): Action
    requires 0 < |path| <= |nonces|
  {
    if |path| == 1 then Perform(path[0].key, e)
    else Forward(path[0].key, path[1].addr, Build(path[1..], nonces[1..], doc))
  }

  /** Every call of the send `r` is at the hop of its depth, with the rest of the onion, doing what was planned. */
  ghost predicate OnTrack(s: State, r: nat, circuit: CircuitId, path: seq<Hop>, nonces: seq<Nonce>, e: ExitLayer, doc: Doc)
    requires |path| <= |nonces|
  {
    forall i :: 0 <= i < |s.calls| && s.calls[i].root == r ==>
      CallOnTrack(s.calls[i], circuit, path, nonces, e, doc)
  }

  ghost predicate CallOnTrack(c: Call, circuit: CircuitId, path: seq<Hop>, nonces: seq<Nonce>, e: ExitLayer, doc: Doc)
    requires |path| <= |nonces|
  {
    && c.depth < |path| && c.circuit == circuit && c.addr == path[c.depth].addr
    && c.payload == Build(path[c.depth..], nonces[c.depth..], doc)
    && (!c.stage.Arrived? ==> c.stage.action == Planned(path[c.depth..], nonces[c.depth..], e, doc))
  }

  lemma GoodTail(path: seq<Hop>, k: nat)
    requires GoodPath(path) && k < |path|
    ensures GoodPath(path[k..])
  {
  }

  /** A node that holds its key decides as planned for its part of the onion. */
  lemma FirstHopAsPlanned(s: State, c: Call, circuit: CircuitId, path: seq<Hop>, nonces: seq<Nonce>, e: ExitLayer, doc: Doc)
    requires Sendable(circuit, path, nonces, e, doc)
    requires Holds(s.stores, circuit, path) && RolesFit(s.roles, path)
    requires c.addr == path[0].addr && c.circuit == circuit && c.payload == Build(path, nonces, doc)
    ensures c.addr in s.stores && Decide(s, c) == Planned(path, nonces, e, doc)
  {
    assert HoldsAt(s.stores, circuit, path[0]);
    FirstHopDispatch(s.roles[c.addr], path, nonces, e, doc);
  }

  /** A node on the path that holds its key decides as planned. */
  lemma DecidesAsPlanned(s: State, c: Call, circuit: CircuitId, path: seq<Hop>, nonces: seq<Nonce>, e: ExitLayer, doc: Doc)
    requires Sendable(circuit, path, nonces, e, doc)
    requires Holds(s.stores, circuit, path) && RolesFit(s.roles, path)
    requires c.stage.Arrived? && CallOnTrack(c, circuit, path, nonces, e, doc)
    ensures Decide(s, c) == Planned(path[c.depth..], nonces[c.depth..], e, doc)
  {
    var d := c.depth;
    GoodTail(path, d);
    assert HoldsAt(s.stores, circuit, path[d]);
    FirstHopDispatch(s.roles[c.addr], path[d..], nonces[d..], e, doc);
  }

  lemma {:induction false} DispatchStaysOnTrack(s: State, id: nat, delivered: bool, r: nat,
                             circuit: CircuitId, path: seq<Hop>, nonces: seq<Nonce>, e: ExitLayer, doc: Doc)
    requires Enabled(s, Dispatch(id, delivered)) && Sendable(circuit, path, nonces, e, doc)
    requires Holds(s.stores, circuit, path) && RolesFit(s.roles, path)
    requires OnTrack(s, r, circuit, path, nonces, e, doc)
    ensures OnTrack(Apply(s, Dispatch(id, delivered)), r, circuit, path, nonces, e, doc)
  {
    var c := s.calls[id];
    if c.root == r {
      DecidesAsPlanned(s, c, circuit, path, nonces, e, doc);
      assert path[c.depth..][1..] == path[c.depth + 1..] && nonces[c.depth..][1..] == nonces[c.depth + 1..];
    }
  }

  lemma {:induction false} StepStaysOnTrack(s: State, step: Step, r: nat,
                         circuit: CircuitId, path: seq<Hop>, nonces: seq<Nonce>, e: ExitLayer, doc: Doc)
    requires Enabled(s, step) && Spares(step, circuit, path) && Sendable(circuit, path, nonces, e, doc)
    requires r < |s.calls|
    requires Holds(s.stores, circuit, path) && RolesFit(s.roles, path)
    requires OnTrack(s, r, circuit, path, nonces, e, doc)
    ensures var t := Apply(s, step);
            && Holds(t.stores, circuit, path) && RolesFit(t.roles, path)
            && OnTrack(t, r, circuit, path, nonces, e, doc) && r < |t.calls|
  {
    var t := Apply(s, step);
    forall k | 0 <= k < |path|
      ensures HoldsAt(t.stores, circuit, path[k])
    {
      assert HoldsAt(s.stores, circuit, path[k]);
    }
    if step.Dispatch? {
      DispatchStaysOnTrack(s, step.id, step.delivered, r, circuit, path, nonces, e, doc);
    }
  }

  /** From the send on, the whole path stays in agreement and every call of the send stays on track. */
  lemma {:induction false} StaysOnTrack(tr: seq<State>, steps: seq<Step>, m: nat, n: nat,
                                        circuit: CircuitId, path: seq<Hop>, nonces: seq<Nonce>, e: ExitLayer, doc: Doc)
    requires IsRun(tr, steps) && m < n <= |steps| && Inv(tr[m])
    requires Sendable(circuit, path, nonces, e, doc)
    requires steps[m] == Send(path[0].addr, circuit, Build(path, nonces, doc))
    requires Holds(tr[m].stores, circuit, path) && RolesFit(tr[m].roles, path)
    requires forall j :: m <= j < |steps| ==> Spares(steps[j], circuit, path)
    ensures OnTrack(tr[n], |tr[m].calls|, circuit, path, nonces, e, doc)
    ensures |tr[m].calls| < |tr[n].calls| && Holds(tr[n].stores, circuit, path) && RolesFit(tr[n].roles, path)
  {
    var r := |tr[m].calls|;
    assert Leads(tr, steps, n - 1);
    if n == m + 1 {
      forall i | 0 <= i < r
        ensures tr[m].calls[i].root < r
      {
        assert CallOk(tr[m], i);
      }
      assert path[0..] == path && nonces[0..] == nonces;
      forall k | 0 <= k < |path|
        ensures HoldsAt(tr[n].stores, circuit, path[k])
      {
        assert HoldsAt(tr[m].stores, circuit, path[k]);
      }
    } else {
      StaysOnTrack(tr, steps, m, n - 1, circuit, path, nonces, e, doc);
      StepStaysOnTrack(tr[n - 1], steps[n - 1], r, circuit, path, nonces, e, doc);
    }
  }

  /** What can spoil a call on track: its forwarding or its reply was lost, or the destination failed. */
  predicate Spoiled(c: Call) {
    c.stage.Finished? && (c.stage.ending.Lost? || (c.stage.ending.Visited? && !c.stage.ending.outcome.Answer?))
  }

  /** Some call of the send was spoiled. */
  ghost predicate Troubled(s: State, r: nat) {
    exists j :: 0 <= j < |s.calls| && s.calls[j].root == r && Spoiled(s.calls[j])
  }

  /** The send returned 200, and its reply peels to what the destination answered to its request. */
  ghost predicate GotAnswer(s: State, r: nat, path: seq<Hop>, e: ExitLayer) {
    && Succeeded(s, r)
    && exists response ::
         && Effect(r, e, Answer(response)) in s.effects
         && PeelReply(KeysOf(path), s.calls[r].stage.reply.payload) == Ok(response)
  }

  lemma {:induction false} FailureHasCause(s: State, i: nat, circuit: CircuitId, path: seq<Hop>, nonces: seq<Nonce>, e: ExitLayer, doc: Doc)
    requires Inv(s) && Failed(s, i) && |path| <= |nonces|
    requires OnTrack(s, s.calls[i].root, circuit, path, nonces, e, doc)
    ensures Troubled(s, s.calls[i].root)
    decreases |s.calls| - i
  {
    assert CallOk(s, i);
    assert CallOnTrack(s.calls[i], circuit, path, nonces, e, doc);
    if s.calls[i].stage.ending.Returned? {
      FailureHasCause(s, s.calls[i].stage.ending.child, circuit, path, nonces, e, doc);
    } else {
      assert Spoiled(s.calls[i]);
    }
  }

  /** The client's call is there for good, with the onion it was sent with. */
  lemma SentCallStays(tr: seq<State>, steps: seq<Step>, m: nat, addr: Addr, circuit: CircuitId, payload: Bytes)
    requires IsRun(tr, steps) && m < |steps| && steps[m] == Send(addr, circuit, payload)
    ensures var r := |tr[m].calls|;
            r < |Last(tr).calls| && Last(tr).calls[r].root == r && Last(tr).calls[r].payload == payload
  {
    assert Leads(tr, steps, m);
    CallsStay(tr, steps, |tr[m].calls|, m + 1, |steps|);
  }

  /**
   * A send over hops that hold the client's keys, while nobody changes those keys, either returns
   * the destination's answer, or one of its own calls was lost, or the destination itself failed.
   */
  lemma SendOverHeldKeys(tr: seq<State>, steps: seq<Step>, s: State, m: nat,
                         circuit: CircuitId, path: seq<Hop>, nonces: seq<Nonce>, e: ExitLayer, doc: Doc)
    requires EndsIn(tr, steps, s) && m < |steps| && Sendable(circuit, path, nonces, e, doc)
    requires steps[m] == Send(path[0].addr, circuit, Build(path, nonces, doc))
    requires Holds(tr[m].stores, circuit, path) && RolesFit(tr[m].roles, path)
    requires forall j :: m <= j < |steps| ==> Spares(steps[j], circuit, path)
    ensures var r := |tr[m].calls|;
            && r < |s.calls| && s.calls[r].root == r
            && (s.calls[r].stage.Finished? ==> GotAnswer(s, r, path, e) || Troubled(s, r))
  {
    var r := |tr[m].calls|;
    SentCallStays(tr, steps, m, path[0].addr, circuit, Build(path, nonces, doc));
    InvOnTheWay(tr, steps, m);
    StaysOnTrack(tr, steps, m, |steps|, circuit, path, nonces, e, doc);
    if s.calls[r].stage.Finished? {
      EndsOneWay(tr, steps, s, r, circuit, path, nonces, e, doc);
    }
  }

  lemma InvOnTheWay(tr: seq<State>, steps: seq<Step>, m: nat)
    requires IsRun(tr, steps) && Init(tr[0]) && m <= |steps|
    ensures Inv(tr[m])
  {
    InitIsInv(tr[0]);
    RunsKeepInv(tr, steps, m);
  }

  /** A send that stayed on track, once finished, has its answer or a cause why not. */
  lemma EndsOneWay(tr: seq<State>, steps: seq<Step>, s: State, r: nat,
                   circuit: CircuitId, path: seq<Hop>, nonces: seq<Nonce>, e: ExitLayer, doc: Doc)
    requires EndsIn(tr, steps, s) && r < |s.calls| && s.calls[r].root == r && s.calls[r].stage.Finished?
    requires 0 < |path| <= |nonces| && Describes(doc, e) && s.calls[r].payload == Build(path, nonces, doc)
    requires OnTrack(s, r, circuit, path, nonces, e, doc)
    ensures GotAnswer(s, r, path, e) || Troubled(s, r)
  {
    EndStatesAreInv(tr, steps, s);
    if Failed(s, r) {
      FailureHasCause(s, r, circuit, path, nonces, e, doc);
    } else {
      NoMixUp(tr, steps, s, r, path, nonces, e, doc);
    }
  }

  /** Calls are never removed and keep the onion and the client call they serve. */
  lemma {:induction false} CallsStay(tr: seq<State>, steps: seq<Step>, i: nat, m: nat, n: nat)
    requires IsRun(tr, steps) && m <= n <= |steps| && i < |tr[m].calls|
    ensures i < |tr[n].calls|
    ensures tr[n].calls[i].root == tr[m].calls[i].root && tr[n].calls[i].payload == tr[m].calls[i].payload
  {
    if m < n {
      CallsStay(tr, steps, i, m, n - 1);
      assert Leads(tr, steps, n - 1);
    }
  }

  // ---- Completion ----------------------------------------------------------------------------

  ghost predicate Reaches(s: State, steps: seq<Step>, t: State)
    decreases |steps|
  {
    if steps == [] then s == t
    else Enabled(s, steps[0]) && Reaches(Apply(s, steps[0]), steps[1..], t)
  }

  lemma {:induction false} ReachesThen(s: State, a: seq<Step>, t: State, b: Step)
    requires Reaches(s, a, t) && Enabled(t, b)
    ensures Reaches(s, a + [b], Apply(t, b))
    decreases |a|
  {
    if a == [] {
      assert [b][1..] == [] && a + [b] == [b];
    } else {
      ReachesThen(Apply(s, a[0]), a[1..], t, b);
      assert (a + [b])[1..] == a[1..] + [b];
    }
  }

  /**
   * A call that has arrived with its part of the onion, where the rest of the path holds its keys,
   * can be completed with any answer of the destination, disturbing no other call.
   */
  lemma {:induction false} CanComplete(s: State, i: nat, circuit: CircuitId, path: seq<Hop>, nonces: seq<Nonce>,
                                       e: ExitLayer, doc: Doc, response: ExitResponse)
    returns (steps: seq<Step>, t: State)
    requires i < |s.calls| && s.calls[i].stage.Arrived?
    requires Sendable(circuit, path, nonces, e, doc) && Holds(s.stores, circuit, path) && RolesFit(s.roles, path)
    requires s.calls[i].addr == path[0].addr && s.calls[i].circuit == circuit
    requires s.calls[i].payload == Build(path, nonces, doc)
    ensures Reaches(s, steps, t) && Succeeded(t, i)
    ensures t.stores == s.stores && t.roles == s.roles
    ensures |s.calls| <= |t.calls| && forall k :: 0 <= k < |s.calls| && k != i ==> t.calls[k] == s.calls[k]
    ensures SealedAlong(KeysOf(path), t.calls[i].stage.reply.payload, Text(ResponseDoc(response)))
    decreases |path|
  {
    TailsOf(path);
    FirstHopAsPlanned(s, s.calls[i], circuit, path, nonces, e, doc);
    if |path| == 1 {
      t := CompleteLast(s, i, path[0].key, e, response);
      steps := [Dispatch(i, true), Visit(i, Answer(response), [])];
      assert SealedAlong(KeysOf(path)[1..], t.calls[i].stage.reply.payload.plain, Text(ResponseDoc(response)));
    } else {
      var s1 := Apply(s, Dispatch(i, true));
      HoldsTail(s1.stores, circuit, path);
      GoodTail(path, 1);
      var rest, t1 := CanComplete(s1, |s.calls|, circuit, path[1..], nonces[1..], e, doc, response);
      assert t1.calls[i] == s1.calls[i];
      t := Apply(t1, Return(i, []));
      ReachesThen(s1, rest, t1, Return(i, []));
      steps := [Dispatch(i, true)] + (rest + [Return(i, [])]);
      assert steps[1..] == rest + [Return(i, [])];
    }
  }

  lemma HoldsTail(stores: Stores, circuit: CircuitId, path: seq<Hop>)
    requires |path| > 0 && Holds(stores, circuit, path)
    ensures Holds(stores, circuit, path[1..])
  {
  }

  /** The last hop carries the request out in two steps. */
  lemma CompleteLast(s: State, i: nat, key: Key, e: ExitLayer, response: ExitResponse) returns (t: State)
    requires i < |s.calls| && s.calls[i].stage.Arrived? && s.calls[i].addr in s.roles && s.calls[i].addr in s.stores
    requires IsAesKey(key) && Decide(s, s.calls[i]) == Perform(key, e)
    ensures Reaches(s, [Dispatch(i, true), Visit(i, Answer(response), [])], t)
    ensures Succeeded(t, i) && SealedUnder(t.calls[i].stage.reply.payload, key, Text(ResponseDoc(response)))
    ensures t.stores == s.stores && t.roles == s.roles
    ensures |s.calls| == |t.calls| && forall k :: 0 <= k < |s.calls| && k != i ==> t.calls[k] == s.calls[k]
  {
    var steps := [Dispatch(i, true), Visit(i, Answer(response), [])];
    t := Apply(Apply(s, steps[0]), steps[1]);
    assert steps[1..] == [steps[1]] && steps[1..][1..] == [];
  }
}
