/** The Go client's background health check: poll, set up a new circuit under the same id, commit. */
module HealthCheck {
  import opened Wrappers
  import opened Wire
  import opened Keys
  import opened DataPlane
  import opened Onion
  import opened RoundTrip
  import opened Circuits

  datatype Nodes = Nodes(guard: seq<NodeRecord>, relay: seq<NodeRecord>, exit: seq<NodeRecord>)

  /**
   * What one round meets: key writes that take effect before it sets up, the poll, the directory's
   * circuit, the keys it draws, and the fates of its POSTs.
   */
  datatype Round = Round(
    meanwhile: seq<Write>, poll: Result<Nodes, string>, dir: DirReply, keys: SessionKeys, fates: seq<Fate>)

  datatype Snapshot = Snapshot(circuit: Option<Circuit>, keys: SessionKeys, circuitID: CircuitId, hops: int, ready: bool)

  function IDs(nodes: seq<NodeRecord>): set<string> { set n | n in nodes :: n.nodeID }

  function HealthyIDs(nodes: Nodes): set<string> { IDs(nodes.guard) + IDs(nodes.relay) + IDs(nodes.exit) }

  function CurrentIDs(circuit: Circuit, hops: int): set<string> {
    {circuit.guard.nodeID} + if hops == 3 then {circuit.relay.nodeID, circuit.exit.nodeID} else {}
  }

  predicate NeedsRebuild(v: Snapshot, round: Round) {
    && v.ready && v.circuit.Some? && round.poll.Ok?
    && !(CurrentIDs(v.circuit.value, v.hops) <= HealthyIDs(round.poll.value))
  }

  /** The round gets as far as setting up keys; at an odd hop count the directory call already fails. */
  predicate SetsUp(v: Snapshot, round: Round) {
    NeedsRebuild(v, round) && GetCircuitWithHops(round.dir, v.hops).Ok?
  }

  function NewCandidates(v: Snapshot, round: Round): seq<Candidate>
    requires SetsUp(v, round)
  {
    Candidates(round.dir.circuit, round.keys, v.hops)
  }

  predicate Commits(v: Snapshot, round: Round)
    requires |round.fates| >= 3
  {
    SetsUp(v, round) && SetupError(v.circuitID, NewCandidates(v, round), round.fates).None?
  }

  class CircuitState {
    var circuit: Option<Circuit>
    var guardKey: Key
    var relayKey: Key
    var exitKey: Key
    var circuitID: CircuitId
    var hops: int
    var ready: bool

    constructor (v: Snapshot)
      ensures Value() == v
    {
      circuit, circuitID, hops, ready := v.circuit, v.circuitID, v.hops, v.ready;
      guardKey, relayKey, exitKey := v.keys.guard, v.keys.relay, v.keys.exit;
    }

    ghost function Value(): Snapshot
      reads this
    {
      Snapshot(circuit, SessionKeys(guardKey, relayKey, exitKey), circuitID, hops, ready)
    }

    method CheckAndRebuild(net: Network, round: Round)
      requires |round.fates| >= 3
      modifies this, net
      ensures net.stores == Replay(old(net.stores), RoundWrites(old(Value()), round))
      ensures Value() == Commit(old(Value()), round)
    {
      ghost var v := Value();
      RoundInTwo(net.stores, v, round);
      net.Apply(round.meanwhile);
      if !ready || circuit.None? {
        return;
      }
      var currentIDs := {circuit.value.guard.nodeID};
      if hops == 3 {
        currentIDs := currentIDs + {circuit.value.relay.nodeID} + {circuit.value.exit.nodeID};
      }
      var usedHops, usedID := hops, circuitID;
      if round.poll.Err? {
        return;
      }
      var missing := AnyMissing(currentIDs, round.poll.value);
      if !missing {
        return;
      }
      Rebuild(net, round, usedHops, usedID);
    }

    /** The second half: a new circuit, its keys, and only then the state. */
    method Rebuild(net: Network, round: Round, usedHops: int, usedID: CircuitId)
      requires |round.fates| >= 3 && usedHops == hops && usedID == circuitID && NeedsRebuild(Value(), round)
      modifies this, net
      ensures net.stores == (if SetsUp(old(Value()), round)
                             then Replay(old(net.stores), SetupWrites(usedID, NewCandidates(old(Value()), round), round.fates))
                             else old(net.stores))
      ensures Value() == Commit(old(Value()), round)
    {
      var fetched := GetCircuitWithHops(round.dir, usedHops);
      if fetched.Err? {
        return;
      }
      var keys := net.SetupCircuitWithHops(usedID, fetched.value, usedHops, round.keys, round.fates);
      if keys.Err? {
        return;
      }
      circuit := Some(fetched.value);
      guardKey, relayKey, exitKey := keys.value.guard, keys.value.relay, keys.value.exit;
      ready := true;
    }
  }

  /** The node is among those the poll lists as healthy. */
  predicate Listed(nodeID: string, nodes: Nodes) {
    || (exists n :: n in nodes.guard && n.nodeID == nodeID)
    || (exists n :: n in nodes.relay && n.nodeID == nodeID)
    || (exists n :: n in nodes.exit && n.nodeID == nodeID)
  }

  /** Every hop of the circuit in use is listed. */
  ghost predicate AllListed(cands: seq<Candidate>, nodes: Nodes) {
    forall i :: 0 <= i < |cands| ==> Listed(cands[i].node.nodeID, nodes)
  }

  /**
   * When a round rebuilds: the state is ready and has a circuit, the poll arrived, and some hop in
   * use is on none of its three lists. It commits exactly if then the directory offers a circuit
   * whose every hop opens its key.
   */
  lemma RebuildsWhen(v: Snapshot, round: Round)
    requires |round.fates| >= 3 && ValidHops(v.hops)
    ensures NeedsRebuild(v, round) <==>
            && v.ready && v.circuit.Some? && round.poll.Ok?
            && !AllListed(Candidates(v.circuit.value, v.keys, v.hops), round.poll.value)
    ensures Commits(v, round) <==>
            && NeedsRebuild(v, round) && GetCircuitWithHops(round.dir, v.hops).Ok?
            && forall i :: 0 <= i < |Candidates(round.dir.circuit, round.keys, v.hops)| ==>
                 Opened(v.circuitID, Candidates(round.dir.circuit, round.keys, v.hops)[i], round.fates[i])
  {
    if v.circuit.Some? && round.poll.Ok? {
      CurrentAreCandidates(v.circuit.value, v.keys, v.hops, round.poll.value);
    }
    if SetsUp(v, round) {
      SetupErrorMeans(v.circuitID, NewCandidates(v, round), round.fates);
    }
  }

  lemma CurrentAreCandidates(circuit: Circuit, keys: SessionKeys, hops: int, nodes: Nodes)
    requires ValidHops(hops)
    ensures CurrentIDs(circuit, hops) <= HealthyIDs(nodes) <==> AllListed(Candidates(circuit, keys, hops), nodes)
  {
    var cands := Candidates(circuit, keys, hops);
    forall id
      ensures id in HealthyIDs(nodes) <==> Listed(id, nodes)
    {
    }
    assert cands[0].node == circuit.guard;
    assert hops == 3 ==> cands[1].node == circuit.relay && cands[2].node == circuit.exit;
    assert forall i :: 0 <= i < |cands| ==> cands[i].node.nodeID in CurrentIDs(circuit, hops);
    if AllListed(cands, nodes) {
      assert Listed(cands[0].node.nodeID, nodes);
      assert hops == 3 ==> Listed(cands[1].node.nodeID, nodes) && Listed(cands[2].node.nodeID, nodes);
    }
  }

  function DrawnKeys(keys: SessionKeys, hops: int): SessionKeys {
    if hops == 1 then SessionKeys(keys.guard, [], []) else keys
  }

  method AddIDs(ids: set<string>, nodes: seq<NodeRecord>) returns (r: set<string>)
    ensures r == ids + IDs(nodes)
  {
    r := ids;
    for i := 0 to |nodes|
      invariant r == ids + IDs(nodes[..i])
    {
      assert nodes[..i + 1] == nodes[..i] + [nodes[i]];
      r := r + {nodes[i].nodeID};
    }
    assert nodes[..|nodes|] == nodes;
  }

  method AnyMissing(currentIDs: set<string>, nodes: Nodes) returns (missing: bool)
    ensures missing <==> !(currentIDs <= HealthyIDs(nodes))
  {
    var healthyIDs := AddIDs({}, nodes.guard);
    healthyIDs := AddIDs(healthyIDs, nodes.relay);
    healthyIDs := AddIDs(healthyIDs, nodes.exit);
    assert healthyIDs == HealthyIDs(nodes);
    missing := FindMissing(currentIDs, healthyIDs);
  }

  /** Go iterates over the map in some order and stops at the first id that is not healthy. */
  method FindMissing(current: set<string>, healthy: set<string>) returns (missing: bool)
    ensures missing <==> !(current <= healthy)
  {
    var todo := current;
    missing := false;
    while todo != {} && !missing
      invariant todo <= current
      invariant missing <==> !(current - todo <= healthy)
      decreases todo
    {
      var id :| id in todo;
      todo := todo - {id};
      missing := id !in healthy;
    }
  }

  // ---- Agreement over rounds -----------------------------------------------------------------

  ghost predicate Agrees(v: Snapshot, stores: Stores) {
    v.circuit.Some? && AllHeld(stores, v.circuitID, Candidates(v.circuit.value, v.keys, v.hops))
  }

  function Commit(v: Snapshot, round: Round): Snapshot
    requires |round.fates| >= 3
  {
    if Commits(v, round) then v.(circuit := Some(round.dir.circuit), keys := DrawnKeys(round.keys, v.hops)) else v
  }

  /** All writes of a round, the checker's own and others. */
  function RoundWrites(v: Snapshot, round: Round): seq<Write>
    requires |round.fates| >= 3
  {
    round.meanwhile + if SetsUp(v, round) then SetupWrites(v.circuitID, NewCandidates(v, round), round.fates) else []
  }

  lemma RoundInTwo(stores: Stores, v: Snapshot, round: Round)
    requires |round.fates| >= 3
    ensures Replay(stores, RoundWrites(v, round)) ==
            var before := Replay(stores, round.meanwhile);
            if SetsUp(v, round) then Replay(before, SetupWrites(v.circuitID, NewCandidates(v, round), round.fates)) else before
  {
    assert round.meanwhile + [] == round.meanwhile;
    if SetsUp(v, round) {
      ReplayAppend(stores, round.meanwhile, SetupWrites(v.circuitID, NewCandidates(v, round), round.fates));
    }
  }

  /** In this round some key landed at a node of the current circuit, under the circuit's id. */
  predicate Touches(v: Snapshot, round: Round)
    requires |round.fates| >= 3 && v.circuit.Some?
  {
    exists i | 0 <= i < |Candidates(v.circuit.value, v.keys, v.hops)| ::
      LastKey(RoundWrites(v, round), v.circuitID, AddrOf(Candidates(v.circuit.value, v.keys, v.hops)[i].node)).Some?
  }

  /**
   * The keys a round draws are new: unlike each other, unlike the keys in use, unlike any key others
   * write; and no other write carries a key in use, each of which landed once, when it was set up.
   */
  ghost predicate Fresh(v: Snapshot, round: Round) {
    && round.keys.guard != round.keys.relay && round.keys.relay != round.keys.exit && round.keys.exit != round.keys.guard
    && KeySet(round.keys) !! KeySet(v.keys)
    && Foreign(round.meanwhile, KeySet(v.keys))
    && forall j :: 0 <= j < |round.fates| ==> Foreign(round.fates[j].meanwhile, KeySet(v.keys) + KeySet(round.keys))
  }

  function KeySet(keys: SessionKeys): set<Key> { {keys.guard, keys.relay, keys.exit} }

  ghost predicate Foreign(ws: seq<Write>, keys: set<Key>) { forall w :: w in ws ==> w.key !in keys }

  lemma DrawnKeysAreFresh(v: Snapshot, round: Round)
    requires |round.fates| >= 3 && SetsUp(v, round) && Fresh(v, round)
    ensures FreshKeys(NewCandidates(v, round), round.fates)
  {
    var cands := NewCandidates(v, round);
    forall i, j, w | 0 <= i < |cands| && 0 <= j < |cands| && w in round.fates[j].meanwhile
      ensures w.key != cands[i].key
    {
      assert cands[i].key in KeySet(round.keys);
    }
  }

  /**
   * A committed circuit and its keys come from one setup. They agree just when its addresses differ
   * and no POST given up earlier landed at one of its nodes after the node's own.
   */
  lemma CommitRestoresAgreement(v: Snapshot, stores: Stores, round: Round)
    requires |round.fates| >= 3 && Commits(v, round) && Fresh(v, round)
    ensures Agrees(Commit(v, round), Replay(stores, RoundWrites(v, round))) <==>
            DistinctAddresses(NewCandidates(v, round)) && NoneLate(v.circuitID, NewCandidates(v, round), round.fates)
    ensures Commit(v, round).circuit == Some(round.dir.circuit)
    ensures Candidates(round.dir.circuit, Commit(v, round).keys, v.hops) == NewCandidates(v, round)
    ensures v.hops == 1 ==> Commit(v, round).keys.relay == Commit(v, round).keys.exit == []
  {
    var cands := NewCandidates(v, round);
    RoundInTwo(stores, v, round);
    SetupAgreement(Replay(stores, round.meanwhile), v.circuitID, cands, round.fates);
    DrawnKeysAreFresh(v, round);
    FreshLasts(v.circuitID, cands, round.fates);
    assert Candidates(round.dir.circuit, DrawnKeys(round.keys, v.hops), v.hops) == cands;
  }

  /** No write of a round carries a key in use. */
  lemma RoundWritesAreNew(v: Snapshot, round: Round, w: Write)
    requires |round.fates| >= 3 && Fresh(v, round) && w in RoundWrites(v, round)
    ensures w.key !in KeySet(v.keys)
  {
    if w !in round.meanwhile {
      SetupWritesAreNew(v, round, w);
    }
  }

  lemma SetupWritesAreNew(v: Snapshot, round: Round, w: Write)
    requires |round.fates| >= 3 && SetsUp(v, round) && Fresh(v, round)
    requires w in SetupWrites(v.circuitID, NewCandidates(v, round), round.fates)
    ensures w.key !in KeySet(v.keys)
  {
    var cands := NewCandidates(v, round);
    SetupWritesAre(v.circuitID, cands, round.fates, w);
    var j :| FromHop(v.circuitID, cands, round.fates, j, w);
    if w in round.fates[j].meanwhile {
      assert Foreign(round.fates[j].meanwhile, KeySet(v.keys) + KeySet(round.keys));
    } else {
      assert cands[j].key in KeySet(round.keys);
    }
  }

  /**
   * A round that does not commit leaves the circuit as it was, and keeps its agreement exactly when
   * nothing landed at a node of that circuit: no key of its own failed setup, no POST given up
   * earlier. What was overwritten is not undone.
   */
  lemma FailureKeepsAgreementExactly(v: Snapshot, stores: Stores, round: Round)
    requires |round.fates| >= 3 && v.circuit.Some? && !Commits(v, round) && Fresh(v, round)
    ensures Commit(v, round) == v
    ensures Agrees(v, Replay(stores, RoundWrites(v, round))) <==> Agrees(v, stores) && !Touches(v, round)
  {
    var mine, ws := Candidates(v.circuit.value, v.keys, v.hops), RoundWrites(v, round);
    forall i | 0 <= i < |mine|
      ensures HoldsAt(Replay(stores, ws), v.circuitID, HopOf(mine[i])) <==>
              LastKey(ws, v.circuitID, AddrOf(mine[i].node)).None? && HoldsAt(stores, v.circuitID, HopOf(mine[i]))
    {
      var addr := AddrOf(mine[i].node);
      ReplayHolds(stores, ws, v.circuitID, HopOf(mine[i]));
      LastKeyIsWritten(ws, v.circuitID, addr);
      if LastKey(ws, v.circuitID, addr).Some? {
        RoundWritesAreNew(v, round, Write(addr, v.circuitID, LastKey(ws, v.circuitID, addr).value));
      }
    }
  }

  /** A circuit of nodes `g`, `r` and `x` in use when `r` fails, and a round that replaces `r` by `s`. */
  function InUse(id: CircuitId, keys: SessionKeys): Snapshot {
    Snapshot(Some(ThreeNodes()), keys, id, 3, true)
  }

  function Replacing(keys: SessionKeys): Round {
    Round([], Ok(Nodes([NodeAt("g", "g", 80)], [NodeAt("s", "s", 80)], [NodeAt("x", "x", 80)])),
          DirAnswers(Circuit(NodeAt("g", "g", 80), NodeAt("s", "s", 80), NodeAt("x", "x", 80))), keys,
          [Succeeds([]), Fate(TurnedAway("503"), []), Succeeds([])])
  }

  /** The failing input: the old guard takes the new key, the new relay refuses, and nothing is committed. */
  lemma FailedRebuildCanBreakAgreement(stores: Stores, id: CircuitId, used: SessionKeys, keys: SessionKeys)
    requires id != "" && forall k :: k in KeySet(used) + KeySet(keys) ==> |k| == KEY_SIZE
    requires Fresh(InUse(id, used), Replacing(keys))
    ensures !Commits(InUse(id, used), Replacing(keys))
    ensures !Agrees(InUse(id, used), Replay(stores, RoundWrites(InUse(id, used), Replacing(keys))))
  {
    var v, round := InUse(id, used), Replacing(keys);
    SecondPostFails(id, used, keys);
    var w := OwnWrite(NewCandidates(v, round)[0], id);
    LastKeyIsWritten(RoundWrites(v, round), id, w.addr);
    assert WritesAt(w, id, AddrOf(Candidates(v.circuit.value, v.keys, 3)[0].node));
    assert Touches(v, round);
    FailureKeepsAgreementExactly(v, stores, round);
  }

  lemma SecondPostFails(id: CircuitId, used: SessionKeys, keys: SessionKeys)
    requires id != "" && |keys.guard| == KEY_SIZE
    ensures var v, round := InUse(id, used), Replacing(keys);
            && SetsUp(v, round) && !Commits(v, round)
            && OwnWrite(NewCandidates(v, round)[0], id) in RoundWrites(v, round)
  {
    var v, round := InUse(id, used), Replacing(keys);
    assert "r" in CurrentIDs(v.circuit.value, 3) && "r" !in HealthyIDs(round.poll.value);
    var cands := NewCandidates(v, round);
    assert SetupError(id, cands[1..], round.fates[1..]).Some?;
    assert OwnWrite(cands[0], id) in PostWrites(id, cands[0], round.fates[0]);
  }

  /**
   * Whether the checker's circuit is in agreement after a round: if it commits, as the new circuit's
   * addresses and late landings have it; if not, as before, unless a node of it was touched.
   */
  ghost predicate IntactAfter(v: Snapshot, round: Round, before: bool)
    requires |round.fates| >= 3 && v.circuit.Some?
  {
    if Commits(v, round)
    then DistinctAddresses(NewCandidates(v, round)) && NoneLate(v.circuitID, NewCandidates(v, round), round.fates)
    else before && !Touches(v, round)
  }

  lemma RoundAgreement(v: Snapshot, stores: Stores, round: Round)
    requires |round.fates| >= 3 && v.circuit.Some? && Fresh(v, round)
    ensures Agrees(Commit(v, round), Replay(stores, RoundWrites(v, round))) <==> IntactAfter(v, round, Agrees(v, stores))
  {
    if Commits(v, round) {
      CommitRestoresAgreement(v, stores, round);
    } else {
      FailureKeepsAgreementExactly(v, stores, round);
    }
  }

  /** States of the checker and of the nodes' key stores, before the first round and after each. */
  ghost predicate IsRounds(vs: seq<Snapshot>, sts: seq<Stores>, rounds: seq<Round>) {
    && |vs| == |sts| == |rounds| + 1 && vs[0].circuit.Some?
    && forall i {:trigger RoundLeads(vs, sts, rounds, i)} :: 0 <= i < |rounds| ==> RoundLeads(vs, sts, rounds, i)
  }

  /** Round `i` draws fresh keys and does what a round does. */
  ghost predicate RoundLeads(vs: seq<Snapshot>, sts: seq<Stores>, rounds: seq<Round>, i: nat)
    requires |vs| == |sts| == |rounds| + 1 && i < |rounds|
  {
    && |rounds[i].fates| >= 3 && Fresh(vs[i], rounds[i])
    && vs[i + 1] == Commit(vs[i], rounds[i]) && sts[i + 1] == Replay(sts[i], RoundWrites(vs[i], rounds[i]))
  }

  /** Whether a round leaves agreement behind, given whether it found it; false of what is no round. */
  ghost predicate KeepsIntact(v: Snapshot, round: Round, before: bool) {
    |round.fates| >= 3 && v.circuit.Some? && IntactAfter(v, round, before)
  }

  lemma OneMoreRound(vs: seq<Snapshot>, sts: seq<Stores>, rounds: seq<Round>, i: nat)
    requires IsRounds(vs, sts, rounds) && i < |rounds| && vs[i].circuit.Some?
    ensures vs[i + 1].circuit.Some?
    ensures Agrees(vs[i + 1], sts[i + 1]) <==> KeepsIntact(vs[i], rounds[i], Agrees(vs[i], sts[i]))
  {
    assert RoundLeads(vs, sts, rounds, i);
    RoundAgreement(vs[i], sts[i], rounds[i]);
  }

  /**
   * Read off the rounds alone: the last committed circuit had distinct addresses, nothing landed late
   * in its setup, and it was not touched since.
   */
  ghost predicate Intact(vs: seq<Snapshot>, rounds: seq<Round>, n: nat, atStart: bool)
    requires n <= |rounds| < |vs|
  {
    if n == 0 then atStart else KeepsIntact(vs[n - 1], rounds[n - 1], Intact(vs, rounds, n - 1, atStart))
  }

  /** Over any sequence of rounds, the checker's circuit agrees with the nodes exactly when it is intact. */
  lemma {:induction false} AgreementOverRounds(vs: seq<Snapshot>, sts: seq<Stores>, rounds: seq<Round>, n: nat)
    requires IsRounds(vs, sts, rounds) && n <= |rounds|
    ensures vs[n].circuit.Some?
    ensures Agrees(vs[n], sts[n]) <==> Intact(vs, rounds, n, Agrees(vs[0], sts[0]))
  {
    if n > 0 {
      AgreementOverRounds(vs, sts, rounds, n - 1);
      OneMoreRound(vs, sts, rounds, n - 1);
    }
  }
}
