/**
 * The load generator's long-lived user: every rebuild forgets the old keys first and takes a fresh
 * circuit id, and a polling thread may ask for a rebuild through a flag.
 */
module PythonUser {
  import opened Wrappers
  import opened Wire
  import opened Keys
  import opened DataPlane
  import opened Onion
  import opened RoundTrip
  import opened Circuits

  /** What one poll of the directory brings: the healthy ids, or nothing if it fails. */
  type Poll = Option<set<string>>

  /** Some poll that reached the directory missed one of the nodes. */
  predicate SomeMiss(ids: set<string>, ps: seq<Poll>) {
    exists p :: p in ps && p.Some? && !(ids <= p.value)
  }

  /** These are the ids of the hops' nodes, all of them and no other. */
  ghost predicate AreIDsOf(ids: set<string>, cands: seq<Candidate>) {
    && (forall i :: 0 <= i < |cands| ==> cands[i].node.nodeID in ids)
    && (forall id :: id in ids ==> exists i :: 0 <= i < |cands| && cands[i].node.nodeID == id)
  }

  /** The flag protocol between the polling thread and the user; every method holds the lock throughout. */
  class HealthChecker {
    var currentNodeIDs: set<string>
    var needsRebuild: bool
    ghost var polls: seq<set<string>>  // healthy ids of the polls since the nodes were last set

    /** The flag is up exactly when some poll since the nodes were set missed one of them. */
    ghost predicate Valid()
      reads this
    {
      needsRebuild <==> exists i :: 0 <= i < |polls| && !(currentNodeIDs <= polls[i])
    }

    constructor ()
      ensures Valid() && currentNodeIDs == {} && !needsRebuild && polls == []
    {
      currentNodeIDs, needsRebuild, polls := {}, false, [];
    }

    method SetCircuitNodes(ids: set<string>)
      modifies this
      ensures Valid() && currentNodeIDs == ids && !needsRebuild && polls == []
    {
      currentNodeIDs, needsRebuild, polls := ids, false, [];
    }

    /** One poll that reached the directory; a failed poll changes nothing. */
    method Poll(healthy: Poll)
      requires Valid()
      modifies this
      ensures Valid() && currentNodeIDs == old(currentNodeIDs)
      ensures polls == old(polls) + (if healthy.Some? then [healthy.value] else [])
      ensures needsRebuild == (old(needsRebuild) || (healthy.Some? && !(currentNodeIDs <= healthy.value)))
    {
      if healthy.None? {
        return;
      }
      if currentNodeIDs != {} && !(currentNodeIDs <= healthy.value) {
        needsRebuild := true;
      }
      polls := polls + [healthy.value];
      assert polls[|old(polls)|] == healthy.value;
      assert forall i :: 0 <= i < |old(polls)| ==> polls[i] == old(polls)[i];
    }

    /** The polls that come while the user is busy with something else. */
    method PollAll(ps: seq<Poll>)
      requires Valid()
      modifies this
      ensures Valid() && currentNodeIDs == old(currentNodeIDs)
      ensures needsRebuild == (old(needsRebuild) || SomeMiss(currentNodeIDs, ps))
    {
      for i := 0 to |ps|
        invariant Valid() && currentNodeIDs == old(currentNodeIDs)
        invariant needsRebuild == (old(needsRebuild) || SomeMiss(currentNodeIDs, ps[..i]))
      {
        Poll(ps[i]);
        assert ps[..i + 1] == ps[..i] + [ps[i]];
      }
      assert ps[..|ps|] == ps;
    }
  }

  datatype Status = SuccessRow | RebuildFailed | FailedRebuilt | FailedRebuildFailed

  /** The moment an onion left: the nodes' keys, and the circuit id and path it was built for. */
  datatype Sent = Sent(stores: Stores, id: CircuitId, path: seq<Hop>)

  /** The onion was built for a path whose nodes hold its keys, just when equal addresses share a key. */
  ghost predicate LeftAgreed(onion: Bytes, under: Sent, nonces: seq<Nonce>, e: ExitLayer) {
    && 0 < |under.path| <= |nonces| && onion == Build(under.path, nonces, PythonExitDoc(e))
    && (Holds(under.stores, under.id, under.path) <==> OneKeyPerAddr(under.path))
  }

  /** An onion left and a reply came that its keys peel. */
  ghost predicate Peels(sent: Option<Bytes>, under: Sent, reply: Option<Bytes>) {
    sent.Some? && reply.Some? && PythonPeel(KeysOf(under.path), reply.value).Some?
  }

  datatype Row = Row(status: Status, circuitRebuilt: bool)

  /** What a rebuild meets: the directory, a new id, new keys, the fates of its POSTs, and polls in the meantime. */
  datatype Rebuild = Rebuild(dir: DirReply, newID: CircuitId, keys: SessionKeys, fates: seq<Fate>, polls: seq<Poll>)

  /** The writes are none of this circuit id's. */
  predicate Spared(ws: seq<Write>, id: CircuitId) {
    forall w :: w in ws ==> w.circuit != id
  }

  /** The rebuild's setup has no error. */
  predicate Works(r: Rebuild, hops: int)
    requires |r.fates| >= 3
  {
    && GetCircuitWithHops(r.dir, hops).Ok?
    && SetupError(r.newID, Candidates(r.dir.circuit, r.keys, hops), r.fates).None?
  }

  /** Ids are fresh: if all POSTs under the new id succeed, none is left to land late, and no other user has it. */
  ghost predicate GoodRebuild(r: Rebuild, hops: int) {
    && |r.fates| >= 3
    && (Works(r, hops) ==> Quiet(r.newID, Candidates(r.dir.circuit, r.keys, hops), r.fates))
  }

  /** The rows all users share, appended to under a lock. */
  class CsvLog {
    var rows: seq<Row>

    constructor ()
      ensures rows == []
    {
      rows := [];
    }

    method Add(row: Row)
      modifies this
      ensures rows == old(rows) + [row]
    {
      rows := rows + [row];
    }
  }

  class FailureRecoveryUser {
    const hops: int
    var circuit: Option<Circuit>
    var circuitID: CircuitId
    var guardKey: Option<Key>
    var relayKey: Option<Key>
    var exitKey: Option<Key>
    var checker: HealthChecker?

    constructor (hops: int, id: CircuitId)
      ensures this.hops == hops && circuit.None? && circuitID == id && NoKeys() && checker == null
    {
      this.hops := hops;
      circuit, circuitID, guardKey, relayKey, exitKey, checker := None, id, None, None, None, null;
    }

    predicate NoKeys()
      reads this
    {
      guardKey.None? && relayKey.None? && exitKey.None?
    }

    function HeldKeys(): SessionKeys
      reads this
      requires guardKey.Some?
    {
      SessionKeys(guardKey.value, if relayKey.Some? then relayKey.value else [], if exitKey.Some? then exitKey.value else [])
    }

    /**
     * Keys, when there are any, are those set up for the stored circuit under the stored id: the
     * nodes hold them, just when hops that share an address share a key.
     */
    ghost predicate Agreement(stores: Stores)
      reads this
    {
      if guardKey.None? then NoKeys()
      else
        && ValidHops(hops) && circuit.Some? && (relayKey.Some? <==> hops == 3) && (exitKey.Some? <==> hops == 3)
        && var cands := Candidates(circuit.value, HeldKeys(), hops);
           AllHeld(stores, circuitID, cands) <==> KeysAgreeByAddress(cands)
    }

    /** Fetch a circuit, take a new id, exchange keys; `raised` stands for an exception on the way. */
    method SetupCircuit(net: Network, r: Rebuild) returns (raised: bool)
      requires GoodRebuild(r, hops) && NoKeys()
      modifies net, `circuit, `circuitID, `guardKey, `relayKey, `exitKey
      ensures Agreement(net.stores)
      ensures raised <==> guardKey.None?
      ensures raised <==> !Works(r, hops)
      ensures !raised ==> circuitID == r.newID && circuit == Some(r.dir.circuit)
    {
      var fetched := GetCircuitWithHops(r.dir, hops);
      if fetched.Err? {
        return true;
      }
      circuit := Some(fetched.value);
      circuitID := r.newID;
      var keys := ExchangeKeys(net, fetched.value, r);
      if keys.None? {
        return true;
      }
      guardKey := Some(keys.value.guard);
      if hops == 3 {
        relayKey, exitKey := Some(keys.value.relay), Some(keys.value.exit);
      }
      assert HeldKeys() == if hops == 3 then r.keys else SessionKeys(r.keys.guard, [], []);
      assert Candidates(circuit.value, HeldKeys(), hops) == Candidates(fetched.value, r.keys, hops);
      raised := false;
    }

    /** setup_circuit: one POST after another, other writes in between, the first failure raising. */
    method ExchangeKeys(net: Network, circuit: Circuit, r: Rebuild) returns (keys: Option<SessionKeys>)
      requires |r.fates| >= 3
      modifies net
      ensures var cands := Candidates(circuit, r.keys, hops);
              && keys == (if SetupError(r.newID, cands, r.fates).None? then Some(r.keys) else None)
              && net.stores == Replay(old(net.stores), SetupWrites(r.newID, cands, r.fates))
              && (keys.Some? && Quiet(r.newID, cands, r.fates) ==>
                    (AllHeld(net.stores, r.newID, cands) <==> KeysAgreeByAddress(cands)))
    {
      var cands := [Candidate(circuit.guard, r.keys.guard)];
      if hops == 3 {
        cands := cands + [Candidate(circuit.relay, r.keys.relay), Candidate(circuit.exit, r.keys.exit)];
      }
      assert cands == Candidates(circuit, r.keys, hops);
      ghost var before := net.stores;
      for i := 0 to |cands|
        invariant SetupError(r.newID, cands[i..], r.fates[i..]) == SetupError(r.newID, cands, r.fates)
        invariant Replay(net.stores, SetupWrites(r.newID, cands[i..], r.fates[i..]))
               == Replay(before, SetupWrites(r.newID, cands, r.fates))
      {
        assert cands[i..][1..] == cands[i + 1..] && r.fates[i..][1..] == r.fates[i + 1..];
        if cands[i].node.publicKey.Unparsable? {
          return None;
        }
        ghost var now := net.stores;
        var err := net.SendSetupKey(cands[i], r.newID, r.fates[i]);
        ReplayNextHop(now, r.newID, cands[i..], r.fates[i..]);
        if err.Some? {
          return None;
        }
      }
      AgreesWhenQuiet(before, r.newID, cands, r.fates);
      keys := Some(r.keys);
    }

    /** Build the first circuit and, if asked to, start a checker that watches its nodes. */
    method OnStart(net: Network, r: Rebuild, healthCheck: bool) returns (raised: bool)
      requires GoodRebuild(r, hops) && NoKeys() && checker == null
      modifies this, net
      ensures Agreement(net.stores)
      ensures raised <==> guardKey.None?
      ensures raised <==> !Works(r, hops)
      ensures !raised ==> circuitID == r.newID && circuit == Some(r.dir.circuit)
      ensures checker != null <==> healthCheck && !raised
      ensures checker != null ==> fresh(checker) && checker.Valid() && Watches(checker, r.dir.circuit)
    {
      raised := SetupCircuit(net, r);
      if !raised && healthCheck {
        checker := new HealthChecker();
        UpdateHealthCheckerNodes();
      }
    }

    /** The checker watches exactly the nodes of this circuit, and found none missing since it does. */
    ghost predicate Watches(checker: HealthChecker, circuit: Circuit)
      reads checker
    {
      && !checker.needsRebuild && checker.polls == []
      && AreIDsOf(checker.currentNodeIDs, Candidates(circuit, SessionKeys([], [], []), hops))
    }

    method UpdateHealthCheckerNodes()
      modifies checker
      ensures checker != null && circuit.Some? ==> checker.Valid() && Watches(checker, circuit.value)
    {
      if checker == null || circuit.None? {
        return;
      }
      var ids := {circuit.value.guard.nodeID};
      if hops == 3 {
        ids := ids + {circuit.value.relay.nodeID} + {circuit.value.exit.nodeID};
      }
      ghost var cands := Candidates(circuit.value, SessionKeys([], [], []), hops);
      assert cands[0].node == circuit.value.guard;
      assert hops == 3 ==> cands[1].node == circuit.value.relay && cands[2].node == circuit.value.exit;
      checker.SetCircuitNodes(ids);
    }

    /** The old circuit and keys are forgotten before anything can fail; the checker goes on polling. */
    method RebuildCircuit(net: Network, r: Rebuild) returns (raised: bool)
      requires GoodRebuild(r, hops) && (checker != null ==> checker.Valid())
      modifies net, checker, `circuit, `circuitID, `guardKey, `relayKey, `exitKey
      ensures Agreement(net.stores)
      ensures raised <==> guardKey.None?
      ensures raised <==> !Works(r, hops)
      ensures !raised ==> circuitID == r.newID && circuit == Some(r.dir.circuit)
      ensures checker != null ==> checker.Valid()
      ensures checker != null && !raised ==> Watches(checker, r.dir.circuit)
      ensures checker != null && raised ==>
                checker.needsRebuild == (old(checker.needsRebuild) || SomeMiss(old(checker.currentNodeIDs), r.polls))
    {
      circuit, guardKey, relayKey, exitKey := None, None, None, None;
      raised := SetupCircuit(net, r);
      if checker != null {
        checker.PollAll(r.polls);
      }
      if !raised {
        UpdateHealthCheckerNodes();
      }
    }

    /** If the checker asks for it, rebuild before sending. */
    method RebuildIfAsked(net: Network, r: Rebuild) returns (rebuilt: bool, raised: bool)
      requires GoodRebuild(r, hops) && Agreement(net.stores)
      requires checker != null ==> checker.Valid()
      modifies net, checker, `circuit, `circuitID, `guardKey, `relayKey, `exitKey
      ensures Agreement(net.stores)
      ensures checker != null ==> checker.Valid()
      ensures rebuilt || raised <==> old(checker != null && checker.needsRebuild)
      ensures raised ==> !rebuilt && guardKey.None?
      ensures guardKey.Some? ==> (circuitID == r.newID && Works(r, hops)) || (circuitID == old(circuitID) && old(guardKey.Some?))
    {
      rebuilt, raised := false, false;
      if checker != null && checker.needsRebuild {
        raised := RebuildCircuit(net, r);
        rebuilt := !raised;
      }
    }

    /** Build, send and peel with the keys at hand; without keys building raises at once. */
    method TrySend(net: Network, e: ExitLayer, nonces: seq<Nonce>, reply: Option<Bytes>)
      returns (ok: bool, sent: Option<Bytes>, ghost under: Sent)
      requires |nonces| == 3 && Agreement(net.stores)
      ensures sent.Some? <==> guardKey.Some?
      ensures sent.Some? ==> LeftAgreed(sent.value, under, nonces, e)
      ensures sent.Some? ==>
                under == Sent(net.stores, circuitID, PathOf(circuit.value, HeldKeys(), hops))
      ensures ok <==> Peels(sent, under, reply)
    {
      if guardKey.None? {
        return false, None, Sent(net.stores, circuitID, []);
      }
      var path := PathOf(circuit.value, HeldKeys(), hops);
      HeldPath(net.stores, circuitID, circuit.value, HeldKeys(), hops);
      under := Sent(net.stores, circuitID, path);
      sent := Some(Build(path, nonces, PythonExitDoc(e)));
      ok := reply.Some? && PythonPeel(KeysOf(path), reply.value).Some?;
    }

    /** Send, the checker polling while the reply is awaited; on any failure, rebuild at once. */
    method SendOrRecover(net: Network, e: ExitLayer, nonces: seq<Nonce>, polls: seq<Poll>, reply: Option<Bytes>,
                         recovery: Rebuild, rebuilt: bool)
      returns (row: Row, sent: Option<Bytes>, ghost under: Sent)
      requires |nonces| == 3 && GoodRebuild(recovery, hops) && Agreement(net.stores)
      requires checker != null ==> checker.Valid()
      modifies net, checker, `circuit, `circuitID, `guardKey, `relayKey, `exitKey
      ensures Agreement(net.stores) && (checker != null ==> checker.Valid())
      ensures sent.Some? ==> LeftAgreed(sent.value, under, nonces, e)
      ensures RowDescribes(row, sent, under, reply, recovery) && (row.status.SuccessRow? ==> row.circuitRebuilt == rebuilt)
      ensures guardKey.Some? ==>
                (circuitID == recovery.newID && Works(recovery, hops)) || (circuitID == old(circuitID) && old(guardKey.Some?))
    {
      var ok;
      ok, sent, under := TrySend(net, e, nonces, reply);
      if checker != null {
        checker.PollAll(polls);
      }
      if ok {
        return Row(SuccessRow, rebuilt), sent, under;
      }
      var failed := RebuildCircuit(net, recovery);
      row := Row(if failed then FailedRebuildFailed else FailedRebuilt, true);
    }

    /**
     * One task. `reply` is what the guard answers to the onion, if the send succeeds. Whatever fails,
     * the keys left behind are those of the circuit left behind, and an onion only ever leaves under
     * keys its nodes hold. Polls may come at any point of it.
     */
    method SendRequest(net: Network, log: CsvLog, t: TaskInput) returns (row: Row, sent: Option<Bytes>, ghost under: Sent)
      requires GoodTask(t, hops) && Agreement(net.stores)
      requires checker != null ==> checker.Valid()
      modifies this, net, checker, log
      ensures checker == old(checker) && Agreement(net.stores) && (checker != null ==> checker.Valid())
      ensures sent.Some? ==> LeftAgreed(sent.value, under, t.nonces, t.e)
      ensures log.rows == old(log.rows) + [row] && RowDescribes(row, sent, under, t.reply, t.recovery)
      ensures row.status.SuccessRow? ==> row.circuitRebuilt == old(checker != null && checker.needsRebuild)
      ensures guardKey.Some? ==>
                || (circuitID == t.proactive.newID && Works(t.proactive, hops))
                || (circuitID == t.recovery.newID && Works(t.recovery, hops))
                || (circuitID == old(circuitID) && old(guardKey.Some?))
    {
      var rebuilt, failed := RebuildIfAsked(net, t.proactive);
      if failed {
        row, sent, under := Row(RebuildFailed, true), None, Sent(net.stores, circuitID, []);
      } else {
        row, sent, under := SendOrRecover(net, t.e, t.nonces, t.polls, t.reply, t.recovery, rebuilt);
      }
      log.Add(row);
    }

    /**
     * The row of a task tells what became of it: a success peeled under the keys still held, a
     * repaired failure left new keys under the new id, an unrepaired one left none.
     */
    ghost predicate RowDescribes(row: Row, sent: Option<Bytes>, under: Sent, reply: Option<Bytes>, recovery: Rebuild)
      reads this
    {
      var peeled := Peels(sent, under, reply);
      match row.status
      case SuccessRow =>
        peeled && guardKey.Some? && circuit.Some? && under.id == circuitID && under.path == PathOf(circuit.value, HeldKeys(), hops)
      case FailedRebuilt => !peeled && row.circuitRebuilt && guardKey.Some? && circuitID == recovery.newID
      case FailedRebuildFailed => !peeled && row.circuitRebuilt && guardKey.None?
      case RebuildFailed => sent.None? && row.circuitRebuilt && guardKey.None?
    }

    /** Writes under other ids, of other users or of this user's own earlier rebuilds, disturb nothing. */
    method Drift(net: Network, others: seq<Write>)
      requires Agreement(net.stores) && (guardKey.Some? ==> Spared(others, circuitID))
      modifies net
      ensures Agreement(net.stores)
    {
      if guardKey.Some? {
        SparedStaysHeld(net.stores, others, circuitID, Candidates(circuit.value, HeldKeys(), hops));
      }
      net.Apply(others);
    }

    /** Between events: keys agree with the circuit, the flag means what it should, a circuit in use has an id of `ids`. */
    ghost predicate Steady(stores: Stores, ids: set<CircuitId>)
      reads this, checker
    {
      Agreement(stores) && (checker != null ==> checker.Valid()) && (guardKey.Some? ==> circuitID in ids)
    }

    /** One event; a task leaves one row and its trail. */
    method Meet(net: Network, log: CsvLog, ev: UserEvent, ghost ids: set<CircuitId>) returns (ghost done: seq<Trail>)
      requires Steady(net.stores, ids) && GoodEvent(ev, hops, ids)
      modifies this, net, checker, log
      ensures checker == old(checker) && Steady(net.stores, ids)
      ensures |done| == (if ev.Task? then 1 else 0) && log.rows == old(log.rows) + RowsOf(done)
      ensures forall x :: x in done ==> TrailAgreed(x)
    {
      done := [];
      match ev
      case Polled(healthy) =>
        if checker != null {
          checker.Poll(healthy);
        }
      case Written(ws) =>
        Drift(net, ws);
      case Task(t) =>
        TasksAreGood(t, hops, ids);
        var row, sent, under := SendRequest(net, log, t);
        done := [Trail(t, row, sent, under)];
        assert RowsOf(done[..0]) == [];
    }

    /**
     * The whole life of a user after its start: tasks, polls and other writes in any order. `ids` are
     * the ids of this user whose setups work. Throughout, the keys held agree with the circuit held,
     * the flag means what it should, every task leaves one row, and every onion left under keys its
     * nodes held.
     */
    method Live(net: Network, log: CsvLog, events: seq<UserEvent>, ghost ids: set<CircuitId>)
      returns (ghost trail: seq<Trail>)
      requires Steady(net.stores, ids)
      requires forall i :: 0 <= i < |events| ==> GoodEvent(events[i], hops, ids)
      modifies this, net, checker, log
      ensures checker == old(checker) && Steady(net.stores, ids)
      ensures |trail| == Tasks(events) && log.rows == old(log.rows) + RowsOf(trail)
      ensures forall x :: x in trail ==> TrailAgreed(x)
    {
      trail := [];
      for i := 0 to |events|
        invariant checker == old(checker) && Steady(net.stores, ids)
        invariant |trail| == Tasks(events[..i]) && log.rows == old(log.rows) + RowsOf(trail)
        invariant forall x :: x in trail ==> TrailAgreed(x)
      {
        assert events[..i + 1][..i] == events[..i];
        var done := Meet(net, log, events[i], ids);
        RowsAppend(trail, done);
        trail := trail + done;
      }
      assert events[..|events|] == events;
    }
  }

  /** What one task meets besides the state it finds. */
  datatype TaskInput = TaskInput(
    e: ExitLayer, nonces: seq<Nonce>, proactive: Rebuild, polls: seq<Poll>, reply: Option<Bytes>, recovery: Rebuild)

  ghost predicate GoodTask(t: TaskInput, hops: int) {
    |t.nonces| == 3 && GoodRebuild(t.proactive, hops) && GoodRebuild(t.recovery, hops)
  }

  /** Something that happens to a user: a poll, writes of others, or a task. */
  datatype UserEvent = Polled(healthy: Poll) | Written(ws: seq<Write>) | Task(t: TaskInput)

  datatype Trail = Trail(t: TaskInput, row: Row, sent: Option<Bytes>, under: Sent)

  ghost predicate TrailAgreed(x: Trail) {
    x.sent.Some? ==> LeftAgreed(x.sent.value, x.under, x.t.nonces, x.t.e)
  }

  ghost function RowsOf(trail: seq<Trail>): seq<Row> {
    if trail == [] then [] else RowsOf(trail[..|trail| - 1]) + [trail[|trail| - 1].row]
  }

  lemma RowsAppend(trail: seq<Trail>, done: seq<Trail>)
    requires |done| <= 1
    ensures RowsOf(trail + done) == RowsOf(trail) + RowsOf(done)
  {
    if done == [] {
      assert trail + done == trail;
    } else {
      assert (trail + done)[..|trail|] == trail && done[..0] == [];
    }
  }

  function Tasks(events: seq<UserEvent>): nat {
    if events == [] then 0 else Tasks(events[..|events| - 1]) + if events[|events| - 1].Task? then 1 else 0
  }

  ghost predicate AvoidsAll(ws: seq<Write>, ids: set<CircuitId>) { forall w :: w in ws ==> w.circuit !in ids }

  /** The ids of rebuilds that work are in `ids`, and nothing but a rebuild's own POSTs writes under one of these. */
  ghost predicate GoodRebuildAmong(r: Rebuild, hops: int, ids: set<CircuitId>) {
    && |r.fates| >= 3 && (Works(r, hops) ==> r.newID in ids)
    && forall j :: 0 <= j < |r.fates| ==> AvoidsAll(r.fates[j].meanwhile, ids)
  }

  ghost predicate GoodEvent(ev: UserEvent, hops: int, ids: set<CircuitId>) {
    match ev
    case Polled(_) => true
    case Written(ws) => AvoidsAll(ws, ids)
    case Task(t) => |t.nonces| == 3 && GoodRebuildAmong(t.proactive, hops, ids) && GoodRebuildAmong(t.recovery, hops, ids)
  }

  lemma TasksAreGood(t: TaskInput, hops: int, ids: set<CircuitId>)
    requires GoodEvent(Task(t), hops, ids)
    ensures GoodTask(t, hops)
  {
  }

  /** After a setup without error under an id of its own, the hops agree just when equal addresses share a key. */
  lemma AgreesWhenQuiet(stores: Stores, id: CircuitId, cands: seq<Candidate>, fates: seq<Fate>)
    requires |cands| <= |fates| && SetupError(id, cands, fates).None?
    ensures Quiet(id, cands, fates) ==>
              (AllHeld(Replay(stores, SetupWrites(id, cands, fates)), id, cands) <==> KeysAgreeByAddress(cands))
  {
    if Quiet(id, cands, fates) {
      SetupAgreement(stores, id, cands, fates);
      QuietLasts(id, cands, fates);
    }
  }

  lemma SparedStaysHeld(stores: Stores, ws: seq<Write>, id: CircuitId, cands: seq<Candidate>)
    requires Spared(ws, id)
    ensures AllHeld(Replay(stores, ws), id, cands) <==> AllHeld(stores, id, cands)
  {
    forall i | 0 <= i < |cands|
      ensures HoldsAt(Replay(stores, ws), id, HopOf(cands[i])) <==> HoldsAt(stores, id, HopOf(cands[i]))
    {
      ReplayHolds(stores, ws, id, HopOf(cands[i]));
      LastKeyIsWritten(ws, id, AddrOf(cands[i].node));
    }
  }
}
