/**
 * Circuits and their keys: the directory's answer, and the key exchange that both clients run hop
 * by hop, any step of which may fail at the client with or without having stored its key.
 */
module Circuits {
  import opened Wrappers
  import opened Wire
  import opened Keys
  import opened Handlers
  import opened DataPlane
  import opened Onion
  import opened RoundTrip

  datatype PublicKey = Pem(pair: nat) | Unparsable

  datatype NodeRecord = NodeRecord(nodeID: string, host: string, port: int, publicKey: PublicKey)

  datatype Circuit = Circuit(guard: NodeRecord, relay: NodeRecord, exit: NodeRecord)

  /** Session keys as the client keeps them; relay and exit are empty on a one-hop circuit. */
  datatype SessionKeys = SessionKeys(guard: Key, relay: Key, exit: Key)

  datatype DirReply = DirFails(msg: string) | DirAnswers(circuit: Circuit)

  /** One key taking effect at one node. */
  datatype Write = Write(addr: Addr, circuit: CircuitId, key: Key)

  /**
   * What becomes of one POST /setup while its client waits: it does not arrive in time, or something
   * on the way refuses it, or it reaches a node of key pair `pair` whose reply comes back or not.
   */
  datatype Outcome =
    | Missed(msg: string)
    | TurnedAway(msg: string)
    | Reached(pair: nat, answered: bool, msg: string)

  /**
   * A POST's outcome and the other writes that take effect from then to the client's next POST:
   * those of other clients, and POSTs this client gave up on that arrive after all.
   */
  datatype Fate = Fate(outcome: Outcome, meanwhile: seq<Write>)

  datatype Candidate = Candidate(node: NodeRecord, key: Key)

  function Digits(n: nat): string
  {
    if n < 10 then [(n as char) + '0'] else Digits(n / 10) + [(n % 10) as char + '0']
  }

  function Decimal(n: int): string { if n < 0 then "-" + Digits(-n) else Digits(n) }

  function AddrOf(node: NodeRecord): Addr { node.host + ":" + Decimal(node.port) }

  // ---- Addresses -----------------------------------------------------------------------------

  /** The number a string of decimal digits stands for. */
  function ReadDigits(s: string): int {
    if s == "" then 0 else 10 * ReadDigits(s[..|s| - 1]) + (s[|s| - 1] as int - '0' as int)
  }

  function ReadNumber(s: string): int {
    if s != "" && s[0] == '-' then -ReadDigits(s[1..]) else ReadDigits(s)
  }

  predicate AllDigits(s: string) { forall i :: 0 <= i < |s| ==> '0' <= s[i] <= '9' }

  lemma {:induction false} DigitsRead(n: nat)
    ensures Digits(n) != "" && AllDigits(Digits(n)) && ReadDigits(Digits(n)) == n
  {
    if n >= 10 {
      DigitsRead(n / 10);
      assert Digits(n)[..|Digits(n)| - 1] == Digits(n / 10);
    } else {
      assert Digits(n)[..0] == "";
    }
  }

  /** Printing a number loses nothing and uses no colon. */
  lemma DecimalRead(n: int)
    ensures ReadNumber(Decimal(n)) == n && ':' !in Decimal(n)
  {
    DigitsRead(if n < 0 then -n else n);
    if n < 0 {
      assert Decimal(n)[1..] == Digits(-n);
    }
  }

  /** An address is the host, a colon, and the port in decimal digits. */
  lemma AddressReads(node: NodeRecord)
    ensures |node.host| < |AddrOf(node)| && AddrOf(node)[..|node.host|] == node.host && AddrOf(node)[|node.host|] == ':'
    ensures ReadNumber(AddrOf(node)[|node.host| + 1..]) == node.port && ':' !in AddrOf(node)[|node.host| + 1..]
  {
    DecimalRead(node.port);
    assert AddrOf(node)[|node.host| + 1..] == Decimal(node.port);
  }

  /** Nodes share an address exactly when they share host and port. */
  lemma SameAddress(a: NodeRecord, b: NodeRecord)
    ensures AddrOf(a) == AddrOf(b) <==> a.host == b.host && a.port == b.port
  {
    AddressReads(a);
    AddressReads(b);
    ColonAfter(AddrOf(a), |a.host|, |b.host|);
    ColonAfter(AddrOf(b), |b.host|, |a.host|);
  }

  lemma ColonAfter(s: string, i: nat, j: nat)
    requires i < |s|
    ensures i < j < |s| && s[j] == ':' ==> ':' in s[i + 1..]
  {
    if i < j < |s| && s[j] == ':' {
      assert s[i + 1..][j - i - 1] == ':';
    }
  }

  /** The condition on addresses, said of hosts and ports. */
  lemma DistinctAddressesMean(cands: seq<Candidate>)
    ensures DistinctAddresses(cands) <==>
            forall i, j :: 0 <= i < j < |cands| ==>
              cands[i].node.host != cands[j].node.host || cands[i].node.port != cands[j].node.port
  {
    forall i, j | 0 <= i < j < |cands|
      ensures AddrOf(cands[i].node) != AddrOf(cands[j].node) <==>
              cands[i].node.host != cands[j].node.host || cands[i].node.port != cands[j].node.port
    {
      SameAddress(cands[i].node, cands[j].node);
    }
  }

  function GetCircuitWithHops(reply: DirReply, hops: int): Result<Circuit, string> {
    if !ValidHops(hops) then Err("hops must be 1 or 3")
    else if reply.DirFails? then Err(reply.msg)
    else if reply.circuit.guard.nodeID == "" then Err("decode circuit response: guard node missing")
    else if hops == 3 && (reply.circuit.relay.nodeID == "" || reply.circuit.exit.nodeID == "") then
      Err("decode circuit response: relay or exit node missing for 3-hop circuit")
    else Ok(reply.circuit)
  }

  function Candidates(circuit: Circuit, keys: SessionKeys, hops: int): seq<Candidate> {
    [Candidate(circuit.guard, keys.guard)]
    + if hops == 3 then [Candidate(circuit.relay, keys.relay), Candidate(circuit.exit, keys.exit)] else []
  }

  /** A circuit is accepted exactly if the directory sent one and every hop that will be used has a node. */
  lemma AcceptedCircuits(reply: DirReply, hops: int, keys: SessionKeys)
    ensures GetCircuitWithHops(reply, hops).Ok? <==>
            && ValidHops(hops) && reply.DirAnswers?
            && forall i :: 0 <= i < |Candidates(reply.circuit, keys, hops)| ==>
                 Candidates(reply.circuit, keys, hops)[i].node.nodeID != ""
    ensures GetCircuitWithHops(reply, hops).Ok? ==> GetCircuitWithHops(reply, hops).value == reply.circuit
  {
    if ValidHops(hops) && reply.DirAnswers? {
      var cands := Candidates(reply.circuit, keys, hops);
      assert cands[0].node == reply.circuit.guard;
      assert hops == 3 ==> cands[1].node == reply.circuit.relay && cands[2].node == reply.circuit.exit;
    }
  }

  function HopOf(c: Candidate): Hop { Hop(AddrOf(c.node), c.key) }

  function PathOf(circuit: Circuit, keys: SessionKeys, hops: int): seq<Hop> {
    var cands := Candidates(circuit, keys, hops);
    seq(|cands|, i requires 0 <= i < |cands| => HopOf(cands[i]))
  }

  // ---- Writes --------------------------------------------------------------------------------

  function PutKey(stores: Stores, w: Write): Stores {
    stores[w.addr := (if w.addr in stores then stores[w.addr] else map[])[w.circuit := w.key]]
  }

  /** The key stores after these writes, one after the other. */
  function Replay(stores: Stores, ws: seq<Write>): Stores {
    if ws == [] then stores else PutKey(Replay(stores, ws[..|ws| - 1]), ws[|ws| - 1])
  }

  /** The key written last at an address under a circuit id, if any was. */
  function LastKey(ws: seq<Write>, circuit: CircuitId, addr: Addr): Option<Key> {
    if ws == [] then None
    else
      var w := ws[|ws| - 1];
      if w.addr == addr && w.circuit == circuit then Some(w.key) else LastKey(ws[..|ws| - 1], circuit, addr)
  }

  lemma {:induction false} ReplayAppend(stores: Stores, a: seq<Write>, b: seq<Write>)
    ensures Replay(stores, a + b) == Replay(Replay(stores, a), b)
  {
    if b == [] {
      assert a + b == a;
    } else {
      ReplayAppend(stores, a, b[..|b| - 1]);
      assert (a + b)[..|a + b| - 1] == a + b[..|b| - 1];
    }
  }

  lemma {:induction false} LastKeyAppend(a: seq<Write>, b: seq<Write>, circuit: CircuitId, addr: Addr)
    ensures LastKey(a + b, circuit, addr) ==
            if LastKey(b, circuit, addr).Some? then LastKey(b, circuit, addr) else LastKey(a, circuit, addr)
  {
    if b == [] {
      assert a + b == a;
    } else {
      LastKeyAppend(a, b[..|b| - 1], circuit, addr);
      assert (a + b)[..|a + b| - 1] == a + b[..|b| - 1];
    }
  }

  /** Writes change exactly what they write: the last one at an address decides, everything else stays. */
  lemma {:induction false} ReplayHolds(stores: Stores, ws: seq<Write>, circuit: CircuitId, hop: Hop)
    ensures HoldsAt(Replay(stores, ws), circuit, hop) <==>
            var key := LastKey(ws, circuit, hop.addr);
            if key.Some? then key.value == hop.key else HoldsAt(stores, circuit, hop)
  {
    if ws != [] {
      ReplayHolds(stores, ws[..|ws| - 1], circuit, hop);
    }
  }

  predicate WritesAt(w: Write, circuit: CircuitId, addr: Addr) { w.addr == addr && w.circuit == circuit }

  /** There is a last key exactly if there is a write, and it is that of a write. */
  lemma {:induction false} LastKeyIsWritten(ws: seq<Write>, circuit: CircuitId, addr: Addr)
    ensures LastKey(ws, circuit, addr).None? <==> forall w :: w in ws ==> !WritesAt(w, circuit, addr)
    ensures LastKey(ws, circuit, addr).Some? ==> Write(addr, circuit, LastKey(ws, circuit, addr).value) in ws
  {
    if ws != [] {
      var n := |ws| - 1;
      LastKeyIsWritten(ws[..n], circuit, addr);
      assert ws == ws[..n] + [ws[n]];
      assert WritesAt(ws[n], circuit, addr) ==> ws[n] in ws;
    }
  }

  // ---- The key exchange ----------------------------------------------------------------------

  /** The body the client posts: the key sealed for the node's registered key pair. */
  function SetupRequest(circuit: CircuitId, pair: nat, key: Key): SetupBody {
    SetupBody(circuit, Of(OaepSealed(pair, key)))
  }

  /** The node reached opens the key and stores it. */
  predicate Takes(circuit: CircuitId, c: Candidate, o: Outcome) {
    && c.node.publicKey.Pem? && o.Reached?
    && AcceptsSetup(true, o.pair, SetupRequest(circuit, c.node.publicKey.pair, c.key))
  }

  /** ... and the client learns of it. */
  predicate Confirms(circuit: CircuitId, c: Candidate, o: Outcome) { Takes(circuit, c, o) && o.answered }

  function OwnWrite(c: Candidate, circuit: CircuitId): Write { Write(AddrOf(c.node), circuit, c.key) }

  /** The writes from a POST up to the client's next one. */
  function PostWrites(circuit: CircuitId, c: Candidate, fate: Fate): seq<Write> {
    (if Takes(circuit, c, fate.outcome) then [OwnWrite(c, circuit)] else []) + fate.meanwhile
  }

  /** The error of a setup, if any: the loop stops at the first node that fails. */
  function SetupError(circuit: CircuitId, cands: seq<Candidate>, fates: seq<Fate>): Option<string>
    requires |cands| <= |fates|
  {
    if cands == [] then None
    else if cands[0].node.publicKey.Unparsable? then Some("parse public key for node " + cands[0].node.nodeID)
    else if !Confirms(circuit, cands[0], fates[0].outcome) then
      Some("setup key for node " + cands[0].node.nodeID + ": " + fates[0].outcome.msg)
    else SetupError(circuit, cands[1..], fates[1..])
  }

  /** All writes, the client's own and others, from a setup's first POST to the client's next step. */
  function SetupWrites(circuit: CircuitId, cands: seq<Candidate>, fates: seq<Fate>): seq<Write>
    requires |cands| <= |fates|
    decreases |cands|
  {
    if cands == [] || cands[0].node.publicKey.Unparsable? then []
    else
      PostWrites(circuit, cands[0], fates[0])
      + if Confirms(circuit, cands[0], fates[0].outcome) then SetupWrites(circuit, cands[1..], fates[1..]) else []
  }

  class Network {
    var stores: Stores

    constructor (stores: Stores)
      ensures this.stores == stores
    {
      this.stores := stores;
    }

    method Apply(ws: seq<Write>)
      modifies this
      ensures stores == Replay(old(stores), ws)
    {
      for i := 0 to |ws|
        invariant stores == Replay(old(stores), ws[..i])
      {
        assert ws[..i + 1][..i] == ws[..i];
        stores := PutKey(stores, ws[i]);
      }
      assert ws[..|ws|] == ws;
    }

    /** One POST of a sealed key and, after it, what else takes effect before the client goes on. */
    method SendSetupKey(c: Candidate, circuit: CircuitId, fate: Fate) returns (err: Option<string>)
      requires c.node.publicKey.Pem?
      modifies this
      ensures stores == Replay(old(stores), PostWrites(circuit, c, fate))
      ensures err == if Confirms(circuit, c, fate.outcome) then None else Some(fate.outcome.msg)
    {
      var body := SetupRequest(circuit, c.node.publicKey.pair, c.key);
      var own := [];
      err := Some(fate.outcome.msg);
      if fate.outcome.Reached? && AcceptsSetup(true, fate.outcome.pair, body) {
        own := [Write(AddrOf(c.node), body.circuit, body.encryptedKey.value.plain)];
        if fate.outcome.answered {
          err := None;
        }
      }
      Apply(own + fate.meanwhile);
    }

    /** `keys` are the freshly drawn ones; `fates` says what becomes of each POST. */
    method SetupCircuitWithHops(circuitID: CircuitId, circuit: Circuit, hops: int, keys: SessionKeys, fates: seq<Fate>)
      returns (result: Result<SessionKeys, string>)
      requires |fates| >= 3
      modifies this
      ensures !ValidHops(hops) ==> result.Err? && stores == old(stores)
      ensures ValidHops(hops) ==>
                var cands := Candidates(circuit, keys, hops);
                && stores == Replay(old(stores), SetupWrites(circuitID, cands, fates))
                && result == (if SetupError(circuitID, cands, fates).Some? then Err(SetupError(circuitID, cands, fates).value)
                              else if hops == 1 then Ok(SessionKeys(keys.guard, [], [])) else Ok(keys))
    {
      if !ValidHops(hops) {
        return Err("hops must be 1 or 3");
      }
      var cands := [Candidate(circuit.guard, keys.guard)];
      if hops == 3 {
        cands := cands + [Candidate(circuit.relay, keys.relay), Candidate(circuit.exit, keys.exit)];
      }
      assert cands == Candidates(circuit, keys, hops);
      for i := 0 to |cands|
        invariant Replay(stores, SetupWrites(circuitID, cands[i..], fates[i..]))
               == Replay(old(stores), SetupWrites(circuitID, cands, fates))
        invariant SetupError(circuitID, cands[i..], fates[i..]) == SetupError(circuitID, cands, fates)
      {
        assert cands[i..][1..] == cands[i + 1..] && fates[i..][1..] == fates[i + 1..];
        if cands[i].node.publicKey.Unparsable? {
          return Err("parse public key for node " + cands[i].node.nodeID);
        }
        ghost var before := stores;
        var err := SendSetupKey(cands[i], circuitID, fates[i]);
        ReplayNextHop(before, circuitID, cands[i..], fates[i..]);
        if err.Some? {
          return Err("setup key for node " + cands[i].node.nodeID + ": " + err.value);
        }
      }
      result := if hops == 1 then Ok(SessionKeys(keys.guard, [], [])) else Ok(keys);
    }
  }

  lemma ReplayNextHop(stores: Stores, circuit: CircuitId, cands: seq<Candidate>, fates: seq<Fate>)
    requires 0 < |cands| <= |fates| && cands[0].node.publicKey.Pem?
    ensures Replay(stores, SetupWrites(circuit, cands, fates)) ==
            var after := Replay(stores, PostWrites(circuit, cands[0], fates[0]));
            if Confirms(circuit, cands[0], fates[0].outcome) then Replay(after, SetupWrites(circuit, cands[1..], fates[1..]))
            else after
  {
    var own := PostWrites(circuit, cands[0], fates[0]);
    assert own + [] == own;
    ReplayAppend(stores, own, SetupWrites(circuit, cands[1..], fates[1..]));
  }

  // ---- Agreement after a setup ---------------------------------------------------------------

  ghost predicate AllHeld(stores: Stores, circuit: CircuitId, cands: seq<Candidate>) {
    forall i :: 0 <= i < |cands| ==> HoldsAt(stores, circuit, HopOf(cands[i]))
  }

  /** The node at hop `i` opened a 32-byte key with the pair it is registered with, and its reply came back. */
  predicate Opened(circuit: CircuitId, c: Candidate, fate: Fate) {
    && circuit != "" && |c.key| == 32
    && c.node.publicKey.Pem? && fate.outcome.Reached? && fate.outcome.answered
    && fate.outcome.pair == c.node.publicKey.pair
  }

  /** The error of a setup is that of the first hop whose node did not open its key; there is none if all did. */
  lemma {:induction false} SetupErrorMeans(circuit: CircuitId, cands: seq<Candidate>, fates: seq<Fate>)
    requires |cands| <= |fates|
    ensures SetupError(circuit, cands, fates).None? <==>
            forall i :: 0 <= i < |cands| ==> Opened(circuit, cands[i], fates[i])
    decreases |cands|
  {
    if cands != [] {
      SetupErrorMeans(circuit, cands[1..], fates[1..]);
      assert Opened(circuit, cands[0], fates[0]) <==> cands[0].node.publicKey.Pem? && Confirms(circuit, cands[0], fates[0].outcome);
      if forall i :: 1 <= i < |cands| ==> Opened(circuit, cands[i], fates[i]) {
        forall i | 0 <= i < |cands[1..]|
          ensures Opened(circuit, cands[1..][i], fates[1..][i])
        {
          assert Opened(circuit, cands[i + 1], fates[i + 1]);
        }
      }
      if forall i :: 0 <= i < |cands[1..]| ==> Opened(circuit, cands[1..][i], fates[1..][i]) {
        forall i | 1 <= i < |cands|
          ensures Opened(circuit, cands[i], fates[i])
        {
          assert Opened(circuit, cands[1..][i - 1], fates[1..][i - 1]);
        }
      }
    }
  }

  /** What a setup that fails at this hop reports. */
  function HopError(c: Candidate, fate: Fate): string {
    if c.node.publicKey.Unparsable? then "parse public key for node " + c.node.nodeID
    else "setup key for node " + c.node.nodeID + ": " + fate.outcome.msg
  }

  lemma {:induction false} FirstToFail(circuit: CircuitId, cands: seq<Candidate>, fates: seq<Fate>) returns (k: nat)
    requires |cands| <= |fates| && SetupError(circuit, cands, fates).Some?
    ensures k < |cands| && !Opened(circuit, cands[k], fates[k])
    ensures forall i :: 0 <= i < k ==> Opened(circuit, cands[i], fates[i])
    ensures SetupError(circuit, cands, fates).value == HopError(cands[k], fates[k])
    decreases |cands|
  {
    if !Opened(circuit, cands[0], fates[0]) {
      k := 0;
    } else {
      var j := FirstToFail(circuit, cands[1..], fates[1..]);
      k := j + 1;
      forall i | 0 <= i < k
        ensures Opened(circuit, cands[i], fates[i])
      {
        assert i > 0 ==> cands[i] == cands[1..][i - 1] && fates[i] == fates[1..][i - 1];
      }
    }
  }

  /** The writes after hop `i` took its key. */
  function LaterWrites(circuit: CircuitId, cands: seq<Candidate>, fates: seq<Fate>, i: nat): seq<Write>
    requires i < |cands| <= |fates|
  {
    fates[i].meanwhile + SetupWrites(circuit, cands[i + 1..], fates[i + 1..])
  }

  /** What lands at hop `i`'s address after its own POST, under the circuit's id, ends with the same key. */
  ghost predicate Lasts(circuit: CircuitId, cands: seq<Candidate>, fates: seq<Fate>, i: nat)
    requires i < |cands| <= |fates|
  {
    LastKey(LaterWrites(circuit, cands, fates, i), circuit, AddrOf(cands[i].node)) in {None, Some(cands[i].key)}
  }

  ghost predicate AllLast(circuit: CircuitId, cands: seq<Candidate>, fates: seq<Fate>)
    requires |cands| <= |fates|
  {
    forall i :: 0 <= i < |cands| ==> Lasts(circuit, cands, fates, i)
  }

  /** A setup without error wrote hop `i`'s key, and after it the later writes. */
  lemma {:induction false} SplitAtHop(circuit: CircuitId, cands: seq<Candidate>, fates: seq<Fate>, i: nat)
    returns (before: seq<Write>)
    requires i < |cands| <= |fates| && SetupError(circuit, cands, fates).None?
    ensures SetupWrites(circuit, cands, fates)
         == before + [OwnWrite(cands[i], circuit)] + LaterWrites(circuit, cands, fates, i)
    decreases i
  {
    var own, tail := PostWrites(circuit, cands[0], fates[0]), SetupWrites(circuit, cands[1..], fates[1..]);
    assert SetupWrites(circuit, cands, fates) == own + tail;
    if i == 0 {
      before := [];
      assert own == [OwnWrite(cands[0], circuit)] + fates[0].meanwhile;
    } else {
      var rest := SplitAtHop(circuit, cands[1..], fates[1..], i - 1);
      assert cands[1..][i..] == cands[i + 1..] && fates[1..][i..] == fates[i + 1..];
      before := own + rest;
    }
  }

  /** After a setup without error, hop `i` holds its key just when nothing that landed later replaced it. */
  lemma HeldIffLasts(stores: Stores, circuit: CircuitId, cands: seq<Candidate>, fates: seq<Fate>, i: nat)
    requires i < |cands| <= |fates| && SetupError(circuit, cands, fates).None?
    ensures HoldsAt(Replay(stores, SetupWrites(circuit, cands, fates)), circuit, HopOf(cands[i]))
            <==> Lasts(circuit, cands, fates, i)
  {
    var addr := AddrOf(cands[i].node);
    var before := SplitAtHop(circuit, cands, fates, i);
    var upTo, later := before + [OwnWrite(cands[i], circuit)], LaterWrites(circuit, cands, fates, i);
    LastKeyAppend(upTo, later, circuit, addr);
    assert LastKey(upTo, circuit, addr) == Some(cands[i].key);
    ReplayHolds(stores, upTo + later, circuit, HopOf(cands[i]));
  }

  /**
   * Whatever earlier setups under this circuit id left behind, a setup without error puts every hop
   * in agreement with the client exactly when, at each hop, nothing landed after its own POST that
   * ends with another key.
   */
  lemma SetupAgreement(stores: Stores, circuit: CircuitId, cands: seq<Candidate>, fates: seq<Fate>)
    requires |cands| <= |fates| && SetupError(circuit, cands, fates).None?
    ensures AllHeld(Replay(stores, SetupWrites(circuit, cands, fates)), circuit, cands) <==> AllLast(circuit, cands, fates)
  {
    forall i | 0 <= i < |cands|
      ensures HoldsAt(Replay(stores, SetupWrites(circuit, cands, fates)), circuit, HopOf(cands[i]))
              <==> Lasts(circuit, cands, fates, i)
    {
      HeldIffLasts(stores, circuit, cands, fates, i);
    }
  }

  /** Hops that share an address share a key. */
  ghost predicate KeysAgreeByAddress(cands: seq<Candidate>) {
    forall i, j :: 0 <= i < j < |cands| && AddrOf(cands[i].node) == AddrOf(cands[j].node) ==> cands[i].key == cands[j].key
  }

  ghost predicate DistinctAddresses(cands: seq<Candidate>) {
    forall i, j :: 0 <= i < j < |cands| ==> AddrOf(cands[i].node) != AddrOf(cands[j].node)
  }

  /** The write comes from hop `j`'s POST or lands right after it. */
  predicate FromHop(circuit: CircuitId, cands: seq<Candidate>, fates: seq<Fate>, j: int, w: Write)
    requires |cands| <= |fates|
  {
    0 <= j < |cands| && (w == OwnWrite(cands[j], circuit) || w in fates[j].meanwhile)
  }

  /** A setup without error consists of every hop's POST and what landed after each; no setup of more. */
  lemma {:induction false} SetupWritesAre(circuit: CircuitId, cands: seq<Candidate>, fates: seq<Fate>, w: Write)
    requires |cands| <= |fates|
    ensures w in SetupWrites(circuit, cands, fates) ==> exists j :: FromHop(circuit, cands, fates, j, w)
    ensures SetupError(circuit, cands, fates).None? && (exists j :: FromHop(circuit, cands, fates, j, w)) ==>
              w in SetupWrites(circuit, cands, fates)
    decreases |cands|
  {
    if cands != [] && cands[0].node.publicKey.Pem? {
      SetupWritesAre(circuit, cands[1..], fates[1..], w);
      if w in SetupWrites(circuit, cands, fates) {
        if w in PostWrites(circuit, cands[0], fates[0]) {
          assert FromHop(circuit, cands, fates, 0, w);
        } else {
          var j :| FromHop(circuit, cands[1..], fates[1..], j, w);
          assert FromHop(circuit, cands, fates, j + 1, w);
        }
      }
      if SetupError(circuit, cands, fates).None? && exists j :: FromHop(circuit, cands, fates, j, w) {
        var j :| FromHop(circuit, cands, fates, j, w);
        assert j > 0 ==> FromHop(circuit, cands[1..], fates[1..], j - 1, w);
      }
    }
  }

  /** Nobody but this setup writes under the circuit's id while it runs, and no earlier POST lands late. */
  ghost predicate Quiet(circuit: CircuitId, cands: seq<Candidate>, fates: seq<Fate>)
    requires |cands| <= |fates|
  {
    forall j, w {:trigger w in fates[j].meanwhile} :: 0 <= j < |cands| && w in fates[j].meanwhile ==> w.circuit != circuit
  }

  /** The keys are new: unlike each other and unlike any key others write. */
  ghost predicate FreshKeys(cands: seq<Candidate>, fates: seq<Fate>)
    requires |cands| <= |fates|
  {
    && (forall i, j :: 0 <= i < j < |cands| ==> cands[i].key != cands[j].key)
    && (forall i, j, w {:trigger cands[i], w in fates[j].meanwhile} ::
          0 <= i < |cands| && 0 <= j < |cands| && w in fates[j].meanwhile ==> w.key != cands[i].key)
  }

  /** Nothing others write lands at a hop's address under the circuit's id after the hop's own POST. */
  ghost predicate NoneLate(circuit: CircuitId, cands: seq<Candidate>, fates: seq<Fate>)
    requires |cands| <= |fates|
  {
    forall i, j, w {:trigger cands[i], w in fates[j].meanwhile} ::
      0 <= i <= j < |cands| && w in fates[j].meanwhile ==> !WritesAt(w, circuit, AddrOf(cands[i].node))
  }

  /** A later write comes from a later hop, or lands after this hop's POST. */
  lemma LaterWritesAre(circuit: CircuitId, cands: seq<Candidate>, fates: seq<Fate>, i: nat, w: Write)
    requires i < |cands| <= |fates| && SetupError(circuit, cands[i + 1..], fates[i + 1..]).None?
    ensures w in LaterWrites(circuit, cands, fates, i) <==>
            w in fates[i].meanwhile || exists j :: i < j && FromHop(circuit, cands, fates, j, w)
  {
    var rest, fs := cands[i + 1..], fates[i + 1..];
    SetupWritesAre(circuit, rest, fs, w);
    if exists j :: FromHop(circuit, rest, fs, j, w) {
      var j :| FromHop(circuit, rest, fs, j, w);
      assert FromHop(circuit, cands, fates, j + i + 1, w);
    }
    if exists j :: i < j && FromHop(circuit, cands, fates, j, w) {
      var j :| i < j && FromHop(circuit, cands, fates, j, w);
      assert FromHop(circuit, rest, fs, j - i - 1, w);
    }
  }

  lemma {:induction false} ErrorFreeTail(circuit: CircuitId, cands: seq<Candidate>, fates: seq<Fate>, i: nat)
    requires i <= |cands| <= |fates| && SetupError(circuit, cands, fates).None?
    ensures SetupError(circuit, cands[i..], fates[i..]).None?
    decreases i
  {
    if i > 0 {
      ErrorFreeTail(circuit, cands[1..], fates[1..], i - 1);
      assert cands[1..][i - 1..] == cands[i..] && fates[1..][i - 1..] == fates[i..];
    } else {
      assert cands[0..] == cands && fates[0..] == fates;
    }
  }

  /** With nobody else on the id, the condition is that hops that share an address share a key. */
  lemma QuietLasts(circuit: CircuitId, cands: seq<Candidate>, fates: seq<Fate>)
    requires |cands| <= |fates| && SetupError(circuit, cands, fates).None? && Quiet(circuit, cands, fates)
    ensures AllLast(circuit, cands, fates) <==> KeysAgreeByAddress(cands)
  {
    if KeysAgreeByAddress(cands) {
      forall i | 0 <= i < |cands|
        ensures Lasts(circuit, cands, fates, i)
      {
        QuietLastsAt(circuit, cands, fates, i);
      }
    }
    if AllLast(circuit, cands, fates) {
      var after := Replay(map[], SetupWrites(circuit, cands, fates));
      SetupAgreement(map[], circuit, cands, fates);
      forall i, j | 0 <= i < j < |cands| && AddrOf(cands[i].node) == AddrOf(cands[j].node)
        ensures cands[i].key == cands[j].key
      {
        OneKeyPerAddress(after, circuit, HopOf(cands[i]), HopOf(cands[j]));
      }
    }
  }

  lemma QuietLastsAt(circuit: CircuitId, cands: seq<Candidate>, fates: seq<Fate>, i: nat)
    requires i < |cands| <= |fates| && SetupError(circuit, cands, fates).None? && Quiet(circuit, cands, fates)
    requires KeysAgreeByAddress(cands)
    ensures Lasts(circuit, cands, fates, i)
  {
    var addr, later := AddrOf(cands[i].node), LaterWrites(circuit, cands, fates, i);
    LastKeyIsWritten(later, circuit, addr);
    if LastKey(later, circuit, addr).Some? {
      var w := Write(addr, circuit, LastKey(later, circuit, addr).value);
      ErrorFreeTail(circuit, cands, fates, i + 1);
      LaterWritesAre(circuit, cands, fates, i, w);
      var j :| i < j && FromHop(circuit, cands, fates, j, w);
    }
  }

  lemma OneKeyPerAddress(stores: Stores, circuit: CircuitId, a: Hop, b: Hop)
    requires a.addr == b.addr && HoldsAt(stores, circuit, a) && HoldsAt(stores, circuit, b)
    ensures a.key == b.key
  {
  }

  /**
   * With freshly drawn keys the condition is that the hops have pairwise distinct addresses and that
   * no POST given up earlier, and no other client's, lands at a hop after the hop's own.
   */
  lemma FreshLasts(circuit: CircuitId, cands: seq<Candidate>, fates: seq<Fate>)
    requires |cands| <= |fates| && SetupError(circuit, cands, fates).None? && FreshKeys(cands, fates)
    ensures AllLast(circuit, cands, fates) <==> DistinctAddresses(cands) && NoneLate(circuit, cands, fates)
  {
    forall i | 0 <= i < |cands|
      ensures Lasts(circuit, cands, fates, i) <==> Alone(circuit, cands, fates, i)
    {
      FreshLastsAt(circuit, cands, fates, i);
    }
    if forall i :: 0 <= i < |cands| ==> Alone(circuit, cands, fates, i) {
      forall i, j, w | 0 <= i <= j < |cands| && w in fates[j].meanwhile
        ensures !WritesAt(w, circuit, AddrOf(cands[i].node))
      {
        assert Alone(circuit, cands, fates, i);
        assert FromHop(circuit, cands, fates, j, w);
      }
      forall i, j | 0 <= i < j < |cands|
        ensures AddrOf(cands[i].node) != AddrOf(cands[j].node)
      {
        assert Alone(circuit, cands, fates, i);
        assert FromHop(circuit, cands, fates, j, OwnWrite(cands[j], circuit));
      }
    }
    if DistinctAddresses(cands) && NoneLate(circuit, cands, fates) {
      forall i | 0 <= i < |cands|
        ensures Alone(circuit, cands, fates, i)
      {
      }
    }
  }

  /** No later hop's POST, and nothing after this hop's, writes where this hop did. */
  ghost predicate Alone(circuit: CircuitId, cands: seq<Candidate>, fates: seq<Fate>, i: nat)
    requires i < |cands| <= |fates|
  {
    && (forall w :: w in fates[i].meanwhile ==> !WritesAt(w, circuit, AddrOf(cands[i].node)))
    && (forall j, w {:trigger FromHop(circuit, cands, fates, j, w)} ::
          i < j && FromHop(circuit, cands, fates, j, w) ==> !WritesAt(w, circuit, AddrOf(cands[i].node)))
  }

  lemma FreshLastsAt(circuit: CircuitId, cands: seq<Candidate>, fates: seq<Fate>, i: nat)
    requires i < |cands| <= |fates| && SetupError(circuit, cands, fates).None? && FreshKeys(cands, fates)
    ensures Lasts(circuit, cands, fates, i) <==> Alone(circuit, cands, fates, i)
  {
    var addr, later := AddrOf(cands[i].node), LaterWrites(circuit, cands, fates, i);
    ErrorFreeTail(circuit, cands, fates, i + 1);
    LastKeyIsWritten(later, circuit, addr);
    forall w
      ensures w in later <==> w in fates[i].meanwhile || exists j :: i < j && FromHop(circuit, cands, fates, j, w)
    {
      LaterWritesAre(circuit, cands, fates, i, w);
    }
  }

  /** The same of a path. */
  ghost predicate OneKeyPerAddr(path: seq<Hop>) {
    forall i, j :: 0 <= i < j < |path| && path[i].addr == path[j].addr ==> path[i].key == path[j].key
  }

  lemma HeldPath(stores: Stores, id: CircuitId, circuit: Circuit, keys: SessionKeys, hops: int)
    ensures Holds(stores, id, PathOf(circuit, keys, hops)) <==> AllHeld(stores, id, Candidates(circuit, keys, hops))
    ensures OneKeyPerAddr(PathOf(circuit, keys, hops)) <==> KeysAgreeByAddress(Candidates(circuit, keys, hops))
  {
    var cands, path := Candidates(circuit, keys, hops), PathOf(circuit, keys, hops);
    assert forall i :: 0 <= i < |cands| ==> path[i] == HopOf(cands[i]);
    if OneKeyPerAddr(path) {
      assert forall i, j :: 0 <= i < j < |cands| && AddrOf(cands[i].node) == AddrOf(cands[j].node) ==>
               path[i].addr == path[j].addr && path[i].key == path[j].key;
    }
    if Holds(stores, id, path) {
      forall i | 0 <= i < |cands|
        ensures HoldsAt(stores, id, HopOf(cands[i]))
      {
        assert HoldsAt(stores, id, path[i]);
      }
    }
  }

  function NodeAt(name: string, host: string, port: int): NodeRecord { NodeRecord(name, host, port, Pem(0)) }

  /** A POST that succeeds, and what lands after it. */
  function Succeeds(meanwhile: seq<Write>): Fate { Fate(Reached(0, true, ""), meanwhile) }

  /** A setup of three such POSTs at parsable nodes has no error. */
  lemma ThreeSucceed(id: CircuitId, circuit: Circuit, keys: SessionKeys, fates: seq<Fate>)
    requires id != "" && |keys.guard| == |keys.relay| == |keys.exit| == KEY_SIZE && |fates| == 3
    requires circuit.guard.publicKey == circuit.relay.publicKey == circuit.exit.publicKey == Pem(0)
    requires forall i :: 0 <= i < 3 ==> fates[i].outcome == Reached(0, true, "")
    ensures SetupError(id, Candidates(circuit, keys, 3), fates).None?
  {
    var cands := Candidates(circuit, keys, 3);
    assert SetupError(id, cands[1..][1..][1..], fates[1..][1..][1..]).None?;
    assert SetupError(id, cands[1..][1..], fates[1..][1..]).None?;
    assert SetupError(id, cands[1..], fates[1..]).None?;
  }

  /** Two nodes of different ids at one address: the setup reports success and the guard holds the exit's key. */
  lemma SharedAddressBreaksAgreement(id: CircuitId, keys: SessionKeys)
    requires id != "" && |keys.guard| == |keys.relay| == |keys.exit| == KEY_SIZE && keys.guard != keys.exit
    ensures var circuit := Circuit(NodeAt("g", "h", 80), NodeAt("r", "h", 81), NodeAt("x", "h", 80));
            var cands := Candidates(circuit, keys, 3);
            var fates := [Succeeds([]), Succeeds([]), Succeeds([])];
            && SetupError(id, cands, fates).None? && Quiet(id, cands, fates)
            && !AllHeld(Replay(map[], SetupWrites(id, cands, fates)), id, cands)
  {
    var circuit := Circuit(NodeAt("g", "h", 80), NodeAt("r", "h", 81), NodeAt("x", "h", 80));
    var cands := Candidates(circuit, keys, 3);
    var fates := [Succeeds([]), Succeeds([]), Succeeds([])];
    ThreeSucceed(id, circuit, keys, fates);
    SetupAgreement(map[], id, cands, fates);
    QuietLasts(id, cands, fates);
    assert AddrOf(cands[0].node) == AddrOf(cands[2].node);
  }

  function ThreeNodes(): Circuit { Circuit(NodeAt("g", "g", 80), NodeAt("r", "r", 80), NodeAt("x", "x", 80)) }

  lemma ThreeNodesApart(keys: SessionKeys)
    ensures DistinctAddresses(Candidates(ThreeNodes(), keys, 3))
  {
    var c := ThreeNodes();
    assert AddrOf(c.guard)[0] == 'g' && AddrOf(c.relay)[0] == 'r' && AddrOf(c.exit)[0] == 'x';
  }

  /** The first POST is given up, so the others are not made. */
  function GivenUp(): seq<Fate> { [Fate(Missed("timeout"), []), Succeeds([]), Succeeds([])] }

  /** All POSTs succeed, and `w` lands after the first. */
  function LandsLate(w: Write): seq<Fate> { [Succeeds([w]), Succeeds([]), Succeeds([])] }

  lemma LateKeyIsForeign(circuit: Circuit, keys: SessionKeys, w: Write)
    requires keys.guard != keys.relay && keys.relay != keys.exit && keys.exit != keys.guard
    requires w.key !in {keys.guard, keys.relay, keys.exit}
    ensures FreshKeys(Candidates(circuit, keys, 3), LandsLate(w))
  {
  }

  /**
   * Distinct addresses are not enough either. The first setup gives up on its POST to the guard;
   * the second, under the same id, has no error; then the POST given up lands and replaces the key.
   */
  lemma LatePostBreaksAgreement(stores: Stores, id: CircuitId, stale: SessionKeys, keys: SessionKeys)
    requires id != "" && |stale.guard| == |keys.guard| == |keys.relay| == |keys.exit| == KEY_SIZE
    requires keys.guard != keys.relay && keys.relay != keys.exit && keys.exit != keys.guard
    requires stale.guard !in {keys.guard, keys.relay, keys.exit}
    ensures var given, cands := Candidates(ThreeNodes(), stale, 3), Candidates(ThreeNodes(), keys, 3);
            var late := LandsLate(OwnWrite(given[0], id));
            && SetupError(id, given, GivenUp()).Some? && SetupError(id, cands, late).None? && DistinctAddresses(cands)
            && !AllHeld(Replay(stores, SetupWrites(id, given, GivenUp()) + SetupWrites(id, cands, late)), id, cands)
  {
    var given, cands := Candidates(ThreeNodes(), stale, 3), Candidates(ThreeNodes(), keys, 3);
    var w := OwnWrite(given[0], id);
    ThreeSucceed(id, ThreeNodes(), keys, LandsLate(w));
    ThreeNodesApart(keys);
    LateKeyIsForeign(ThreeNodes(), keys, w);
    LateBreaks(Replay(stores, SetupWrites(id, given, GivenUp())), id, cands, LandsLate(w), w);
    ReplayAppend(stores, SetupWrites(id, given, GivenUp()), SetupWrites(id, cands, LandsLate(w)));
  }

  lemma LateBreaks(stores: Stores, id: CircuitId, cands: seq<Candidate>, fates: seq<Fate>, late: Write)
    requires 0 < |cands| <= |fates| && SetupError(id, cands, fates).None? && FreshKeys(cands, fates)
    requires late in fates[0].meanwhile && WritesAt(late, id, AddrOf(cands[0].node))
    ensures !AllHeld(Replay(stores, SetupWrites(id, cands, fates)), id, cands)
  {
    SetupAgreement(stores, id, cands, fates);
    FreshLasts(id, cands, fates);
    assert !NoneLate(id, cands, fates);
  }

  // ---- Setups within a run of the network ----------------------------------------------------

  /** The keys that took effect in the first `m` steps of a run, in order. */
  function WritesOf(steps: seq<Step>, m: nat): seq<Write>
    requires m <= |steps|
  {
    if m == 0 then []
    else
      WritesOf(steps, m - 1)
      + match steps[m - 1]
        case WriteKey(addr, circuit, key) => [Write(addr, circuit, key)]
        case _ => []
  }

  /** The key stores of a run are its writes replayed, whatever other steps came in between. */
  lemma {:induction false} RunReplays(tr: seq<State>, steps: seq<Step>, m: nat)
    requires IsRun(tr, steps) && m <= |steps|
    ensures tr[m].stores == Replay(tr[0].stores, WritesOf(steps, m))
  {
    if m > 0 {
      RunReplays(tr, steps, m - 1);
      assert Leads(tr, steps, m - 1);
      var ws := WritesOf(steps, m - 1);
      if steps[m - 1].WriteKey? {
        assert WritesOf(steps, m)[..|ws|] == ws;
      } else {
        assert ws + [] == ws;
      }
    }
  }
}
