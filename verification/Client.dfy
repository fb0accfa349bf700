/** The Go client's call put together with the network it runs over. */
module Client {
  import opened Wrappers
  import opened Strings
  import opened Wire
  import opened Keys
  import opened Handlers
  import opened DataPlane
  import opened Onion
  import opened EndToEnd
  import opened RoundTrip
  import opened Circuits
  import opened Retry

  /** The effects brought about by the client calls in `roots`. */
  ghost function VisitsOf(s: State, roots: set<nat>): set<nat> {
    set d | 0 <= d < |s.effects| && s.effects[d].root in roots
  }

  ghost predicate OneVisitEach(s: State) {
    forall d, x :: 0 <= d < |s.effects| && 0 <= x < |s.effects| && s.effects[d].root == s.effects[x].root ==> d == x
  }

  lemma VisitsOfOne(s: State, r: nat)
    requires OneVisitEach(s)
    ensures |VisitsOf(s, {r})| <= 1
  {
    var visits := VisitsOf(s, {r});
    if visits != {} {
      var d :| d in visits;
      assert visits == {d};
    }
  }

  lemma {:induction false} VisitsCounted(s: State, roots: set<nat>)
    requires OneVisitEach(s)
    ensures |VisitsOf(s, roots)| <= |roots|
    decreases roots
  {
    if roots == {} {
      assert VisitsOf(s, roots) == {};
    } else {
      var r :| r in roots;
      VisitsOfOne(s, r);
      VisitsCounted(s, roots - {r});
      assert VisitsOf(s, roots) == VisitsOf(s, roots - {r}) + VisitsOf(s, {r});
    }
  }

  /** A client call that made these sends brought about at most one destination visit for each. */
  lemma VisitsAtMostSends(tr: seq<State>, steps: seq<Step>, s: State, roots: set<nat>)
    requires EndsIn(tr, steps, s)
    ensures |VisitsOf(s, roots)| <= |roots|
  {
    forall d, x | 0 <= d < |s.effects| && 0 <= x < |s.effects| && s.effects[d].root == s.effects[x].root
      ensures d == x
    {
      OneVisitPerSend(tr, steps, s, d, x);
    }
    VisitsCounted(s, roots);
  }

  /** How many of these attempts found a circuit and set up all its keys. */
  function SetupCount(inputs: seq<Attempt>, id: CircuitId, hops: int): nat
    requires AllGood(inputs)
  {
    if inputs == [] then 0
    else SetupCount(inputs[..|inputs| - 1], id, hops) + if SetsUp(inputs[|inputs| - 1], id, hops) then 1 else 0
  }

  lemma TrySends(tries: seq<Tried>, inputs: seq<Attempt>, id: CircuitId, e: ExitLayer, hops: int, n: nat)
    requires AllGood(inputs) && AreTries(tries, inputs, id, e, hops) && n < |inputs|
    ensures |tries[n].onions| == if SetsUp(inputs[n], id, hops) then 1 else 0
    ensures tries[n].end.Done? ==> tries[n].onions != []
  {
    assert IsTry(tries[n], inputs[n], id, e, hops);
  }

  lemma TriesPrefix(tries: seq<Tried>, inputs: seq<Attempt>, id: CircuitId, e: ExitLayer, hops: int, n: nat)
    requires AllGood(inputs) && AreTries(tries, inputs, id, e, hops) && n <= |inputs|
    ensures AreTries(tries[..n], inputs[..n], id, e, hops)
  {
  }

  /** A call sends one onion for each attempt that set up its keys; a call with a response sent one last. */
  lemma {:induction false} OnionsCounted(tries: seq<Tried>, inputs: seq<Attempt>, id: CircuitId, e: ExitLayer, hops: int)
    requires AllGood(inputs) && AreTries(tries, inputs, id, e, hops)
    ensures |OnionsSent(tries)| == SetupCount(inputs, id, hops) <= |inputs|
    ensures tries != [] && tries[|tries| - 1].end.Done? ==> OnionsSent(tries) != []
    decreases |tries|
  {
    if tries != [] {
      var n := |tries| - 1;
      TrySends(tries, inputs, id, e, hops, n);
      TriesPrefix(tries, inputs, id, e, hops, n);
      OnionsCounted(tries[..n], inputs[..n], id, e, hops);
    }
  }

  /**
   * The decryption error of the client is never met: a 200 from the network for the onion of an
   * attempt always peels to what the destination answered to this send.
   */
  lemma NetworkRepliesDecrypt(tr: seq<State>, steps: seq<Step>, s: State, r: nat, a: Attempt, id: CircuitId, e: ExitLayer,
                             hops: int)
    requires EndsIn(tr, steps, s) && Succeeded(s, r)
    requires ValidHops(hops) && GoodAttempt(a) && SetsUp(a, id, hops)
    requires s.calls[r].payload == OnionOf(a, e, hops) && a.send == SendOk(s.calls[r].stage.reply.payload)
    ensures var end := Try(a, id, e, hops).end;
            end.Done? && Effect(s.calls[r].root, e, Answer(end.response)) in s.effects
  {
    var c := a.dir.circuit;
    var guard, relay, exit := Hop(AddrOf(c.guard), a.keys.guard), Hop(AddrOf(c.relay), a.keys.relay), Hop(AddrOf(c.exit), a.keys.exit);
    CodedBuildIsRecursive(guard, relay, exit, e, hops, [a.guardNonce, a.relayNonce, a.exitNonce]);
    assert PathOf(c, a.keys, hops) == CodedPath(guard, relay, exit, hops);
    CodedClientGetsItsAnswer(tr, steps, s, r, guard, relay, exit, e, hops, [a.guardNonce, a.relayNonce, a.exitNonce]);
  }

  // ---- One whole call over the network --------------------------------------------------------

  /** The network call `r` is the attempt's send: a client's own, at the guard, with the attempt's onion. */
  predicate IsSend(s: State, r: nat, t: Tried, id: CircuitId) {
    && r < |s.calls| && s.calls[r].root == r && s.calls[r].circuit == id
    && t.circuit.Some? && s.calls[r].addr == AddrOf(t.circuit.value.guard) && t.onions == [s.calls[r].payload]
  }

  /** A reply the client decoded is that of its send. */
  predicate IsAnswered(s: State, send: Option<nat>, a: Attempt) {
    send.Some? && Succeeded(s, send.value) && a.send == SendOk(s.calls[send.value].stage.reply.payload)
  }

  /**
   * `sends[i]` is the network call that attempt `i + 1` made, if its onion reached a node at all.
   * Different attempts make different calls, and what the client decoded came back from its own.
   */
  ghost predicate SendsOf(s: State, sends: seq<Option<nat>>, tries: seq<Tried>, inputs: seq<Attempt>, id: CircuitId)
    requires |tries| == |inputs|
  {
    && |sends| == Made(tries)
    && (forall i :: 0 <= i < |sends| && sends[i].Some? ==> IsSend(s, sends[i].value, tries[i], id))
    && (forall i, j :: 0 <= i < j < |sends| && sends[i].Some? ==> sends[i] != sends[j])
    && (forall i :: 0 <= i < |sends| && tries[i].onions != [] && inputs[i].send.SendOk? ==> IsAnswered(s, sends[i], inputs[i]))
  }

  ghost function RootsOf(sends: seq<Option<nat>>): set<nat> {
    set i | 0 <= i < |sends| && sends[i].Some? :: sends[i].value
  }

  lemma {:induction false} RootsCounted(sends: seq<Option<nat>>, tries: seq<Tried>)
    requires |sends| == |tries| && forall i :: 0 <= i < |sends| && sends[i].Some? ==> tries[i].onions != []
    ensures |RootsOf(sends)| <= |OnionsSent(tries)|
    decreases |sends|
  {
    if sends != [] {
      var n := |sends| - 1;
      RootsCounted(sends[..n], tries[..n]);
      assert RootsOf(sends) == RootsOf(sends[..n]) + if sends[n].Some? then {sends[n].value} else {};
    } else {
      assert RootsOf(sends) == {};
    }
  }

  /** The deciding attempt of a call that returns a response was sent, and its destination gave that response. */
  lemma ResponseWasVisited(tr: seq<State>, steps: seq<Step>, s: State, sends: seq<Option<nat>>,
                           tries: seq<Tried>, inputs: seq<Attempt>, id: CircuitId, e: ExitLayer, hops: int)
    returns (r: nat)
    requires EndsIn(tr, steps, s) && ValidHops(hops) && AllGood(inputs) && AreTries(tries, inputs, id, e, hops)
    requires SendsOf(s, sends, tries, inputs, id)
    requires Retried(tries) < |tries| && tries[Retried(tries)].end.Done?
    ensures r in RootsOf(sends) && Effect(r, e, Answer(tries[Retried(tries)].end.response)) in s.effects
  {
    var n := Retried(tries);
    assert IsTry(tries[n], inputs[n], id, e, hops);
    assert IsAnswered(s, sends[n], inputs[n]);
    r := sends[n].value;
    assert IsSend(s, r, tries[n], id);
    NetworkRepliesDecrypt(tr, steps, s, r, inputs[n], id, e, hops);
  }

  /**
   * Destination effects of one whole client call are bounded on both sides: at most one visit for
   * each attempt whose setup succeeded, and, if the call returns a response, at least the visit that
   * gave this response.
   */
  lemma CallVisits(tr: seq<State>, steps: seq<Step>, s: State, sends: seq<Option<nat>>,
                   tries: seq<Tried>, inputs: seq<Attempt>, id: CircuitId, e: ExitLayer, hops: int)
    requires EndsIn(tr, steps, s) && ValidHops(hops) && AllGood(inputs) && AreTries(tries, inputs, id, e, hops)
    requires SendsOf(s, sends, tries, inputs, id)
    ensures |VisitsOf(s, RootsOf(sends))| <= SetupCount(inputs[..Made(tries)], id, hops) <= |inputs|
    ensures Retried(tries) < |tries| && tries[Retried(tries)].end.Done? ==>
              && |VisitsOf(s, RootsOf(sends))| >= 1
              && exists r :: r in RootsOf(sends) && Effect(r, e, Answer(tries[Retried(tries)].end.response)) in s.effects
  {
    var made := Made(tries);
    VisitsAtMostSends(tr, steps, s, RootsOf(sends));
    RootsCounted(sends, tries[..made]);
    TriesPrefix(tries, inputs, id, e, hops, made);
    OnionsCounted(tries[..made], inputs[..made], id, e, hops);
    if Retried(tries) < |tries| && tries[Retried(tries)].end.Done? {
      var r := ResponseWasVisited(tr, steps, s, sends, tries, inputs, id, e, hops);
      SomeVisit(s, RootsOf(sends), Effect(r, e, Answer(tries[Retried(tries)].end.response)));
    }
  }

  lemma SomeVisit(s: State, roots: set<nat>, effect: Effect)
    requires effect in s.effects && effect.root in roots
    ensures |VisitsOf(s, roots)| >= 1
  {
    var d :| 0 <= d < |s.effects| && s.effects[d] == effect;
    assert d in VisitsOf(s, roots);
  }

  // ---- Keys after retries ----------------------------------------------------------------------

  /** The hops of attempt `n + 1`. */
  function Used(inputs: seq<Attempt>, n: nat, hops: int): seq<Candidate>
    requires n < |inputs| && inputs[n].dir.DirAnswers?
  {
    Candidates(inputs[n].dir.circuit, inputs[n].keys, hops)
  }

  /**
   * Leftover keys are harmless in the retry loop. After the attempt that sets up its keys, whatever
   * the attempts before it left under the same circuit id, its hops hold the keys the client sends
   * with exactly when nothing that landed after a hop's own POST ends with another key there. Left
   * alone, that is when hops that share an address share a key; with fresh keys, when the addresses
   * are distinct and no POST given up earlier landed late.
   */
  lemma RetriedSetupAgreement(stores: Stores, id: CircuitId, inputs: seq<Attempt>, n: nat, hops: int)
    requires AllGood(inputs) && n < |inputs| && ValidHops(hops) && SetsUp(inputs[n], id, hops)
    ensures var cands, fates := Used(inputs, n, hops), inputs[n].fates;
            var held := Holds(Replay(stores, CallWrites(id, inputs[..n + 1], hops)), id, PathOf(inputs[n].dir.circuit, inputs[n].keys, hops));
            && (held <==> AllLast(id, cands, fates))
            && (Quiet(id, cands, fates) ==> (held <==> KeysAgreeByAddress(cands)))
            && (FreshKeys(cands, fates) ==> (held <==> DistinctAddresses(cands) && NoneLate(id, cands, fates)))
  {
    var a := inputs[n];
    var cands := Used(inputs, n, hops);
    var before := CallWrites(id, inputs[..n], hops);
    assert inputs[..n + 1][..n] == inputs[..n];
    ReplayAppend(stores, before, AttemptWrites(id, a, hops));
    SetupAgreement(Replay(stores, before), id, cands, a.fates);
    HeldPath(Replay(stores, CallWrites(id, inputs[..n + 1], hops)), id, a.dir.circuit, a.keys, hops);
    if Quiet(id, cands, a.fates) {
      QuietLasts(id, cands, a.fates);
    }
    if FreshKeys(cands, a.fates) {
      FreshLasts(id, cands, a.fates);
    }
  }

  lemma AddressesAreNotEmpty(circuit: Circuit, keys: SessionKeys, hops: int)
    requires GoodKeys(keys)
    ensures GoodPath(PathOf(circuit, keys, hops))
  {
  }

  /**
   * Up to step `m` of the run, the keys that took effect are those of the time before the call, in
   * any number, and then those of its attempts up to the send of attempt `n + 1`, with whatever else
   * landed in between.
   */
  ghost predicate CallLeads(steps: seq<Step>, m: nat, earlier: seq<Write>, id: CircuitId, inputs: seq<Attempt>, n: nat, hops: int)
    requires m <= |steps| && AllGood(inputs) && n < |inputs|
  {
    WritesOf(steps, m) == earlier + CallWrites(id, inputs[..n + 1], hops)
  }

  /** At its send, the nodes of a run hold an attempt's keys exactly under the condition on late landings. */
  lemma RunSetupAgreement(tr: seq<State>, steps: seq<Step>, m: nat, earlier: seq<Write>,
                          id: CircuitId, inputs: seq<Attempt>, n: nat, hops: int)
    requires IsRun(tr, steps) && m <= |steps|
    requires AllGood(inputs) && n < |inputs| && ValidHops(hops) && SetsUp(inputs[n], id, hops)
    requires CallLeads(steps, m, earlier, id, inputs, n, hops)
    ensures Holds(tr[m].stores, id, PathOf(inputs[n].dir.circuit, inputs[n].keys, hops))
            <==> AllLast(id, Used(inputs, n, hops), inputs[n].fates)
  {
    RunReplays(tr, steps, m);
    ReplayAppend(tr[0].stores, earlier, CallWrites(id, inputs[..n + 1], hops));
    RetriedSetupAgreement(Replay(tr[0].stores, earlier), id, inputs, n, hops);
  }

  /**
   * The whole round trip of an attempt, its setup POSTs and its send being steps of one run. If its
   * setup had no error, nothing that landed late replaced a key of its hops before the send or does
   * so after it, and the hops have fitting roles, then a finished send returned the destination's
   * answer, unless one of its calls was lost or the destination failed.
   */
  lemma AttemptRoundTrip(tr: seq<State>, steps: seq<Step>, s: State, m: nat, earlier: seq<Write>,
                         id: CircuitId, inputs: seq<Attempt>, n: nat, e: ExitLayer, hops: int)
    requires EndsIn(tr, steps, s) && m < |steps|
    requires id != "" && GoodRequest(e) && ValidHops(hops)
    requires AllGood(inputs) && n < |inputs| && SetsUp(inputs[n], id, hops)
    requires CallLeads(steps, m, earlier, id, inputs, n, hops) && AllLast(id, Used(inputs, n, hops), inputs[n].fates)
    requires var a, path := inputs[n], PathOf(inputs[n].dir.circuit, inputs[n].keys, hops);
             && RolesFit(tr[m].roles, path)
             && steps[m] == Send(AddrOf(a.dir.circuit.guard), id, OnionOf(a, e, hops))
             && forall j :: m <= j < |steps| ==> Spares(steps[j], id, path)
    ensures var a, r := inputs[n], |tr[m].calls|;
            && r < |s.calls| && s.calls[r].root == r
            && (s.calls[r].stage.Finished? ==> GotAnswer(s, r, PathOf(a.dir.circuit, a.keys, hops), e) || Troubled(s, r))
  {
    var a := inputs[n];
    RunSetupAgreement(tr, steps, m, earlier, id, inputs, n, hops);
    AddressesAreNotEmpty(a.dir.circuit, a.keys, hops);
    SendOverHeldKeys(tr, steps, s, m, id, PathOf(a.dir.circuit, a.keys, hops),
                     [a.guardNonce, a.relayNonce, a.exitNonce], e, ExitDoc(e));
  }

  // ---- Blame -----------------------------------------------------------------------------------

  /** Every send failure names its guard, so the log blames the guard whichever hop it was. */
  lemma SendFailureBlamesGuard(circuit: Circuit, msg: string)
    ensures IdentifyFailedHop(Some(SendFailure(DirAnswers(circuit), msg)), Some(circuit)) == ("guard", circuit.guard.nodeID)
  {
    var pre := "send onion request via guard ";
    var id := circuit.guard.nodeID;
    assert pre[23..28] == "guard";
    assert 0 <= 23 <= |pre| && OccursAt(pre, "guard", 23);
    ContainsInHead(pre, id, "guard");
    ContainsInHead(pre + id, ": ", "guard");
    ContainsInHead(pre + id + ": ", msg, "guard");
  }

  /** The text of a setup failure, as the retry loop sees it. */
  function SetupFailure(c: Candidate, fate: Fate): string { "establish session keys: " + HopError(c, fate) }

  /** The text speaks of a hop: by the hop's name or by its node's id. */
  predicate Mentions(text: string, name: string, node: NodeRecord) {
    Contains(text, name) || (node.nodeID != "" && Contains(text, node.nodeID))
  }

  function HopName(k: nat): string { if k == 0 then "guard" else if k == 1 then "relay" else "exit" }

  /** The text speaks of no hop before hop `k`. */
  ghost predicate NoneBefore(text: string, cands: seq<Candidate>, k: nat)
    requires k <= |cands|
  {
    forall j :: 0 <= j < k ==> !Mentions(text, HopName(j), cands[j].node)
  }

  /**
   * An attempt whose setup fails is retried with the error of the first hop that did not open its
   * key. That hop is blamed exactly when the text speaks of no hop before it: always at the guard,
   * and not if, say, the exit's host name contains "relay".
   */
  lemma SetupFailureBlame(a: Attempt, id: CircuitId, e: ExitLayer, hops: int) returns (k: nat, text: string)
    requires GoodAttempt(a) && FindsCircuit(a, hops) && !SetsUp(a, id, hops)
    ensures var cands := Candidates(a.dir.circuit, a.keys, hops);
            && k < |cands| && !Opened(id, cands[k], a.fates[k])
            && (forall i :: 0 <= i < k ==> Opened(id, cands[i], a.fates[i]))
            && text == SetupFailure(cands[k], a.fates[k]) && Try(a, id, e, hops).end == Again(text)
            && (IdentifyFailedHop(Some(text), Some(a.dir.circuit)) == (HopName(k), cands[k].node.nodeID)
                <==> NoneBefore(text, cands, k))
  {
    var cands := Candidates(a.dir.circuit, a.keys, hops);
    k := FirstToFail(id, cands, a.fates);
    text := SetupFailure(cands[k], a.fates[k]);
    AcceptedCircuits(a.dir, hops, a.keys);
    HopErrorNamesNode(cands[k], a.fates[k]);
    BlameFirstMentioned(text, a.dir.circuit, cands, k);
  }

  /** Of a text that speaks of hop `k`, that hop is blamed exactly when it speaks of none before. */
  lemma BlameFirstMentioned(text: string, c: Circuit, cands: seq<Candidate>, k: nat)
    requires k < |cands| <= 3 && cands[0].node == c.guard && (|cands| > 1 ==> cands[1].node == c.relay)
    requires |cands| > 2 ==> cands[2].node == c.exit
    requires forall i :: 0 <= i < |cands| ==> cands[i].node.nodeID != ""
    requires Mentions(text, HopName(k), cands[k].node)
    ensures IdentifyFailedHop(Some(text), Some(c)) == (HopName(k), cands[k].node.nodeID) <==> NoneBefore(text, cands, k)
  {
    assert k > 0 ==> (Mentions(text, HopName(0), cands[0].node) ==> IdentifyFailedHop(Some(text), Some(c)).0 == "guard");
  }

  /** Nobody is blamed exactly for a text that speaks of no hop. */
  lemma UnknownHop(text: string, c: Circuit)
    requires c.guard.nodeID != ""
    ensures IdentifyFailedHop(Some(text), Some(c)) == ("unknown", "") <==>
            !Mentions(text, "guard", c.guard) && !Mentions(text, "relay", c.relay) && !Mentions(text, "exit", c.exit)
  {
  }

  lemma HopErrorNamesNode(c: Candidate, fate: Fate)
    ensures Contains(SetupFailure(c, fate), c.node.nodeID)
  {
    var id := c.node.nodeID;
    ContainsSelf(id);
    if c.node.publicKey.Unparsable? {
      ContainsInTail("parse public key for node ", id, id);
    } else {
      ContainsInTail("setup key for node ", id, id);
      ContainsInHead("setup key for node " + id, ": ", id);
      ContainsInHead("setup key for node " + id + ": ", fate.outcome.msg, id);
    }
    ContainsInTail("establish session keys: ", HopError(c, fate), id);
  }
}
