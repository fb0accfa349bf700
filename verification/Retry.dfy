/** The Go client's request: up to a limit of circuits under one circuit id, with a log of rebuilds. */
module Retry {
  import opened Wrappers
  import opened Strings
  import opened Wire
  import opened Keys
  import opened DataPlane
  import opened Onion
  import opened Circuits

  const DEFAULT_MAX_CIRCUIT_ATTEMPTS := 3

  datatype SendReply =
    | SendError(msg: string)
    | SendStatus(code: int, msg: string)
    | SendUndecodable(msg: string)
    | SendOk(payload: Bytes)

  /** What one attempt meets outside the client. */
  datatype Attempt = Attempt(dir: DirReply, keys: SessionKeys, fates: seq<Fate>,
                             guardNonce: Nonce, relayNonce: Nonce, exitNonce: Nonce, send: SendReply)

  datatype RebuildEvent = RebuildEvent(
    timestamp: int, attempt: int, failedHop: string, failedNodeID: string, cause: string,
    rebuildDoneAt: int, rebuildMs: int, success: bool)

  /** Times are in nanoseconds; `clock(i)` is the i-th reading of the clock. */
  type Clock = nat -> int

  class CircuitResult {
    var response: Option<ExitResponse>
    var rebuildEvents: seq<RebuildEvent>

    constructor ()
      ensures response.None? && rebuildEvents == []
    {
      response, rebuildEvents := None, [];
    }
  }

  function IdentifyFailedHop(err: Option<string>, circuit: Option<Circuit>): (string, string) {
    if err.None? || circuit.None? then ("unknown", "")
    else
      var msg, c := err.value, circuit.value;
      if Contains(msg, "guard") || Contains(msg, c.guard.nodeID) then ("guard", c.guard.nodeID)
      else if Contains(msg, "relay") || (c.relay.nodeID != "" && Contains(msg, c.relay.nodeID)) then ("relay", c.relay.nodeID)
      else if Contains(msg, "exit") || (c.exit.nodeID != "" && Contains(msg, c.exit.nodeID)) then ("exit", c.exit.nodeID)
      else ("unknown", "")
  }

  function SendOnion(reply: SendReply): Result<Bytes, string> {
    match reply
    case SendError(msg) => Err("POST /onion: " + msg)
    case SendStatus(code, msg) => if code == 200 then Err("decode onion response: " + msg) else Err("POST /onion returned " + Decimal(code) + msg)
    case SendUndecodable(msg) => Err("decode onion response: " + msg)
    case SendOk(payload) => Ok(payload)
  }

  // ---- One attempt ---------------------------------------------------------------------------

  /** How an attempt ends: with the response, with an error that is retried, or with one that is not. */
  datatype End = Done(response: ExitResponse) | Again(err: string) | Stop(err: string)

  /** What one attempt came to: its end, the circuit it found, and the onion it sent, if any. */
  datatype Tried = Tried(end: End, circuit: Option<Circuit>, onions: seq<Bytes>)

  predicate GoodKeys(keys: SessionKeys) {
    |keys.guard| == KEY_SIZE && |keys.relay| == KEY_SIZE && |keys.exit| == KEY_SIZE
  }

  /** Keys are drawn into 32-byte buffers, and each of up to three POSTs has a fate. */
  predicate GoodAttempt(a: Attempt) { GoodKeys(a.keys) && |a.fates| >= 3 }

  predicate AllGood(inputs: seq<Attempt>) { forall i :: 0 <= i < |inputs| ==> GoodAttempt(inputs[i]) }

  predicate FindsCircuit(a: Attempt, hops: int) { GetCircuitWithHops(a.dir, hops).Ok? }

  predicate SetsUp(a: Attempt, id: CircuitId, hops: int)
    requires GoodAttempt(a)
  {
    FindsCircuit(a, hops) && SetupError(id, Candidates(a.dir.circuit, a.keys, hops), a.fates).None?
  }

  /** The onion an attempt sends once its keys are in place. */
  function OnionOf(a: Attempt, e: ExitLayer, hops: int): Bytes
    requires GoodAttempt(a) && FindsCircuit(a, hops)
  {
    Build(PathOf(a.dir.circuit, a.keys, hops), [a.guardNonce, a.relayNonce, a.exitNonce], ExitDoc(e))
  }

  /** The reply part of an attempt: send errors are retried, decryption errors are not. */
  function EndOfSend(a: Attempt, hops: int): End {
    match SendOnion(a.send)
    case Err(msg) => Again(SendFailure(a.dir, msg))
    case Ok(payload) =>
      match DecryptResponseWithHops(a.keys.guard, a.keys.relay, a.keys.exit, payload, hops)
      case Ok(response) => Done(response)
      case Err(msg) => Stop("decrypt circuit response: " + msg)
  }

  function Try(a: Attempt, id: CircuitId, e: ExitLayer, hops: int): Tried
    requires GoodAttempt(a)
  {
    if !FindsCircuit(a, hops) then
      Tried(Stop("get circuit from directory server: " + GetCircuitWithHops(a.dir, hops).error), None, [])
    else if !SetsUp(a, id, hops) then
      Tried(Again("establish session keys: " + SetupError(id, Candidates(a.dir.circuit, a.keys, hops), a.fates).value),
            Some(a.dir.circuit), [])
    else
      Tried(EndOfSend(a, hops), Some(a.dir.circuit), [OnionOf(a, e, hops)])
  }

  /**
   * How an attempt ends. It is retried exactly if it found a circuit and then lacked a setup without
   * error or a decodable 200; it is done exactly if it had both and the keys of its path peel the
   * payload, and then with what they peel; everything else ends the call.
   */
  lemma AttemptEnds(a: Attempt, id: CircuitId, e: ExitLayer, hops: int)
    requires GoodAttempt(a) && ValidHops(hops)
    ensures Try(a, id, e, hops).end.Again? <==> WorthRetrying(a, id, hops)
    ensures Try(a, id, e, hops).end.Done? <==> Responds(a, id, hops)
    ensures Try(a, id, e, hops).end.Done? ==> Peeled(a, hops) == Ok(Try(a, id, e, hops).end.response)
    ensures SetsUp(a, id, hops) && !a.send.SendOk? ==>
              Try(a, id, e, hops).end == Again(SendFailure(a.dir, SendOnion(a.send).error))
  {
    if SetsUp(a, id, hops) && a.send.SendOk? {
      PeeledByCode(a, hops);
    }
  }

  /** What the keys of the attempt's path make of the payload that came back. */
  function Peeled(a: Attempt, hops: int): Result<ExitResponse, string>
    requires a.dir.DirAnswers? && a.send.SendOk?
  {
    PeelReply(KeysOf(PathOf(a.dir.circuit, a.keys, hops)), a.send.payload)
  }

  lemma PeeledByCode(a: Attempt, hops: int)
    requires ValidHops(hops) && a.dir.DirAnswers? && a.send.SendOk?
    ensures SameUpToError(DecryptResponseWithHops(a.keys.guard, a.keys.relay, a.keys.exit, a.send.payload, hops), Peeled(a, hops))
  {
    assert KeysOf(PathOf(a.dir.circuit, a.keys, hops)) == if hops == 1 then [a.keys.guard] else [a.keys.guard, a.keys.relay, a.keys.exit];
    CodedPeelIsRecursive(a.keys.guard, a.keys.relay, a.keys.exit, a.send.payload, hops);
  }

  /** The attempt set up its keys and its send brought a 200 that the keys of its path peel. */
  predicate Responds(a: Attempt, id: CircuitId, hops: int)
    requires GoodAttempt(a)
  {
    SetsUp(a, id, hops) && a.send.SendOk? && Peeled(a, hops).Ok?
  }

  /** The attempt found a circuit, and then its setup failed or its send brought no decodable 200. */
  predicate WorthRetrying(a: Attempt, id: CircuitId, hops: int)
    requires GoodAttempt(a)
  {
    FindsCircuit(a, hops) && (!SetsUp(a, id, hops) || !a.send.SendOk?)
  }

  predicate IsTry(t: Tried, a: Attempt, id: CircuitId, e: ExitLayer, hops: int)
    requires GoodAttempt(a)
  {
    t == Try(a, id, e, hops)
  }

  /** `tries[i]` is what attempt `i + 1` comes to. */
  ghost predicate AreTries(tries: seq<Tried>, inputs: seq<Attempt>, id: CircuitId, e: ExitLayer, hops: int)
    requires AllGood(inputs)
  {
    && |tries| == |inputs|
    && forall i {:trigger IsTry(tries[i], inputs[i], id, e, hops)} :: 0 <= i < |tries| ==> IsTry(tries[i], inputs[i], id, e, hops)
  }

  lemma TriesOf(inputs: seq<Attempt>, id: CircuitId, e: ExitLayer, hops: int) returns (tries: seq<Tried>)
    requires AllGood(inputs)
    ensures AreTries(tries, inputs, id, e, hops)
  {
    tries := seq(|inputs|, i requires 0 <= i < |inputs| => Try(inputs[i], id, e, hops));
  }

  function SendFailure(dir: DirReply, msg: string): string {
    "send onion request via guard " + (if dir.DirAnswers? then dir.circuit.guard.nodeID else "") + ": " + msg
  }

  // ---- The whole call ------------------------------------------------------------------------

  /** The number of leading attempts that are retried. */
  function Retried(tries: seq<Tried>): (n: nat)
    ensures n <= |tries|
    ensures forall i :: 0 <= i < n ==> tries[i].end.Again?
    ensures n < |tries| ==> !tries[n].end.Again?
  {
    if tries == [] || !tries[0].end.Again? then 0 else 1 + Retried(tries[1..])
  }

  /** The number of attempts made: those retried, and the one after them if there is one. */
  function Made(tries: seq<Tried>): (n: nat)
    ensures n <= |tries|
  {
    if Retried(tries) < |tries| then Retried(tries) + 1 else |tries|
  }

  /** The writes to key stores, the call's own and others, from its first POST to the end of these attempts. */
  function CallWrites(id: CircuitId, inputs: seq<Attempt>, hops: int): seq<Write>
    requires AllGood(inputs)
  {
    if inputs == [] then []
    else CallWrites(id, inputs[..|inputs| - 1], hops) + AttemptWrites(id, inputs[|inputs| - 1], hops)
  }

  function AttemptWrites(id: CircuitId, a: Attempt, hops: int): seq<Write>
    requires GoodAttempt(a)
  {
    if FindsCircuit(a, hops) then SetupWrites(id, Candidates(a.dir.circuit, a.keys, hops), a.fates) else []
  }

  /** The onions these attempts send: one for each whose setup succeeded, no other. */
  function OnionsSent(tries: seq<Tried>): seq<Bytes> {
    if tries == [] then [] else OnionsSent(tries[..|tries| - 1]) + tries[|tries| - 1].onions
  }

  /** Event `i` is about the failure of attempt `i + 1` and about the rebuild that is attempt `i + 2`. */
  predicate EventDescribes(evt: RebuildEvent, i: nat, t: Tried) {
    && evt.attempt == i + 2
    && t.end.Again? && evt.cause == t.end.err
    && (evt.failedHop, evt.failedNodeID) == IdentifyFailedHop(Some(evt.cause), t.circuit)
  }

  /** One event per failed attempt, in order; only the rebuild that succeeded, if any, says so. */
  ghost predicate LogDescribes(events: seq<RebuildEvent>, tries: seq<Tried>, done: bool) {
    && |events| <= |tries|
    && (forall i {:trigger EventDescribes(events[i], i, tries[i])} :: 0 <= i < |events| ==> EventDescribes(events[i], i, tries[i]))
    && (forall i :: 0 <= i < |events| ==> (events[i].success <==> done && i == |events| - 1))
  }

  /** Whole milliseconds, rounded towards zero. */
  function Milliseconds(d: int): int { if d >= 0 then d / 1_000_000 else -(-d / 1_000_000) }

  ghost predicate Monotone(clock: Clock) {
    forall i: nat, j: nat :: i <= j ==> clock(i) <= clock(j)
  }

  /** The recorded whole milliseconds reach to the end of the event, up to rounding, and not beyond `bound`. */
  predicate Measures(evt: RebuildEvent, bound: int) {
    evt.rebuildDoneAt < evt.timestamp + (evt.rebuildMs + 1) * 1_000_000 && evt.timestamp + evt.rebuildMs * 1_000_000 <= bound
  }

  /** Events span disjoint intervals in order, none after `now`, also by their recorded durations. */
  ghost predicate Ordered(events: seq<RebuildEvent>, now: int) {
    && (forall i :: 0 <= i < |events| ==> events[i].timestamp <= events[i].rebuildDoneAt <= now)
    && (forall i :: 0 <= i < |events| ==> Measures(events[i], now))
    && (forall i, j :: 0 <= i < j < |events| ==>
          events[i].rebuildDoneAt <= events[j].timestamp && Measures(events[i], events[j].timestamp))
  }

  /** One attempt. The circuit id is the same for every attempt; the session keys are new. */
  method TryCircuit(net: Network, circuitID: CircuitId, e: ExitLayer, hops: int, inputs: seq<Attempt>, n: nat,
                    ghost before: Stores, ghost tries: seq<Tried>)
    returns (tried: Tried)
    requires AllGood(inputs) && n < |inputs| && AreTries(tries, inputs, circuitID, e, hops)
    requires net.stores == Replay(before, CallWrites(circuitID, inputs[..n], hops))
    modifies net
    ensures net.stores == Replay(before, CallWrites(circuitID, inputs[..n + 1], hops))
    ensures tried == tries[n]
    ensures OnionsSent(tries[..n + 1]) == OnionsSent(tries[..n]) + tried.onions
  {
    var a := inputs[n];
    assert IsTry(tries[n], a, circuitID, e, hops);
    ReplayAppend(before, CallWrites(circuitID, inputs[..n], hops), AttemptWrites(circuitID, a, hops));
    assert inputs[..n + 1][..n] == inputs[..n] && tries[..n + 1][..n] == tries[..n];
    var fetched := GetCircuitWithHops(a.dir, hops);
    if fetched.Err? {
      return Tried(Stop("get circuit from directory server: " + fetched.error), None, []);
    }
    var circuit := fetched.value;
    var keys := net.SetupCircuitWithHops(circuitID, circuit, hops, a.keys, a.fates);
    if keys.Err? {
      return Tried(Again("establish session keys: " + keys.error), Some(circuit), []);
    }
    tried := SendAndPeel(circuit, circuitID, keys.value, e, hops, a);
  }

  method SendAndPeel(circuit: Circuit, circuitID: CircuitId, k: SessionKeys, e: ExitLayer, hops: int, a: Attempt) returns (tried: Tried)
    requires GoodAttempt(a) && SetsUp(a, circuitID, hops) && circuit == a.dir.circuit
    requires k == if hops == 1 then SessionKeys(a.keys.guard, [], []) else a.keys
    ensures tried == Try(a, circuitID, e, hops)
  {
    CodedOnion(a, e, hops);
    var payload := BuildOnionWithHops(k.guard, k.relay, k.exit, e, AddrOf(circuit.relay), AddrOf(circuit.exit), hops,
                                      a.guardNonce, a.relayNonce, a.exitNonce);
    var onions := [payload.value];
    var reply := SendOnion(a.send);
    if reply.Err? {
      return Tried(Again("send onion request via guard " + circuit.guard.nodeID + ": " + reply.error), Some(circuit), onions);
    }
    var response := DecryptResponseWithHops(k.guard, k.relay, k.exit, reply.value, hops);
    if response.Err? {
      return Tried(Stop("decrypt circuit response: " + response.error), Some(circuit), onions);
    }
    tried := Tried(Done(response.value), Some(circuit), onions);
  }

  /** The log while a rebuild is under way: closed events, then one opened at clock reading `start`. */
  ghost predicate OpenLog(events: seq<RebuildEvent>, tries: seq<Tried>, clock: Clock, start: nat) {
    && 0 < |events| <= |tries|
    && var n := |events| - 1;
       && LogDescribes(events[..n], tries, false)
       && (Monotone(clock) ==> Ordered(events[..n], clock(start)))
       && EventDescribes(events[n], n, tries[n])
       && events[n].timestamp == clock(start)
  }

  /** Append the event of a rebuild that starts now, blaming a hop of the circuit that failed. */
  method Open(result: CircuitResult, lastErr: string, lastCircuit: Option<Circuit>, attempt: int,
              ghost tries: seq<Tried>, clock: Clock, start: nat)
    requires |result.rebuildEvents| < |tries| && attempt == |result.rebuildEvents| + 2
    requires LogDescribes(result.rebuildEvents, tries, false)
    requires Monotone(clock) ==> Ordered(result.rebuildEvents, clock(start))
    requires tries[|result.rebuildEvents|].circuit == lastCircuit && tries[|result.rebuildEvents|].end == Again(lastErr)
    modifies result`rebuildEvents
    ensures |result.rebuildEvents| == |old(result.rebuildEvents)| + 1
    ensures OpenLog(result.rebuildEvents, tries, clock, start)
  {
    var (failedHop, failedNodeID) := IdentifyFailedHop(Some(lastErr), lastCircuit);
    var evt := RebuildEvent(clock(start), attempt, failedHop, failedNodeID, lastErr, 0, 0, false);
    assert (result.rebuildEvents + [evt])[..|result.rebuildEvents|] == result.rebuildEvents;
    result.rebuildEvents := result.rebuildEvents + [evt];
  }

  /** Fill in the end of the last event in place; the clock is read twice. */
  method Close(result: CircuitResult, success: bool, ghost tries: seq<Tried>, clock: Clock, start: nat)
    requires OpenLog(result.rebuildEvents, tries, clock, start)
    modifies result`rebuildEvents
    ensures |result.rebuildEvents| == |old(result.rebuildEvents)|
    ensures LogDescribes(result.rebuildEvents, tries, success)
    ensures Monotone(clock) ==> Ordered(result.rebuildEvents, clock(start + 3))
  {
    var idx := |result.rebuildEvents| - 1;
    var evt := result.rebuildEvents[idx];
    ghost var closed := result.rebuildEvents[..idx];
    evt := evt.(rebuildDoneAt := clock(start + 1));
    evt := evt.(rebuildMs := Milliseconds(clock(start + 2) - evt.timestamp));
    evt := evt.(success := success);
    result.rebuildEvents := result.rebuildEvents[idx := evt];
    assert result.rebuildEvents == closed + [evt];
    forall i | 0 <= i < |result.rebuildEvents|
      ensures EventDescribes(result.rebuildEvents[i], i, tries[i])
    {
      if i < idx {
        assert EventDescribes(closed[i], i, tries[i]);
      }
    }
    if Monotone(clock) {
      assert clock(start) <= clock(start + 1) <= clock(start + 2) <= clock(start + 3);
      MillisecondsRoundDown(clock(start + 2) - clock(start));
    }
  }

  /** The log when it holds `n` events, all closed; `done` says whether the last rebuild succeeded. */
  ghost predicate LogAt(events: seq<RebuildEvent>, n: nat, tries: seq<Tried>, done: bool, clock: Clock, ticks: nat) {
    |events| == n && LogDescribes(events, tries, done) && (Monotone(clock) ==> Ordered(events, clock(ticks)))
  }

  /** After `n` attempts: the keys they left at the nodes and the onions they sent. */
  ghost predicate Accounted(stores: Stores, before: Stores, id: CircuitId, inputs: seq<Attempt>, n: nat, hops: int,
                            sent: seq<Bytes>, tries: seq<Tried>)
  {
    && AllGood(inputs) && n <= |inputs| == |tries|
    && stores == Replay(before, CallWrites(id, inputs[..n], hops)) && sent == OnionsSent(tries[..n])
  }

  /** One round of the loop: open the event of this rebuild, make the attempt, close the event. */
  method LoggedAttempt(net: Network, result: CircuitResult, circuitID: CircuitId, e: ExitLayer, hops: int,
                       inputs: seq<Attempt>, attempt: nat, lastErr: Option<string>, lastCircuit: Option<Circuit>,
                       clock: Clock, ticks: nat, ghost before: Stores, ghost tries: seq<Tried>, ghost sent: seq<Bytes>)
    returns (tried: Tried, next: nat)
    requires AllGood(inputs) && 1 <= attempt <= |inputs| && AreTries(tries, inputs, circuitID, e, hops)
    requires Accounted(net.stores, before, circuitID, inputs, attempt - 1, hops, sent, tries)
    requires LogAt(result.rebuildEvents, if attempt == 1 then 0 else attempt - 2, tries, false, clock, ticks)
    requires attempt > 1 ==> lastErr.Some? && tries[attempt - 2].end == Again(lastErr.value) && tries[attempt - 2].circuit == lastCircuit
    modifies net, result`rebuildEvents
    ensures tried == tries[attempt - 1]
    ensures Accounted(net.stores, before, circuitID, inputs, attempt, hops, sent + tried.onions, tries)
    ensures !tried.end.Stop? ==> LogAt(result.rebuildEvents, attempt - 1, tries, tried.end.Done?, clock, next)
  {
    if attempt > 1 {
      Open(result, lastErr.value, lastCircuit, attempt, tries, clock, ticks);
    }
    tried := TryCircuit(net, circuitID, e, hops, inputs, attempt - 1, before, tries);
    next := ticks;
    if !tried.end.Stop? && |result.rebuildEvents| > 0 {
      Close(result, tried.end.Done?, tries, clock, ticks);
      next := ticks + 3;
    }
  }

  /**
   * The whole call. `Retried(tries)` attempts fail in a way that is retried; the next one, if the
   * limit allows it, decides. Every attempt leaves its keys behind, and exactly those that set up
   * their keys send an onion. A response comes with one log entry per failure before it.
   */
  method ExecuteRequestWithRebuildTracking(
    net: Network, circuitID: CircuitId, e: ExitLayer, hops: int, maxAttempts: int,
    inputs: seq<Attempt>, clock: Clock)
    returns (result: CircuitResult?, err: Option<string>, sent: seq<Bytes>, ghost tries: seq<Tried>)
    requires |inputs| == Limit(maxAttempts) && AllGood(inputs)
    modifies net
    ensures AreTries(tries, inputs, circuitID, e, hops) && (result == null <==> err.Some?)
    ensures !ValidHops(hops) ==> result == null && sent == [] && net.stores == old(net.stores)
    ensures ValidHops(hops) ==> Accounted(net.stores, old(net.stores), circuitID, inputs, Made(tries), hops, sent, tries)
    ensures |tries| == (if maxAttempts <= 0 then 3 else maxAttempts)
    ensures ValidHops(hops) ==> FirstRetried(inputs, circuitID, hops, Retried(tries))
    ensures ValidHops(hops) ==>
              (result != null <==> Retried(tries) < |inputs| && Responds(inputs[Retried(tries)], circuitID, hops))
    ensures err.Some? ==> err.value == CallError(tries, hops)
    ensures result != null ==>
              && fresh(result) && tries[Retried(tries)].end.Done?
              && result.response == Some(tries[Retried(tries)].end.response)
              && Peeled(inputs[Retried(tries)], hops) == Ok(tries[Retried(tries)].end.response)
              && exists ticks :: LogAt(result.rebuildEvents, Retried(tries), tries, true, clock, ticks)
  {
    tries := TriesOf(inputs, circuitID, e, hops);
    if !ValidHops(hops) {
      return null, Some("hops must be 1 or 3"), [], tries;
    }
    RetriedMeans(tries, inputs, circuitID, e, hops);
    result, err, sent := MakeAttempts(net, circuitID, e, hops, inputs, clock, tries);
  }

  /** The loop: attempt after attempt, until one is done or final or none is left. */
  method MakeAttempts(
    net: Network, circuitID: CircuitId, e: ExitLayer, hops: int, inputs: seq<Attempt>, clock: Clock, ghost tries: seq<Tried>)
    returns (result: CircuitResult?, err: Option<string>, sent: seq<Bytes>)
    requires inputs != [] && AllGood(inputs) && ValidHops(hops) && AreTries(tries, inputs, circuitID, e, hops)
    modifies net
    ensures Accounted(net.stores, old(net.stores), circuitID, inputs, Made(tries), hops, sent, tries)
    ensures result != null <==> Retried(tries) < |tries| && tries[Retried(tries)].end.Done?
    ensures err == if result == null then Some(CallError(tries, hops)) else None
    ensures result != null ==>
              && fresh(result) && result.response == Some(tries[Retried(tries)].end.response)
              && exists ticks :: LogAt(result.rebuildEvents, Retried(tries), tries, true, clock, ticks)
  {
    sent, err := [], None;
    result := new CircuitResult();
    var lastErr: Option<string> := None;
    var lastCircuit: Option<Circuit> := None;
    var ticks: nat := 0;
    for attempt := 1 to |inputs| + 1
      invariant fresh(result)
      invariant AllAgain(tries, attempt - 1)
      invariant Accounted(net.stores, old(net.stores), circuitID, inputs, attempt - 1, hops, sent, tries)
      invariant attempt > 1 ==> lastErr.Some? && tries[attempt - 2].end == Again(lastErr.value) && tries[attempt - 2].circuit == lastCircuit
      invariant LogAt(result.rebuildEvents, if attempt == 1 then 0 else attempt - 2, tries, false, clock, ticks)
    {
      var tried, next := LoggedAttempt(net, result, circuitID, e, hops, inputs, attempt, lastErr, lastCircuit,
                                       clock, ticks, old(net.stores), tries, sent);
      sent, ticks := sent + tried.onions, next;
      RetriedIs(tries, attempt - 1);
      match tried.end
      case Stop(msg) =>
        return null, Some(msg), sent;
      case Done(response) =>
        result.response := Some(response);
        assert LogAt(result.rebuildEvents, attempt - 1, tries, true, clock, ticks);
        return result, None, sent;
      case Again(msg) =>
        lastErr, lastCircuit := Some(msg), tried.circuit;
    }
    RetriedIs(tries, |tries|);
    return null, Some("all " + Decimal(|inputs|) + " circuit attempts failed: " + lastErr.value), sent;
  }

  /** The error of a call without a response: that of the attempt that ended it, or of all of them. */
  function CallError(tries: seq<Tried>, hops: int): string {
    if !ValidHops(hops) then "hops must be 1 or 3"
    else if Retried(tries) < |tries| then (if tries[Retried(tries)].end.Stop? then tries[Retried(tries)].end.err else "")
    else "all " + Decimal(|tries|) + " circuit attempts failed: " + (if tries == [] then "" else tries[|tries| - 1].end.err)
  }

  function Limit(maxAttempts: int): nat {
    if maxAttempts <= 0 then DEFAULT_MAX_CIRCUIT_ATTEMPTS else maxAttempts
  }

  /** The first `n` attempts all failed in a way that is retried. */
  ghost predicate AllAgain(tries: seq<Tried>, n: nat) {
    n <= |tries| && forall i :: 0 <= i < n ==> tries[i].end.Again?
  }

  lemma RetriedIs(tries: seq<Tried>, n: nat)
    requires AllAgain(tries, n)
    ensures n < |tries| && !tries[n].end.Again? ==> Retried(tries) == n && Made(tries) == n + 1
    ensures n == |tries| ==> Retried(tries) == Made(tries) == n
  {
  }

  lemma MillisecondsRoundDown(d: int)
    requires d >= 0
    ensures Milliseconds(d) * 1_000_000 <= d < (Milliseconds(d) + 1) * 1_000_000
  {
  }

  /** The attempts retried are the leading ones that found a circuit and then lacked a setup or a decodable 200. */
  lemma RetriedMeans(tries: seq<Tried>, inputs: seq<Attempt>, id: CircuitId, e: ExitLayer, hops: int)
    requires AllGood(inputs) && ValidHops(hops) && AreTries(tries, inputs, id, e, hops)
    ensures FirstRetried(inputs, id, hops, Retried(tries))
    ensures Retried(tries) < |tries| ==>
              (tries[Retried(tries)].end.Done? <==> Responds(inputs[Retried(tries)], id, hops))
    ensures Retried(tries) < |tries| && tries[Retried(tries)].end.Done? ==>
              Peeled(inputs[Retried(tries)], hops) == Ok(tries[Retried(tries)].end.response)
  {
    forall i | 0 <= i < |inputs|
      ensures tries[i].end.Again? <==> WorthRetrying(inputs[i], id, hops)
    {
      assert IsTry(tries[i], inputs[i], id, e, hops);
      AttemptEnds(inputs[i], id, e, hops);
    }
    if Retried(tries) < |tries| {
      assert IsTry(tries[Retried(tries)], inputs[Retried(tries)], id, e, hops);
      AttemptEnds(inputs[Retried(tries)], id, e, hops);
    }
  }

  /** The first `n` attempts are worth retrying, and the next, if there is one, is not. */
  ghost predicate FirstRetried(inputs: seq<Attempt>, id: CircuitId, hops: int, n: nat)
    requires AllGood(inputs)
  {
    && n <= |inputs| && (forall i :: 0 <= i < n ==> WorthRetrying(inputs[i], id, hops))
    && (n < |inputs| ==> !WorthRetrying(inputs[n], id, hops))
  }

  /** The coded call builds the attempt's onion; with 32-byte keys it cannot fail. */
  lemma CodedOnion(a: Attempt, e: ExitLayer, hops: int)
    requires GoodAttempt(a) && FindsCircuit(a, hops)
    ensures var c := a.dir.circuit;
            var keys := if hops == 1 then SessionKeys(a.keys.guard, [], []) else a.keys;
            && BuildOnionWithHops(keys.guard, keys.relay, keys.exit, e, AddrOf(c.relay), AddrOf(c.exit), hops,
                                  a.guardNonce, a.relayNonce, a.exitNonce) == Ok(OnionOf(a, e, hops))
            && forall payload :: DecryptResponseWithHops(keys.guard, keys.relay, keys.exit, payload, hops)
                                 == DecryptResponseWithHops(a.keys.guard, a.keys.relay, a.keys.exit, payload, hops)
  {
    var c := a.dir.circuit;
    var guard, relay, exit := Hop(AddrOf(c.guard), a.keys.guard), Hop(AddrOf(c.relay), a.keys.relay), Hop(AddrOf(c.exit), a.keys.exit);
    CodedBuildIsRecursive(guard, relay, exit, e, hops, [a.guardNonce, a.relayNonce, a.exitNonce]);
    assert PathOf(c, a.keys, hops) == CodedPath(guard, relay, exit, hops);
  }
}
