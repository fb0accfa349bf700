/**
 * The directory server: its handlers as atomic steps on the registry, the circuits it hands out,
 * and how fast and how surely it tells failed nodes from live ones.
 */
module Directory {
  import opened Uuid
  import opened Registry

  /** One handler call or sweep. Register and heartbeat carry the clock reading the handler took. */
  datatype Event =
    | Register(node: Registration, stamp: int)
    | Beat(nodeID: string, stamp: int)
    | Deregister(nodeID: string)
    | Sweep(tick: int)

  function StepNodes(nodes: Nodes, ev: Event, timeout: int): Nodes {
    match ev
    case Register(node, stamp) =>
      if ValidateNodeRegistration(node).Some? then nodes else nodes[node.nodeID := Record(node, stamp, Healthy)]
    case Beat(id, stamp) =>
      var t := TrimSpace(id);
      if t != "" && t in nodes then nodes[t := nodes[t].(lastSeen := stamp, status := Healthy)] else nodes
    case Deregister(id) => if TrimSpace(id) == "" then nodes else nodes - {TrimSpace(id)}
    case Sweep(tick) => Swept(nodes, tick, timeout)
  }

  function TrimLeft(s: string): string { if s != "" && IsSpace(s[0]) then TrimLeft(s[1..]) else s }

  function TrimRight(s: string): string {
    if s != "" && IsSpace(s[|s| - 1]) then TrimRight(s[..|s| - 1]) else s
  }

  function TrimSpace(s: string): string { TrimRight(TrimLeft(s)) }

  lemma {:induction false} ScannedEndsInNoSpace(s: string, i: nat)
    requires Scan(s, i) && s != ""
    ensures !IsSpace(s[0]) && !IsSpace(s[|s| - 1])
  {
    if |s| > 1 {
      ScannedEndsInNoSpace(s[1..], i + Width(s[0]));
    }
  }

  /** Trimming does not change an accepted node id, so a node's own heartbeats reach its record. */
  lemma UUIDsKeepTheirForm(id: string)
    requires IsUUID(id)
    ensures TrimSpace(id) == id
  {
    ScannedEndsInNoSpace(id, 0);
  }

  lemma {:induction false} TrimLeftTrims(pre: string, s: string)
    requires IsBlank(pre) && s != "" && !IsSpace(s[0])
    ensures TrimLeft(pre + s) == s
  {
    if pre == "" {
      assert pre + s == s;
    } else {
      TrimLeftTrims(pre[1..], s);
      assert (pre + s)[1..] == pre[1..] + s;
    }
  }

  lemma {:induction false} TrimRightTrims(s: string, post: string)
    requires IsBlank(post) && s != "" && !IsSpace(s[|s| - 1])
    ensures TrimRight(s + post) == s
  {
    if post == "" {
      assert s + post == s;
    } else {
      TrimRightTrims(s, post[..|post| - 1]);
      assert (s + post)[..|s + post| - 1] == s + post[..|post| - 1];
    }
  }

  /** Trimming takes off white space at both ends and nothing else; of a blank string it leaves nothing. */
  lemma TrimSpaceTrims(pre: string, s: string, post: string)
    requires IsBlank(pre) && IsBlank(post) && s != "" && !IsSpace(s[0]) && !IsSpace(s[|s| - 1])
    ensures TrimSpace(pre + s + post) == s
  {
    assert pre + s + post == pre + (s + post);
    TrimLeftTrims(pre, s + post);
    TrimRightTrims(s, post);
  }

  lemma {:induction false} BlankTrims(s: string)
    ensures TrimSpace(s) == "" <==> IsBlank(s)
  {
    if s != "" && IsSpace(s[0]) {
      BlankTrims(s[1..]);
      assert forall i :: 1 <= i < |s| ==> s[i] == s[1..][i - 1];
    } else if s != "" {
      KeepsFirst(s);
    }
  }

  lemma {:induction false} KeepsFirst(s: string)
    requires s != "" && !IsSpace(s[0])
    ensures TrimRight(s) != ""
  {
    if IsSpace(s[|s| - 1]) {
      KeepsFirst(s[..|s| - 1]);
    }
  }

  datatype Grouped = Grouped(guard: seq<Record>, relay: seq<Record>, exit: seq<Record>)

  function OfType(r: seq<Record>, t: string): seq<Record> {
    if r == [] then []
    else OfType(r[..|r| - 1], t) + if r[|r| - 1].node.nodeType == t then [r[|r| - 1]] else []
  }

  predicate Groups(g: Grouped, list: seq<Record>) {
    g == Grouped(OfType(list, "guard"), OfType(list, "relay"), OfType(list, "exit"))
  }

  /** The query parameter `hops`: absent or blank, not a number, or a number. */
  datatype HopsParam = NoHops | BadHops | Hops(n: int)

  datatype CircuitReply =
    | BadRequest
    | NotEnough
    | OneHop(guard: Record)
    | ThreeHops(first: Record, second: Record, third: Record)

  class DirectoryServer {
    const registry: NodeRegistry
    const heartbeatTimeout: int

    constructor (registry: NodeRegistry, heartbeatTimeout: int)
      ensures this.registry == registry && this.heartbeatTimeout == heartbeatTimeout
    {
      this.registry, this.heartbeatTimeout := registry, heartbeatTimeout;
    }

    method RegisterHandler(payload: Registration, now: int) returns (status: int)
      modifies registry
      ensures registry.nodes == StepNodes(old(registry.nodes), Register(payload, now), heartbeatTimeout)
      ensures status == if ValidateNodeRegistration(payload).None? then 201 else 400
    {
      var err := ValidateNodeRegistration(payload);
      if err.Some? { return 400; }
      var _ := registry.Upsert(payload, now);
      status := 201;
    }

    method HeartbeatHandler(path: string, now: int) returns (status: int)
      modifies registry
      ensures registry.nodes == StepNodes(old(registry.nodes), Beat(path, now), heartbeatTimeout)
      ensures status == if TrimSpace(path) == "" then 400 else if TrimSpace(path) in old(registry.nodes) then 200 else 404
    {
      var id := TrimSpace(path);
      if id == "" { return 400; }
      var record := registry.Heartbeat(id, now);
      status := if record.Some? then 200 else 404;
    }

    method DeregisterHandler(path: string) returns (status: int)
      modifies registry
      ensures registry.nodes == StepNodes(old(registry.nodes), Deregister(path), heartbeatTimeout)
      ensures status == if TrimSpace(path) == "" then 400 else if TrimSpace(path) in old(registry.nodes) then 200 else 404
    {
      var id := TrimSpace(path);
      if id == "" { return 400; }
      var ok := registry.Delete(id);
      status := if ok then 200 else 404;
    }

    method CleanupUnhealthyNodes(tick: int)
      requires Keyed(registry.nodes)
      modifies registry
      ensures registry.nodes == StepNodes(old(registry.nodes), Sweep(tick), heartbeatTimeout)
    {
      var _ := registry.MarkUnhealthy(tick, heartbeatTimeout);
    }

    method GroupByType(includeUnhealthy: bool) returns (g: Grouped)
      requires Keyed(registry.nodes)
      ensures exists list :: Lists(list, Matching(registry.nodes, includeUnhealthy)) && Groups(g, list)
    {
      var all := registry.List(includeUnhealthy);
      g := Grouped([], [], []);
      for i := 0 to |all|
        invariant Groups(g, all[..i])
      {
        assert all[..i + 1][..i] == all[..i];
        var node := all[i];
        if node.node.nodeType == "guard" {
          g := g.(guard := g.guard + [node]);
        } else if node.node.nodeType == "relay" {
          g := g.(relay := g.relay + [node]);
        } else if node.node.nodeType == "exit" {
          g := g.(exit := g.exit + [node]);
        }
      }
      assert all[..|all|] == all;
    }

    /** `randomIntn(k, n)` is the k-th draw; it may be anything below `n`. */
    method CircuitHandler(param: HopsParam, randomIntn: (nat, nat) -> nat) returns (reply: CircuitReply)
      requires Keyed(registry.nodes) && forall k: nat, n: nat :: n > 0 ==> randomIntn(k, n) < n
      ensures ReplyFits(registry.nodes, param, reply)
    {
      if param.BadHops? || (param.Hops? && param.n != 1 && param.n != 3) {
        return BadRequest;
      }
      var hops := if param.NoHops? then 3 else param.n;
      var g := GroupByType(false);
      ghost var list :| Lists(list, Matching(registry.nodes, false)) && Groups(g, list);
      GroupMeans(list, registry.nodes, "guard");
      GroupMeans(list, registry.nodes, "relay");
      GroupMeans(list, registry.nodes, "exit");
      if |g.guard| == 0 {
        return NotEnough;
      }
      if hops == 1 {
        var only := g.guard[randomIntn(0, |g.guard|)];
        assert only in g.guard;
        return OneHop(only);
      }
      if |g.relay| == 0 || |g.exit| == 0 {
        return NotEnough;
      }
      var guard := g.guard[randomIntn(0, |g.guard|)];
      var relay := g.relay[randomIntn(1, |g.relay|)];
      var exit := g.exit[randomIntn(2, |g.exit|)];
      assert guard in g.guard && relay in g.relay && exit in g.exit;
      reply := ThreeHops(guard, relay, exit);
    }
  }

  /** A record of the registry that is healthy and of this type. */
  predicate Eligible(x: Record, nodes: Nodes, t: string) {
    IsRecordOf(x, nodes) && x.status == Healthy && x.node.nodeType == t
  }

  ghost predicate HasType(nodes: Nodes, t: string) { exists x :: Eligible(x, nodes, t) }

  /**
   * The answer fits the request and the registry of one moment: it is refused exactly when the
   * parameter is wrong, it runs short exactly when a type needed has no healthy node, and otherwise
   * it names healthy registered nodes of the right types, no two with the same id.
   */
  ghost predicate ReplyFits(nodes: Nodes, param: HopsParam, reply: CircuitReply) {
    && (reply.BadRequest? <==> param.BadHops? || (param.Hops? && param.n != 1 && param.n != 3))
    && (!reply.BadRequest? ==>
          (reply.NotEnough? <==> !HasType(nodes, "guard")
                                 || (param != Hops(1) && (!HasType(nodes, "relay") || !HasType(nodes, "exit")))))
    && (reply.OneHop? ==> param == Hops(1) && Eligible(reply.guard, nodes, "guard"))
    && (reply.ThreeHops? ==>
          && param != Hops(1)
          && Eligible(reply.first, nodes, "guard") && Eligible(reply.second, nodes, "relay") && Eligible(reply.third, nodes, "exit")
          && reply.first.node.nodeID != reply.second.node.nodeID
          && reply.second.node.nodeID != reply.third.node.nodeID
          && reply.first.node.nodeID != reply.third.node.nodeID)
  }

  lemma {:induction false} OfTypeMembers(r: seq<Record>, t: string, x: Record)
    ensures x in OfType(r, t) <==> x in r && x.node.nodeType == t
  {
    if r != [] {
      OfTypeMembers(r[..|r| - 1], t, x);
      assert r == r[..|r| - 1] + [r[|r| - 1]];
    }
  }

  /** A group of the healthy listing holds exactly the eligible records of its type. */
  lemma GroupMeans(list: seq<Record>, nodes: Nodes, t: string)
    requires Lists(list, Matching(nodes, false))
    ensures forall x :: x in OfType(list, t) <==> Eligible(x, nodes, t)
    ensures |OfType(list, t)| == 0 <==> !HasType(nodes, t)
  {
    forall x
      ensures x in OfType(list, t) <==> Eligible(x, nodes, t)
    {
      OfTypeMembers(list, t, x);
    }
    if |OfType(list, t)| > 0 {
      assert OfType(list, t)[0] in OfType(list, t);
    }
  }

  /** The three groups together hold every healthy record exactly as often as the listing does. */
  lemma {:induction false} GroupsPartition(r: seq<Record>)
    requires forall x :: x in r ==> IsValidNodeType(x.node.nodeType)
    ensures multiset(OfType(r, "guard")) + multiset(OfType(r, "relay")) + multiset(OfType(r, "exit")) == multiset(r)
  {
    if r != [] {
      var n := |r| - 1;
      assert r == r[..n] + [r[n]];
      GroupsPartition(r[..n]);
    }
  }

  // ---- Runs ----------------------------------------------------------------------------------

  /** An event and the moment it takes effect; moments do not decrease along a run. */
  datatype Timed = Timed(at: int, ev: Event)

  /** The registry after the first `n` events. */
  function RunNodes(evs: seq<Timed>, n: nat, timeout: int): Nodes
    requires n <= |evs|
  {
    if n == 0 then map[] else StepNodes(RunNodes(evs, n - 1, timeout), evs[n - 1].ev, timeout)
  }

  function StampOf(t: Timed): int {
    match t.ev
    case Register(_, stamp) => stamp
    case Beat(_, stamp) => stamp
    case Sweep(tick) => tick
    case Deregister(_) => t.at
  }

  /** Clock readings are taken at most `lag` before the event takes effect, which happens in order. */
  ghost predicate Schedule(evs: seq<Timed>, lag: nat) {
    forall i, j {:trigger Orderly(evs[i], evs[j], lag)} :: 0 <= i <= j < |evs| ==> Orderly(evs[i], evs[j], lag)
  }

  predicate Orderly(a: Timed, b: Timed, lag: nat) {
    a.at <= b.at && b.at - lag <= StampOf(b) <= b.at
  }

  lemma StepKeepsForm(nodes: Nodes, ev: Event, timeout: int)
    requires WellFormed(nodes) && "" !in nodes
    ensures WellFormed(StepNodes(nodes, ev, timeout)) && "" !in StepNodes(nodes, ev, timeout)
  {
  }

  /** Every reachable registry is well formed, so every circuit answer of a run fits. */
  lemma {:induction false} RunsAreWellFormed(evs: seq<Timed>, n: nat, timeout: int)
    requires n <= |evs|
    ensures WellFormed(RunNodes(evs, n, timeout)) && "" !in RunNodes(evs, n, timeout)
  {
    if n > 0 {
      RunsAreWellFormed(evs, n - 1, timeout);
      StepKeepsForm(RunNodes(evs, n - 1, timeout), evs[n - 1].ev, timeout);
    }
  }

  /** At every point of a run, the groups of the healthy nodes hold each of them once and nothing else. */
  lemma RunGroupsPartition(evs: seq<Timed>, n: nat, timeout: int, list: seq<Record>, g: Grouped)
    requires n <= |evs| && Lists(list, Matching(RunNodes(evs, n, timeout), false)) && Groups(g, list)
    ensures multiset(g.guard) + multiset(g.relay) + multiset(g.exit) == multiset(list)
  {
    RunsAreWellFormed(evs, n, timeout);
    ListedTypesAreValid(RunNodes(evs, n, timeout), list);
    GroupsPartition(list);
  }

  lemma ListedTypesAreValid(nodes: Nodes, list: seq<Record>)
    requires WellFormed(nodes) && Lists(list, Matching(nodes, false))
    ensures forall x :: x in list ==> IsValidNodeType(x.node.nodeType)
  {
    forall x | x in list
      ensures IsValidNodeType(x.node.nodeType)
    {
      assert IsRecordOf(x, Matching(nodes, false));
      AcceptedRegistrations(x.node);
    }
  }

  /** After the sweep at index `k`, whoever is healthy was seen recently, and that stays so. */
  lemma {:induction false} FreshAfterSweep(evs: seq<Timed>, timeout: nat, lag: nat, k: nat, n: nat, id: string)
    requires Schedule(evs, lag) && k < n <= |evs| && evs[k].ev.Sweep?
    requires id in RunNodes(evs, n, timeout) && RunNodes(evs, n, timeout)[id].status == Healthy
    ensures RunNodes(evs, n, timeout)[id].lastSeen >= evs[k].at - lag - timeout
    decreases n
  {
    assert Orderly(evs[k], evs[n - 1], lag);
    if n > k + 1 {
      var before := RunNodes(evs, n - 1, timeout);
      if id in before && before[id].status == Healthy {
        FreshAfterSweep(evs, timeout, lag, k, n - 1, id);
      }
    }
  }

  /**
   * Failed nodes disappear. If some sweep took effect within `interval` before `t`, every node the
   * directory can hand out at `t` was last seen no earlier than `t - timeout - interval - lag`.
   */
  lemma HandedOutIsFresh(evs: seq<Timed>, timeout: nat, interval: nat, lag: nat, k: nat, t: int,
                         param: HopsParam, reply: CircuitReply)
    requires Schedule(evs, lag) && k < |evs| && evs[k].ev.Sweep? && evs[k].at >= t - interval
    requires ReplyFits(RunNodes(evs, |evs|, timeout), param, reply)
    ensures reply.OneHop? ==> reply.guard.lastSeen >= t - timeout - interval - lag
    ensures reply.ThreeHops? ==>
              forall x :: x in {reply.first, reply.second, reply.third} ==> x.lastSeen >= t - timeout - interval - lag
  {
    if reply.OneHop? {
      FreshAfterSweep(evs, timeout, lag, k, |evs|, reply.guard.node.nodeID);
    }
    if reply.ThreeHops? {
      FreshAfterSweep(evs, timeout, lag, k, |evs|, reply.first.node.nodeID);
      FreshAfterSweep(evs, timeout, lag, k, |evs|, reply.second.node.nodeID);
      FreshAfterSweep(evs, timeout, lag, k, |evs|, reply.third.node.nodeID);
    }
  }

  // ---- Removals -----------------------------------------------------------------------------------

  predicate Registers(t: Timed, id: string) { t.ev.Register? && t.ev.node.nodeID == id }

  /** An event that is about one node leaves every other node's record as it was. */
  lemma OthersUntouched(nodes: Nodes, t: Timed, timeout: int, id: string)
    requires !t.ev.Sweep? && !Refreshes(t, id) && !Removes(t, id)
    ensures id in StepNodes(nodes, t.ev, timeout) <==> id in nodes
    ensures id in nodes ==> StepNodes(nodes, t.ev, timeout)[id] == nodes[id]
  {
  }

  /** A removed node is gone until it registers again. */
  lemma {:induction false} RemovedIsGone(evs: seq<Timed>, timeout: int, id: string, k: nat, n: nat)
    requires k < n <= |evs| && Removes(evs[k], id)
    requires forall j :: k < j < n ==> !Registers(evs[j], id)
    ensures id !in RunNodes(evs, n, timeout)
    decreases n
  {
    if n > k + 1 {
      RemovedIsGone(evs, timeout, id, k, n - 1);
      assert !Registers(evs[n - 1], id);
    }
  }

  /** ... and no circuit handed out has it. */
  lemma RemovedIsNotHandedOut(evs: seq<Timed>, timeout: int, id: string, k: nat, n: nat, param: HopsParam, reply: CircuitReply)
    requires k < n <= |evs| && Removes(evs[k], id)
    requires forall j :: k < j < n ==> !Registers(evs[j], id)
    requires ReplyFits(RunNodes(evs, n, timeout), param, reply)
    ensures reply.OneHop? ==> reply.guard.node.nodeID != id
    ensures reply.ThreeHops? ==> id !in {reply.first.node.nodeID, reply.second.node.nodeID, reply.third.node.nodeID}
  {
    RemovedIsGone(evs, timeout, id, k, n);
  }

  // ---- No false alarms -----------------------------------------------------------------------

  /** An event that refreshes a registered node. The handlers turn blank ids away. */
  predicate Refreshes(t: Timed, id: string) {
    (t.ev.Beat? && TrimSpace(t.ev.nodeID) == id != "")
    || (t.ev.Register? && t.ev.node.nodeID == id && ValidateNodeRegistration(t.ev.node).None?)
  }

  predicate Removes(t: Timed, id: string) { t.ev.Deregister? && TrimSpace(t.ev.nodeID) == id != "" }

  /** From its registration at `r` on, the node is not removed, and before each sweep it was refreshed within `gap`. */
  ghost predicate KeptAlive(evs: seq<Timed>, id: string, r: nat, gap: int) {
    && r < |evs| && evs[r].ev.Register? && Refreshes(evs[r], id)
    && (forall k {:trigger Removes(evs[k], id)} :: r < k < |evs| ==> !Removes(evs[k], id))
    && (forall k {:trigger RefreshedRecently(evs, id, r, gap, k)} ::
          r < k < |evs| && evs[k].ev.Sweep? ==> RefreshedRecently(evs, id, r, gap, k))
  }

  /** Some refresh since index `r` lies within `gap` before event `k`. */
  ghost predicate RefreshedRecently(evs: seq<Timed>, id: string, r: nat, gap: int, k: nat)
    requires k < |evs|
  {
    exists j :: r <= j < k && Refreshes(evs[j], id) && evs[k].at - evs[j].at <= gap
  }

  /** One event, seen from a node that is registered and healthy. */
  lemma StepOnNode(nodes: Nodes, t: Timed, timeout: nat, id: string)
    requires id in nodes && nodes[id].status == Healthy && !Removes(t, id)
    requires t.ev.Sweep? ==> t.ev.tick - nodes[id].lastSeen <= timeout
    ensures var after := StepNodes(nodes, t.ev, timeout);
            && id in after && after[id].status == Healthy
            && after[id].lastSeen == if Refreshes(t, id) then StampOf(t) else nodes[id].lastSeen
  {
  }

  /** A refresh revives: whatever its record was, the node is healthy afterwards and seen at the reading's time. */
  lemma RefreshRevives(nodes: Nodes, t: Timed, timeout: nat, id: string)
    requires Refreshes(t, id) && (id in nodes || t.ev.Register?)
    ensures var after := StepNodes(nodes, t.ev, timeout);
            && id in after && after[id].status == Healthy && after[id].lastSeen == StampOf(t)
            && (t.ev.Beat? ==> after[id].node == nodes[id].node)
  {
  }

  lemma RegisterShows(nodes: Nodes, t: Timed, timeout: nat, id: string)
    requires t.ev.Register? && Refreshes(t, id)
    ensures StepNodes(nodes, t.ev, timeout) == nodes[id := Record(t.ev.node, StampOf(t), Healthy)]
  {
  }

  /** Before a sweep, the node was refreshed within `gap`. */
  lemma RefreshedBefore(evs: seq<Timed>, id: string, r: nat, gap: int, k: nat) returns (q: nat)
    requires KeptAlive(evs, id, r, gap) && r < k < |evs| && evs[k].ev.Sweep?
    ensures r <= q < k && Refreshes(evs[q], id) && evs[k].at - evs[q].at <= gap
  {
    assert RefreshedRecently(evs, id, r, gap, k);
    q :| r <= q < k && Refreshes(evs[q], id) && evs[k].at - evs[q].at <= gap;
  }

  /** One event of a node kept alive: its own reading, if it refreshes, or the last-seen time before, shows after it. */
  lemma StepKeepsSeen(nodes: Nodes, t: Timed, timeout: nat, id: string, seen: int)
    requires id in nodes && nodes[id].status == Healthy && !Removes(t, id)
    requires t.ev.Sweep? ==> t.ev.tick - nodes[id].lastSeen <= timeout
    requires (if Refreshes(t, id) then StampOf(t) else nodes[id].lastSeen) >= seen
    ensures HealthySince(StepNodes(nodes, t.ev, timeout), id, seen)
  {
    StepOnNode(nodes, t, timeout, id);
  }

  predicate HealthySince(nodes: Nodes, id: string, seen: int) {
    id in nodes && nodes[id].status == Healthy && nodes[id].lastSeen >= seen
  }

  /** A node kept alive is registered and healthy, and each refresh so far shows in its last-seen time. */
  lemma {:induction false} SeenSince(
    evs: seq<Timed>, timeout: nat, gap: int, lag: nat, id: string, r: nat, n: nat, j: nat)
    requires Schedule(evs, lag) && KeptAlive(evs, id, r, gap) && gap + lag <= timeout
    requires r <= j < n <= |evs| && Refreshes(evs[j], id)
    ensures HealthySince(RunNodes(evs, n, timeout), id, evs[j].at - lag)
    decreases n
  {
    var last := evs[n - 1];
    assert Orderly(evs[j], last, lag);
    if n > r + 1 {
      SeenSince(evs, timeout, gap, lag, id, r, n - 1, if j < n - 1 then j else r);
      if last.ev.Sweep? {
        var q := RefreshedBefore(evs, id, r, gap, n - 1);
        SeenSince(evs, timeout, gap, lag, id, r, n - 1, q);
      }
      StepKeepsSeen(RunNodes(evs, n - 1, timeout), last, timeout, id, evs[j].at - lag);
    } else {
      RegisterShows(RunNodes(evs, r, timeout), last, timeout, id);
    }
  }

  /** A node whose accepted heartbeats leave gaps of at most `timeout - lag` is never marked unhealthy. */
  lemma NoFalseAlarm(evs: seq<Timed>, timeout: nat, gap: int, lag: nat, id: string, r: nat, n: nat)
    requires Schedule(evs, lag) && KeptAlive(evs, id, r, gap) && gap + lag <= timeout && r < n <= |evs|
    ensures id in RunNodes(evs, n, timeout) && RunNodes(evs, n, timeout)[id].status == Healthy
  {
    SeenSince(evs, timeout, gap, lag, id, r, n, r);
  }

  /**
   * A node that beats every `period` from its registration on, with `heard` telling which of its
   * beats the directory accepted; never more than `m` in a row are lost.
   */
  ghost predicate Beating(evs: seq<Timed>, id: string, r: nat, period: nat, m: nat, heard: nat -> bool) {
    && r < |evs| && period > 0 && heard(0)
    && (forall b: nat :: HeardAmong(heard, b, m))
    && (forall b: nat :: b > 0 && heard(b) && r < |evs| && BeatTime(evs, r, period, b) <= evs[|evs| - 1].at ==>
          exists j :: r < j < |evs| && Refreshes(evs[j], id) && evs[j].at == BeatTime(evs, r, period, b))
  }

  ghost predicate HeardAmong(heard: nat -> bool, b: nat, m: nat) {
    exists c: nat :: b <= c <= b + m && heard(c)
  }

  function BeatTime(evs: seq<Timed>, r: nat, period: nat, b: nat): int
    requires r < |evs|
  {
    evs[r].at + b * period
  }

  /** Some beat heard lies within `m + 1` periods before any sweep after the registration. */
  lemma HeardBefore(evs: seq<Timed>, id: string, r: nat, period: nat, m: nat, heard: nat -> bool, lag: nat, k: nat)
    requires Schedule(evs, lag) && Beating(evs, id, r, period, m, heard)
    requires evs[r].ev.Register? && Refreshes(evs[r], id) && r < k < |evs| && evs[k].ev.Sweep?
    ensures RefreshedRecently(evs, id, r, (m + 1) * period, k)
  {
    var since := evs[k].at - evs[r].at;
    assert Orderly(evs[r], evs[k], lag);
    assert Orderly(evs[k], evs[|evs| - 1], lag);
    if since <= (m + 1) * period {
      assert Refreshes(evs[r], id);
    } else {
      var b := LastBeatBefore(since, period);
      FewerBeats(m, b, period, since);
      var first: nat := b - m;
      assert HeardAmong(heard, first, m);
      var c: nat :| first <= c <= first + m && heard(c);
      BeatWithin(first, c, b, m, period, since);
      assert BeatTime(evs, r, period, c) < evs[k].at <= evs[|evs| - 1].at;
      var j :| r < j < |evs| && Refreshes(evs[j], id) && evs[j].at == BeatTime(evs, r, period, c);
      assert k <= j ==> Orderly(evs[k], evs[j], lag);
    }
  }

  /** The last multiple of `period` strictly before `since`. */
  lemma LastBeatBefore(since: int, period: nat) returns (b: nat)
    requires since > 0 && period > 0
    ensures b * period < since <= (b + 1) * period
  {
    b := 0;
    while (b + 1) * period < since
      invariant b * period < since
      decreases since - b * period
    {
      b := b + 1;
    }
  }

  lemma FewerBeats(m: nat, b: nat, period: nat, since: int)
    requires (m + 1) * period < since <= (b + 1) * period
    ensures m <= b
  {
    if b < m {
      MulLess(b + 1, m + 1, period);
    }
  }

  lemma MulLess(a: nat, b: nat, p: nat)
    requires a <= b
    ensures a * p <= b * p
  {
    assert b * p == a * p + (b - a) * p;
  }

  lemma BeatWithin(first: nat, c: nat, b: nat, m: nat, period: nat, since: int)
    requires first + m == b && first <= c <= b && b * period < since <= (b + 1) * period
    ensures c * period < since && since - c * period <= (m + 1) * period
    ensures c > 0 || c == first
  {
    MulLess(c, b, period);
    MulLess(first, c, period);
    calc {
      (b + 1) * period;
      (first + (m + 1)) * period;
      first * period + (m + 1) * period;
    }
  }

  /**
   * Lost heartbeats are tolerated. A node that beats every `period` and never has more than `m`
   * beats in a row lost stays healthy whenever `(m + 1) * period + lag` is at most the timeout.
   */
  lemma LostHeartbeatsTolerated(evs: seq<Timed>, timeout: nat, lag: nat, id: string, r: nat,
                                period: nat, m: nat, heard: nat -> bool, n: nat)
    requires Schedule(evs, lag) && Beating(evs, id, r, period, m, heard)
    requires evs[r].ev.Register? && Refreshes(evs[r], id)
    requires forall k :: r < k < |evs| ==> !Removes(evs[k], id)
    requires (m + 1) * period + lag <= timeout && r < n <= |evs|
    ensures id in RunNodes(evs, n, timeout) && RunNodes(evs, n, timeout)[id].status == Healthy
  {
    forall k | r < k < |evs| && evs[k].ev.Sweep?
      ensures RefreshedRecently(evs, id, r, (m + 1) * period, k)
    {
      HeardBefore(evs, id, r, period, m, heard, lag, k);
    }
    NoFalseAlarm(evs, timeout, (m + 1) * period, lag, id, r, n);
  }

  /** A run in which a node beats every `period` and never has more than `m` beats in a row lost. */
  ghost predicate Scenario(evs: seq<Timed>, lag: nat, id: string, r: nat, period: nat, m: nat, heard: nat -> bool) {
    && Schedule(evs, lag) && Beating(evs, id, r, period, m, heard)
    && evs[r].ev.Register? && Refreshes(evs[r], id)
    && forall k :: r < k < |evs| ==> !Removes(evs[k], id)
  }

  predicate HealthyAfter(evs: seq<Timed>, n: nat, timeout: int, id: string)
    requires n <= |evs|
  {
    id in RunNodes(evs, n, timeout) && RunNodes(evs, n, timeout)[id].status == Healthy
  }

  /** No such run ever has the node marked unhealthy. */
  ghost predicate Tolerates(id: string, timeout: nat, lag: nat, period: nat, m: nat) {
    forall evs: seq<Timed>, r: nat, heard: nat -> bool, n: nat ::
      Scenario(evs, lag, id, r, period, m, heard) && r < n <= |evs| ==> HealthyAfter(evs, n, timeout, id)
  }

  /**
   * When clock readings may be applied up to `lag` late, `m` lost heartbeats in a row are tolerated
   * exactly when `m + 1` periods and the lag fit into the timeout: for beats every 10 s, a timeout of
   * 30 s and readings applied at once, two and not three; with a lag of up to 10 s, one.
   */
  lemma ToleranceIsExact(node: Registration, timeout: nat, lag: nat, period: nat, m: nat)
    requires ValidateNodeRegistration(node).None? && period > 0
    ensures Tolerates(node.nodeID, timeout, lag, period, m) <==> (m + 1) * period + lag <= timeout
  {
    if (m + 1) * period + lag <= timeout {
      forall evs: seq<Timed>, r: nat, heard: nat -> bool, n: nat
        | Scenario(evs, lag, node.nodeID, r, period, m, heard) && r < n <= |evs|
        ensures HealthyAfter(evs, n, timeout, node.nodeID)
      {
        LostHeartbeatsTolerated(evs, timeout, lag, node.nodeID, r, period, m, heard, n);
      }
    } else {
      var evs, heard := MarkedLiveNode(node, timeout, lag, period, m);
      assert !HealthyAfter(evs, 2, timeout, node.nodeID);
    }
  }

  /**
   * A node registers at 0 with a reading `lag` old; a sweep at `late` finds it past the timeout,
   * although it is heard of again at that moment.
   */
  function MarkingRun(node: Registration, lag: nat, late: nat): seq<Timed> {
    [Timed(0, Register(node, 0 - lag)), Timed(late, Sweep(late)), Timed(late, Beat(node.nodeID, late))]
  }

  lemma MarkingRunMarks(node: Registration, timeout: nat, lag: nat, late: nat)
    requires ValidateNodeRegistration(node).None? && late + lag > timeout
    ensures Schedule(MarkingRun(node, lag, late), lag)
    ensures !HealthyAfter(MarkingRun(node, lag, late), 2, timeout, node.nodeID)
  {
    var evs := MarkingRun(node, lag, late);
    assert RunNodes(evs, 1, timeout) == map[node.nodeID := Record(node, 0 - lag, Healthy)];
  }

  /** Beats 1 to `m` are lost, and the sweep comes no later than beat `m + 1`. */
  lemma MarkedLiveNode(node: Registration, timeout: nat, lag: nat, period: nat, m: nat)
    returns (evs: seq<Timed>, heard: nat -> bool)
    requires ValidateNodeRegistration(node).None? && period > 0 && (m + 1) * period + lag > timeout
    ensures Scenario(evs, lag, node.nodeID, 0, period, m, heard)
    ensures |evs| == 3 && !HealthyAfter(evs, 2, timeout, node.nodeID)
  {
    var late: nat := if timeout + 1 >= lag then timeout + 1 - lag else 0;
    evs := MarkingRun(node, lag, late);
    heard := b => b == 0 || b > m;
    MarkingRunMarks(node, timeout, lag, late);
    UUIDsKeepTheirForm(node.nodeID);
    forall b: nat
      ensures HeardAmong(heard, b, m)
    {
      assert heard(if b == 0 then 0 else b + m);
    }
    forall b: nat | b > 0 && heard(b) && BeatTime(evs, 0, period, b) <= late
      ensures exists j :: 0 < j < |evs| && Refreshes(evs[j], node.nodeID) && evs[j].at == BeatTime(evs, 0, period, b)
    {
      MulLess(m + 1, b, period);
      assert Refreshes(evs[2], node.nodeID);
    }
  }

  /** Whatever keeps a node alive with these gaps keeps it healthy. */
  ghost predicate GapsAreSafe(id: string, timeout: nat, lag: nat, gap: nat) {
    forall evs: seq<Timed>, r: nat, n: nat ::
      Schedule(evs, lag) && KeptAlive(evs, id, r, gap) && r < n <= |evs| ==> HealthyAfter(evs, n, timeout, id)
  }

  /**
   * When a late reading does harm: nodes refreshed within `gap` before every sweep are safe from
   * being marked exactly when the gap and the lag together fit into the timeout.
   */
  lemma LagIsExact(node: Registration, timeout: nat, lag: nat, gap: nat)
    requires ValidateNodeRegistration(node).None?
    ensures GapsAreSafe(node.nodeID, timeout, lag, gap) <==> gap + lag <= timeout
  {
    if gap + lag <= timeout {
      forall evs: seq<Timed>, r: nat, n: nat
        | Schedule(evs, lag) && KeptAlive(evs, node.nodeID, r, gap) && r < n <= |evs|
        ensures HealthyAfter(evs, n, timeout, node.nodeID)
      {
        NoFalseAlarm(evs, timeout, gap, lag, node.nodeID, r, n);
      }
    } else {
      var evs := MarkingRun(node, lag, gap);
      MarkingRunMarks(node, timeout, lag, gap);
      assert Refreshes(evs[0], node.nodeID);
      assert RefreshedRecently(evs, node.nodeID, 0, gap, 1);
      assert KeptAlive(evs, node.nodeID, 0, gap);
    }
  }

  /** The bound is sharp: a sweep that finds a node one tick past the timeout marks it. */
  lemma PastTimeoutIsMarked(evs: seq<Timed>, n: nat, timeout: nat, id: string)
    requires 0 < n <= |evs| && evs[n - 1].ev.Sweep?
    requires id in RunNodes(evs, n - 1, timeout)
    ensures id in RunNodes(evs, n, timeout)
    ensures RunNodes(evs, n, timeout)[id].status == Unhealthy <==>
            || RunNodes(evs, n - 1, timeout)[id].status == Unhealthy
            || RunNodes(evs, n - 1, timeout)[id].lastSeen < evs[n - 1].ev.tick - timeout
  {
  }

  /**
   * The failing input: a heartbeat takes its clock reading before a registration does and is applied
   * after it, so last-seen moves backwards, and a sweep within the timeout of both marks the node.
   */
  lemma LateHeartbeatAges(n: Registration, timeout: nat)
    requires ValidateNodeRegistration(n).None? && timeout >= 1
    ensures var evs := [Timed(2, Register(n, 2)), Timed(2, Beat(n.nodeID, 0)), Timed(timeout + 1, Sweep(timeout + 1))];
            && Schedule(evs, 2) && evs[2].at - evs[1].at <= timeout - 1
            && !HealthyAfter(evs, 3, timeout, n.nodeID)
  {
    var evs := [Timed(2, Register(n, 2)), Timed(2, Beat(n.nodeID, 0)), Timed(timeout + 1, Sweep(timeout + 1))];
    UUIDsKeepTheirForm(n.nodeID);
    assert RunNodes(evs, 1, timeout) == map[n.nodeID := Record(n, 2, Healthy)];
    assert RunNodes(evs, 2, timeout) == map[n.nodeID := Record(n, 0, Healthy)];
  }
}
