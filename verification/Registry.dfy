/** The directory's node registry and the handlers that read and write it. */
module Registry {
  import opened Wrappers
  import opened Uuid

  datatype Status = Healthy | Unhealthy

  datatype Registration = Registration(nodeID: string, nodeType: string, host: string, port: int, publicKey: string)

  /** Times are in nanoseconds. */
  datatype Record = Record(node: Registration, lastSeen: int, status: Status)

  type Nodes = map<string, Record>

  /** Go's Unicode white space. */
  predicate IsSpace(c: char) {
    || '\t' <= c <= '\r' || c == ' ' || c == '\U{0085}' || c == '\U{00A0}' || c == '\U{1680}'
    || '\U{2000}' <= c <= '\U{200A}' || c == '\U{2028}' || c == '\U{2029}' || c == '\U{202F}'
    || c == '\U{205F}' || c == '\U{3000}'
  }

  predicate IsBlank(s: string) { forall i :: 0 <= i < |s| ==> IsSpace(s[i]) }

  predicate IsValidNodeType(t: string) { t == "guard" || t == "relay" || t == "exit" }

  function ValidateNodeRegistration(n: Registration): Option<string> {
    if IsBlank(n.nodeID) then Some("nodeId is required")
    else if !IsUUID(n.nodeID) then Some("nodeId must be a valid UUID")
    else if IsBlank(n.nodeType) then Some("nodeType is required")
    else if !IsValidNodeType(n.nodeType) then Some("nodeType must be one of: guard, relay, exit")
    else if IsBlank(n.host) then Some("host is required")
    else if n.port <= 0 || n.port > 65535 then Some("port must be between 1 and 65535")
    else if IsBlank(n.publicKey) then Some("publicKey is required")
    else None
  }

  /**
   * The registrations accepted: a UUID, one of the three types, a host and a public key that are not
   * blank, and a port a TCP endpoint can have.
   */
  lemma AcceptedRegistrations(n: Registration)
    ensures ValidateNodeRegistration(n).None? <==>
            && IsUUID(n.nodeID) && n.nodeType in {"guard", "relay", "exit"}
            && (exists i :: 0 <= i < |n.host| && !IsSpace(n.host[i]))
            && (exists i :: 0 <= i < |n.publicKey| && !IsSpace(n.publicKey[i]))
            && 1 <= n.port <= 65535
  {
    if IsUUID(n.nodeID) {
      assert !IsSpace(n.nodeID[0]);
    }
    if n.nodeType in {"guard", "relay", "exit"} {
      assert !IsSpace(n.nodeType[0]);
    }
  }

  /** What every write through the handlers keeps: records sit under their own id and were validated. */
  ghost predicate WellFormed(nodes: Nodes) {
    forall id :: id in nodes ==> nodes[id].node.nodeID == id && ValidateNodeRegistration(nodes[id].node).None?
  }

  // ---- Order of ids --------------------------------------------------------------------------

  predicate StrLess(a: string, b: string) {
    b != "" && (a == "" || a[0] < b[0] || (a[0] == b[0] && StrLess(a[1..], b[1..])))
  }

  lemma {:induction false} StrLessTotal(a: string, b: string)
    ensures StrLess(a, b) || StrLess(b, a) || a == b
    ensures !(StrLess(a, b) && StrLess(b, a)) && !StrLess(a, a)
  {
    if a != "" {
      StrLessTotal(a[1..], a[1..]);
      if b != "" && a[0] == b[0] {
        StrLessTotal(a[1..], b[1..]);
        assert a == [a[0]] + a[1..] && b == [b[0]] + b[1..];
      }
    }
  }

  lemma {:induction false} StrLessTransitive(a: string, b: string, c: string)
    requires StrLess(a, b) && StrLess(b, c)
    ensures StrLess(a, c)
  {
    if a != "" && a[0] == b[0] && b[0] == c[0] {
      StrLessTransitive(a[1..], b[1..], c[1..]);
    }
  }

  /** The order is that of the first character in which the ids differ; a proper prefix comes first. */
  lemma {:induction false} StrLessMeans(a: string, b: string)
    ensures StrLess(a, b) <==> exists k :: DifferFirst(a, b, k)
  {
    if a != "" && b != "" && a[0] == b[0] {
      StrLessMeans(a[1..], b[1..]);
      if exists k :: DifferFirst(a[1..], b[1..], k) {
        var k :| DifferFirst(a[1..], b[1..], k);
        assert a[..k + 1] == [a[0]] + a[1..][..k] && b[..k + 1] == [b[0]] + b[1..][..k];
        assert DifferFirst(a, b, k + 1);
      }
      if exists k :: DifferFirst(a, b, k) {
        var k :| DifferFirst(a, b, k);
        assert k > 0;
        assert a[1..][..k - 1] == a[..k][1..] && b[1..][..k - 1] == b[..k][1..];
        assert DifferFirst(a[1..], b[1..], k - 1);
      }
    } else if StrLess(a, b) {
      assert a[..0] == b[..0];
      assert DifferFirst(a, b, 0);
    } else if exists k :: DifferFirst(a, b, k) {
      var k :| DifferFirst(a, b, k);
      AgreeFirst(a, b, k);
    }
  }

  lemma AgreeFirst(a: string, b: string, k: int)
    requires DifferFirst(a, b, k)
    ensures k > 0 ==> a != "" && a[0] == b[0]
  {
    if k > 0 {
      assert a[..k][0] == b[..k][0];
    }
  }

  /** The ids agree up to `k`, where `a` ends or has the smaller character. */
  predicate DifferFirst(a: string, b: string, k: int) {
    0 <= k < |b| && k <= |a| && a[..k] == b[..k] && (k == |a| || a[k] < b[k])
  }

  // ---- Listings ------------------------------------------------------------------------------

  ghost predicate Ascending(r: seq<Record>) {
    forall i, j :: 0 <= i < j < |r| ==> StrLess(r[i].node.nodeID, r[j].node.nodeID)
  }

  ghost predicate Keyed(m: Nodes) { forall id :: id in m ==> m[id].node.nodeID == id }

  predicate IsRecordOf(x: Record, m: Nodes) { x.node.nodeID in m && m[x.node.nodeID] == x }

  /** `r` lists exactly the records of `m`, by strictly ascending id. */
  ghost predicate Lists(r: seq<Record>, m: Nodes) {
    Ascending(r) && forall x :: x in r <==> IsRecordOf(x, m)
  }

  function Matching(nodes: Nodes, includeUnhealthy: bool): Nodes {
    map id | id in nodes && (includeUnhealthy || nodes[id].status == Healthy) :: nodes[id]
  }

  /** There is only one listing of given records, in whatever order they were met. */
  lemma {:induction false} ListingIsUnique(r: seq<Record>, q: seq<Record>, m: Nodes)
    requires Lists(r, m) && Lists(q, m)
    ensures r == q
    decreases |r|
  {
    if r == [] {
      FirstIsListed(q, m);
    } else {
      assert r[0] in q;
      FirstIsLeast(r, q, m);
      FirstIsLeast(q, r, m);
      StrLessTotal(r[0].node.nodeID, q[0].node.nodeID);
      TailLists(r, m);
      TailLists(q, m);
      ListingIsUnique(r[1..], q[1..], m - {r[0].node.nodeID});
    }
  }

  lemma FirstIsListed(r: seq<Record>, m: Nodes)
    requires Lists(r, m)
    ensures r == [] || IsRecordOf(r[0], m)
  {
  }

  lemma FirstIsLeast(r: seq<Record>, q: seq<Record>, m: Nodes)
    requires Lists(r, m) && Lists(q, m) && r != [] && q != []
    ensures r[0] == q[0] || StrLess(r[0].node.nodeID, q[0].node.nodeID)
  {
    assert q[0] in r;
    var i :| 0 <= i < |r| && r[i] == q[0];
  }

  lemma TailLists(r: seq<Record>, m: Nodes)
    requires Lists(r, m) && r != []
    ensures Lists(r[1..], m - {r[0].node.nodeID})
  {
    forall x
      ensures x in r[1..] <==> IsRecordOf(x, m - {r[0].node.nodeID})
    {
      StrLessTotal(r[0].node.nodeID, x.node.nodeID);
      assert x in r <==> x == r[0] || x in r[1..];
      assert r[0] in r;
    }
  }

  lemma InsertedAscends(a: seq<Record>, x: Record, b: seq<Record>)
    requires Ascending(a + b)
    requires forall k :: 0 <= k < |a| ==> StrLess(a[k].node.nodeID, x.node.nodeID)
    requires forall k :: 0 <= k < |b| ==> StrLess(x.node.nodeID, b[k].node.nodeID)
    ensures Ascending(a + [x] + b)
  {
    var all := a + [x] + b;
    forall i, j | 0 <= i < j < |all|
      ensures StrLess(all[i].node.nodeID, all[j].node.nodeID)
    {
      if i != |a| && j != |a| {
        assert all[i] == (a + b)[if i < |a| then i else i - 1] && all[j] == (a + b)[if j < |a| then j else j - 1];
      }
    }
  }

  /** Put `x` where it belongs in an ascending listing that has no record of its id. */
  method Insert(r: seq<Record>, x: Record) returns (q: seq<Record>)
    requires Ascending(r) && forall y :: y in r ==> y.node.nodeID != x.node.nodeID
    ensures Ascending(q) && forall y :: y in q <==> y in r || y == x
  {
    var i := 0;
    while i < |r| && StrLess(r[i].node.nodeID, x.node.nodeID)
      invariant i <= |r|
      invariant forall k :: 0 <= k < i ==> StrLess(r[k].node.nodeID, x.node.nodeID)
    {
      i := i + 1;
    }
    forall j | i <= j < |r|
      ensures StrLess(x.node.nodeID, r[j].node.nodeID)
    {
      StrLessTotal(x.node.nodeID, r[i].node.nodeID);
      assert r[i] in r;
      if i < j {
        StrLessTransitive(x.node.nodeID, r[i].node.nodeID, r[j].node.nodeID);
      }
    }
    InsertedAscends(r[..i], x, r[i..]);
    assert r == r[..i] + r[i..];
    q := r[..i] + [x] + r[i..];
  }

  /** The records of `m` outside `todo`, each once, in any order. */
  ghost predicate Collected(found: seq<Record>, m: Nodes, todo: set<string>) {
    && (forall x :: x in found ==> IsRecordOf(x, m) && x.node.nodeID !in todo)
    && (forall id :: id in m && id !in todo ==> m[id] in found)
    && (forall i, j :: 0 <= i < j < |found| ==> found[i].node.nodeID != found[j].node.nodeID)
  }

  /** One more key looked at. */
  lemma CollectedGrows(found: seq<Record>, m: Nodes, todo: set<string>, id: string)
    requires Keyed(m) && id in todo && Collected(found, m, todo)
    ensures Collected(if id in m then found + [m[id]] else found, m, todo - {id})
  {
  }

  /** Sorting by id, for records whose ids differ. */
  method SortByID(found: seq<Record>, ghost m: Nodes) returns (r: seq<Record>)
    requires Keyed(m) && Collected(found, m, {})
    ensures Lists(r, m)
  {
    r := [];
    for i := 0 to |found|
      invariant Ascending(r) && forall y :: y in r <==> y in found[..i]
    {
      r := Insert(r, found[i]);
      assert found[..i + 1] == found[..i] + [found[i]];
    }
    assert found[..|found|] == found;
  }

  // ---- Sweeps --------------------------------------------------------------------------------

  predicate IsStale(r: Record, now: int, timeout: int) { r.status == Healthy && now - r.lastSeen > timeout }

  function Swept(nodes: Nodes, now: int, timeout: int): Nodes {
    map id | id in nodes :: if IsStale(nodes[id], now, timeout) then nodes[id].(status := Unhealthy) else nodes[id]
  }

  /** The records a sweep changes, as it leaves them. */
  function NewlyStale(nodes: Nodes, now: int, timeout: int): Nodes {
    map id | id in nodes && IsStale(nodes[id], now, timeout) :: nodes[id].(status := Unhealthy)
  }

  /** A sweep reports exactly the records it changes, as it leaves them; a full listing leaves none out. */
  lemma SweepReportsChanges(nodes: Nodes, now: int, timeout: int)
    ensures forall id :: id in NewlyStale(nodes, now, timeout) <==> id in nodes && Swept(nodes, now, timeout)[id] != nodes[id]
    ensures forall id :: id in NewlyStale(nodes, now, timeout) ==>
              NewlyStale(nodes, now, timeout)[id] == Swept(nodes, now, timeout)[id]
    ensures Matching(nodes, true) == nodes
    ensures forall id :: id in Matching(nodes, false) <==> id in nodes && nodes[id].status == Healthy
  {
  }

  /** Records outside `todo` are as the sweep leaves them, the others as they were. */
  ghost predicate HalfSwept(nodes: Nodes, before: Nodes, m: Nodes, todo: set<string>) {
    forall id :: id in before ==> id in nodes && nodes[id] == if id in m && id !in todo then m[id] else before[id]
  }

  /** Looking at one more record, and marking it if it is stale. */
  lemma SweepGoesOn(nodes: Nodes, before: Nodes, now: int, timeout: int, todo: set<string>, id: string)
    requires id in todo && id in before && HalfSwept(nodes, before, NewlyStale(before, now, timeout), todo)
    ensures nodes[id] == before[id]
    ensures HalfSwept(if IsStale(nodes[id], now, timeout) then nodes[id := nodes[id].(status := Unhealthy)] else nodes,
                      before, NewlyStale(before, now, timeout), todo - {id})
  {
  }

  class NodeRegistry {
    var nodes: Nodes

    constructor ()
      ensures nodes == map[]
    {
      nodes := map[];
    }

    method Upsert(node: Registration, now: int) returns (record: Record)
      modifies this
      ensures record == Record(node, now, Healthy) && nodes == old(nodes)[node.nodeID := record]
    {
      record := Record(node, now, Healthy);
      nodes := nodes[node.nodeID := record];
    }

    method Heartbeat(nodeID: string, now: int) returns (record: Option<Record>)
      modifies this
      ensures nodeID !in old(nodes) ==> record.None? && nodes == old(nodes)
      ensures nodeID in old(nodes) ==>
                && record == Some(old(nodes)[nodeID].(lastSeen := now, status := Healthy))
                && nodes == old(nodes)[nodeID := record.value]
    {
      if nodeID !in nodes {
        return None;
      }
      var r := nodes[nodeID];
      r := r.(lastSeen := now);
      r := r.(status := Healthy);
      nodes := nodes[nodeID := r];
      record := Some(r);
    }

    method Delete(nodeID: string) returns (ok: bool)
      modifies this
      ensures ok <==> nodeID in old(nodes)
      ensures nodes == old(nodes) - {nodeID}
    {
      if nodeID !in nodes {
        return false;
      }
      nodes := nodes - {nodeID};
      ok := true;
    }

    /** Go's map order is arbitrary; the answer does not depend on it. */
    method List(includeUnhealthy: bool) returns (r: seq<Record>)
      requires Keyed(nodes)
      ensures Lists(r, Matching(nodes, includeUnhealthy))
    {
      ghost var m := Matching(nodes, includeUnhealthy);
      var found: seq<Record> := [];
      var todo := nodes.Keys;
      while todo != {}
        invariant todo <= nodes.Keys && Collected(found, m, todo)
        decreases todo
      {
        var id :| id in todo;
        CollectedGrows(found, m, todo, id);
        todo := todo - {id};
        if !includeUnhealthy && nodes[id].status != Healthy {
          continue;
        }
        found := found + [nodes[id]];
      }
      r := SortByID(found, m);
    }

    /** Marks stale records in some order, collecting them as it goes. */
    method MarkUnhealthy(now: int, timeout: int) returns (transitions: seq<Record>)
      requires Keyed(nodes)
      modifies this
      ensures nodes == Swept(old(nodes), now, timeout)
      ensures Lists(transitions, NewlyStale(old(nodes), now, timeout))
    {
      ghost var before, m := nodes, NewlyStale(nodes, now, timeout);
      var found: seq<Record> := [];
      var todo := nodes.Keys;
      while todo != {}
        invariant todo <= nodes.Keys == before.Keys && Collected(found, m, todo)
        invariant HalfSwept(nodes, before, m, todo)
        decreases todo
      {
        var id :| id in todo;
        CollectedGrows(found, m, todo, id);
        SweepGoesOn(nodes, before, now, timeout, todo, id);
        todo := todo - {id};
        var node := nodes[id];
        if node.status == Unhealthy || now - node.lastSeen <= timeout {
          continue;
        }
        node := node.(status := Unhealthy);
        nodes := nodes[id := node];
        found := found + [node];
      }
      transitions := SortByID(found, m);
    }
  }

  /** A second sweep at the same time finds nothing and changes nothing. */
  lemma SecondSweepIsIdle(nodes: Nodes, now: int, timeout: int)
    ensures NewlyStale(Swept(nodes, now, timeout), now, timeout) == map[]
    ensures Swept(Swept(nodes, now, timeout), now, timeout) == Swept(nodes, now, timeout)
  {
  }
}
