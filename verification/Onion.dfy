/**
 * Building onions and peeling replies: the recursion over hop lists of any length, the coded one-
 * and three-hop builders of both clients, and what nodes make of the result.
 */
module Onion {
  import opened Wrappers
  import opened Wire
  import opened Handlers

  datatype Hop = Hop(addr: Addr, key: Key)

  function KeysOf(path: seq<Hop>): seq<Key> { seq(|path|, i requires 0 <= i < |path| => path[i].key) }

  /** One sealed layer per hop, innermost the destination request; each names the hop after it. */
  function Build(path: seq<Hop>, nonces: seq<Nonce>, request: Doc): Bytes
    requires 0 < |path| <= |nonces|
  {
    Sealed(path[0].key, nonces[0], Text(
      if |path| == 1 then request
      else LayerDoc(Layer(path[1].addr, Build(path[1..], nonces[1..], request)))))
  }

  /** Unwrapping with one key after another: the addresses passed and the request at the end. */
  function PeelAll(keys: seq<Key>, payload: Bytes): Result<(seq<Addr>, ExitLayer), string>
    requires |keys| > 0
  {
    if |keys| == 1 then
      match UnwrapExitLayer(keys[0], payload)
      case Ok(request) => Ok(([], request))
      case Err(e) => Err(e)
    else
      match UnwrapLayer(keys[0], payload)
      case Ok(layer) =>
        (match PeelAll(keys[1..], layer.payload)
         case Ok((addrs, request)) => Ok(([layer.nextHop] + addrs, request))
         case Err(e) => Err(e))
      case Err(e) => Err(e)
  }

  /** What the client makes of a reply that passed the hops of `keys` on its way back. */
  function PeelReply(keys: seq<Key>, reply: Bytes): Result<ExitResponse, string> {
    if keys == [] then
      if reply.Text? then ReadResponse(reply.doc) else Err("unmarshal ExitResponse")
    else
      match Decrypt(keys[0], reply)
      case Ok(inner) => PeelReply(keys[1..], inner)
      case Err(e) => Err(e)
  }

  /** `reply` is `plain` sealed under each key, the first key outermost. */
  predicate SealedAlong(keys: seq<Key>, reply: Bytes, plain: Bytes) {
    if keys == [] then reply == plain
    else reply.Sealed? && reply.key == keys[0] && SealedAlong(keys[1..], reply.plain, plain)
  }

  // ---- The coded builders --------------------------------------------------------------------

  predicate ValidHops(hops: int) { hops == 1 || hops == 3 }

  function BuildOnionWithHops(
    guardKey: Key, relayKey: Key, exitKey: Key, exitLayer: ExitLayer, relayAddr: Addr, exitAddr: Addr,
    hops: int, guardNonce: Nonce, relayNonce: Nonce, exitNonce: Nonce): Result<Bytes, string>
  {
    if !ValidHops(hops) then Err("hops must be 1 or 3")
    else
      var layerKey := if hops == 1 then guardKey else exitKey;
      match Encrypt(layerKey, if hops == 1 then guardNonce else exitNonce, Text(ExitDoc(exitLayer)))
      case Err(_) => Err("encrypt exit layer")
      case Ok(exitCT) =>
        if hops == 1 then Ok(exitCT)
        else
          match Encrypt(relayKey, relayNonce, Text(LayerDoc(Layer(exitAddr, exitCT))))
          case Err(_) => Err("encrypt relay layer")
          case Ok(relayCT) =>
            match Encrypt(guardKey, guardNonce, Text(LayerDoc(Layer(relayAddr, relayCT))))
            case Err(_) => Err("encrypt guard layer")
            case Ok(guardCT) => Ok(guardCT)
  }

  function Unmarshal(plain: Bytes): Result<ExitResponse, string> {
    match plain
    case Text(doc) => ReadResponse(doc)
    case _ => Err("unmarshal ExitResponse")
  }

  function DecryptResponseWithHops(
    guardKey: Key, relayKey: Key, exitKey: Key, payload: Bytes, hops: int): Result<ExitResponse, string>
  {
    if !ValidHops(hops) then Err("hops must be 1 or 3")
    else if hops == 1 then
      match Decrypt(guardKey, payload)
      case Ok(json) => Unmarshal(json)
      case Err(_) => Err("decrypt guard layer")
    else
      match Decrypt(guardKey, payload)
      case Err(_) => Err("decrypt guard layer")
      case Ok(relayEncrypted) =>
        match Decrypt(relayKey, relayEncrypted)
        case Err(_) => Err("decrypt relay layer")
        case Ok(exitEncrypted) =>
          match Decrypt(exitKey, exitEncrypted)
          case Err(_) => Err("decrypt exit layer")
          case Ok(json) => Unmarshal(json)
  }

  /** The document the Python client serialises: every field is there, an empty body is null. */
  function PythonExitDoc(e: ExitLayer): Doc {
    BLANK.(url := Value(e.url), verb := Value(e.verb), headers := Value(e.headers),
           body := if e.body == EMPTY then Null else Value(e.body))
  }

  /** The Python client peels the same way and hands the JSON object on as it is. */
  function PythonPeel(keys: seq<Key>, reply: Bytes): Option<Doc> {
    if keys == [] then
      if reply.Text? then Some(reply.doc) else None
    else
      match Decrypt(keys[0], reply)
      case Ok(inner) => PythonPeel(keys[1..], inner)
      case Err(_) => None
  }

  // ---- Facts ---------------------------------------------------------------------------------

  ghost predicate GoodPath(path: seq<Hop>) {
    && |path| > 0
    && (forall i :: 0 <= i < |path| ==> IsAesKey(path[i].key))
    && (forall i :: 1 <= i < |path| ==> path[i].addr != "")
  }

  predicate GoodRequest(e: ExitLayer) { e.url != "" && e.verb != "" }

  function AddrsOf(path: seq<Hop>): seq<Addr> { seq(|path|, i requires 0 <= i < |path| => path[i].addr) }

  lemma TailsOf(path: seq<Hop>)
    requires |path| > 0
    ensures KeysOf(path)[1..] == KeysOf(path[1..]) && AddrsOf(path)[1..] == AddrsOf(path[1..])
    ensures KeysOf(path)[0] == path[0].key
  {
  }

  /** A document either client writes for the request `e`. */
  predicate Describes(doc: Doc, e: ExitLayer) {
    doc == ExitDoc(e) || doc == PythonExitDoc(e)
  }

  /** Both clients' documents decode to the request, and neither passes for a forwarding layer. */
  lemma BothDocsDecode(doc: Doc, e: ExitLayer)
    requires Describes(doc, e) && GoodRequest(e)
    ensures ReadExitLayer(doc) == Ok(e) && ReadLayer(doc).Err?
  {
  }

  /** Building and peeling undo each other, for a path of any length and for either client's document. */
  lemma {:induction false} PeelUndoesBuild(path: seq<Hop>, nonces: seq<Nonce>, e: ExitLayer, doc: Doc)
    requires GoodPath(path) && |path| <= |nonces| && GoodRequest(e) && Describes(doc, e)
    ensures PeelAll(KeysOf(path), Build(path, nonces, doc)) == Ok((AddrsOf(path[1..]), e))
  {
    TailsOf(path);
    if |path| == 1 {
      BothDocsDecode(doc, e);
      assert AddrsOf(path[1..]) == [];
    } else {
      var inner := Build(path[1..], nonces[1..], doc);
      PeelOuter(KeysOf(path), nonces[0], Layer(path[1].addr, inner));
      PeelUndoesBuild(path[1..], nonces[1..], e, doc);
      assert AddrsOf(path[1..]) == [path[1].addr] + AddrsOf(path[1..][1..]);
    }
  }

  /** Peeling a sealed forwarding layer with its own key, and what is inside with the others. */
  lemma PeelOuter(keys: seq<Key>, nonce: Nonce, layer: Layer)
    requires |keys| > 1 && IsAesKey(keys[0]) && layer.nextHop != "" && layer.payload != EMPTY
    ensures var inner := PeelAll(keys[1..], layer.payload);
            PeelAll(keys, Sealed(keys[0], nonce, Text(LayerDoc(layer)))) ==
            if inner.Ok? then Ok(([layer.nextHop] + inner.value.0, inner.value.1)) else Err(inner.error)
  {
    LayerDocsDecode(layer);
  }

  /** Any sealed reply of the path's keys peels back to the response it carries, 28 bytes a hop. */
  lemma {:induction false} PeelReplyUndoesSealing(keys: seq<Key>, reply: Bytes, response: ExitResponse)
    requires forall i :: 0 <= i < |keys| ==> IsAesKey(keys[i])
    requires SealedAlong(keys, reply, Text(ResponseDoc(response)))
    ensures PeelReply(keys, reply) == Ok(response)
    ensures LeastSize(reply) == LeastSize(Text(ResponseDoc(response))) + 28 * |keys|
  {
    DecodersInvertEncoders(Layer("", EMPTY), ExitLayer("", "", map[], EMPTY), response);
    if keys != [] {
      PeelReplyUndoesSealing(keys[1..], reply.plain, response);
    }
  }

  /** Both clients peel a reply to the same JSON object, or both fail to. */
  lemma {:induction false} ClientsPeelAlike(keys: seq<Key>, reply: Bytes)
    ensures PythonPeel(keys, reply).Some? ==> PeelReply(keys, reply) == ReadResponse(PythonPeel(keys, reply).value)
    ensures PythonPeel(keys, reply).None? ==> PeelReply(keys, reply).Err?
  {
    if keys != [] && Decrypt(keys[0], reply).Ok? {
      ClientsPeelAlike(keys[1..], Decrypt(keys[0], reply).value);
    }
  }

  /** The coded builder is the recursion at lengths one and three. */
  lemma CodedBuildIsRecursive(guard: Hop, relay: Hop, exit: Hop, e: ExitLayer, hops: int, n: seq<Nonce>)
    requires ValidHops(hops) && |n| == 3
    requires IsAesKey(guard.key) && IsAesKey(relay.key) && IsAesKey(exit.key)
    ensures BuildOnionWithHops(guard.key, relay.key, exit.key, e, relay.addr, exit.addr, hops, n[0], n[1], n[2])
            == Ok(Build(CodedPath(guard, relay, exit, hops), n, ExitDoc(e)))
  {
    if hops == 3 {
      assert [guard, relay, exit][1..] == [relay, exit] && [relay, exit][1..] == [exit];
      assert n[1..][1..] == [n[2]];
      assert Build([exit], n[1..][1..], ExitDoc(e)) == Sealed(exit.key, n[2], Text(ExitDoc(e)));
      assert Build([relay, exit], n[1..], ExitDoc(e))
          == Sealed(relay.key, n[1], Text(LayerDoc(Layer(exit.addr, Build([exit], n[1..][1..], ExitDoc(e))))));
    }
  }

  function CodedPath(guard: Hop, relay: Hop, exit: Hop, hops: int): seq<Hop>
    requires ValidHops(hops)
  {
    if hops == 1 then [guard] else [guard, relay, exit]
  }

  /** The coded peeler is the recursion at lengths one and three, up to the wording of errors. */
  lemma CodedPeelIsRecursive(g: Key, r: Key, x: Key, reply: Bytes, hops: int)
    requires ValidHops(hops)
    ensures SameUpToError(DecryptResponseWithHops(g, r, x, reply, hops),
                          PeelReply(if hops == 1 then [g] else [g, r, x], reply))
  {
    PeelOne(g, [], reply);
    if hops == 3 {
      PeelOne(g, [r, x], reply);
      if Decrypt(g, reply).Ok? {
        PeelOne(r, [x], Decrypt(g, reply).value);
        if Decrypt(r, Decrypt(g, reply).value).Ok? {
          PeelOne(x, [], Decrypt(r, Decrypt(g, reply).value).value);
        }
      }
      assert [g] + [r, x] == [g, r, x] && [r] + [x] == [r, x];
    }
  }

  lemma PeelOne(k: Key, ks: seq<Key>, reply: Bytes)
    ensures Decrypt(k, reply).Ok? ==> PeelReply([k] + ks, reply) == PeelReply(ks, Decrypt(k, reply).value)
    ensures Decrypt(k, reply).Err? ==> PeelReply([k] + ks, reply).Err?
  {
  }

  predicate SameUpToError(a: Result<ExitResponse, string>, b: Result<ExitResponse, string>) {
    a == b || (a.Err? && b.Err?)
  }

  /**
   * Dispatch at the first hop: whatever its role, a longer onion is only ever forwarded, a one-hop
   * onion is only ever carried out, and a role that cannot do so refuses.
   */
  lemma FirstHopDispatch(role: Role, path: seq<Hop>, nonces: seq<Nonce>, e: ExitLayer, doc: Doc)
    requires GoodPath(path) && |path| <= |nonces| && GoodRequest(e) && Describes(doc, e)
    ensures Peel(role, path[0].key, Build(path, nonces, doc)) ==
            if |path| == 1 then (if role.Relay? then Refuse(400) else Perform(path[0].key, e))
            else if role.Exit? then Refuse(400)
            else Forward(path[0].key, path[1].addr, Build(path[1..], nonces[1..], doc))
  {
    var outer := OuterDoc(path, nonces, doc);
    assert IsAesKey(path[0].key);
    UnwrapSealed(path[0].key, path[0].key, nonces[0], outer, outer);
    if |path| == 1 {
      BothDocsDecode(doc, e);
    } else {
      LayerDocsDecode(Layer(path[1].addr, Build(path[1..], nonces[1..], doc)));
    }
  }

  lemma LayerDocsDecode(layer: Layer)
    requires layer.nextHop != "" && layer.payload != EMPTY
    ensures ReadLayer(LayerDoc(layer)) == Ok(layer) && ReadExitLayer(LayerDoc(layer)).Err?
  {
  }

  lemma DocsReadAlike(e: ExitLayer)
    ensures ReadExitLayer(ExitDoc(e)) == ReadExitLayer(PythonExitDoc(e))
    ensures ReadLayer(ExitDoc(e)) == ReadLayer(PythonExitDoc(e)) && ReadLayer(ExitDoc(e)).Err?
  {
  }

  /**
   * The two clients are interchangeable: whatever keys an onion is unwrapped with, at any depth,
   * the route and the request found are those of the other client's onion.
   */
  lemma {:induction false} ClientsInterchange(path: seq<Hop>, nonces: seq<Nonce>, e: ExitLayer, keys: seq<Key>)
    requires 0 < |path| <= |nonces| && |keys| > 0
    ensures PeelAll(keys, Build(path, nonces, ExitDoc(e))) == PeelAll(keys, Build(path, nonces, PythonExitDoc(e)))
  {
    if |path| == 1 {
      DocsReadAlike(e);
      SealedReadAlike(keys, path[0].key, nonces[0], ExitDoc(e), PythonExitDoc(e));
    } else {
      if |keys| > 1 {
        ClientsInterchange(path[1..], nonces[1..], e, keys[1..]);
      }
      var a, b := Build(path[1..], nonces[1..], ExitDoc(e)), Build(path[1..], nonces[1..], PythonExitDoc(e));
      LayersReadAlike(path[1].addr, a, b);
      SealedReadAlike(keys, path[0].key, nonces[0], LayerDoc(Layer(path[1].addr, a)), LayerDoc(Layer(path[1].addr, b)));
    }
  }

  lemma LayersReadAlike(nextHop: Addr, a: Bytes, b: Bytes)
    requires a != EMPTY && b != EMPTY
    ensures var x, y := LayerDoc(Layer(nextHop, a)), LayerDoc(Layer(nextHop, b));
            && ReadExitLayer(x) == ReadExitLayer(y)
            && if nextHop == "" then ReadLayer(x) == ReadLayer(y) && ReadLayer(x).Err?
               else ReadLayer(x) == Ok(Layer(nextHop, a)) && ReadLayer(y) == Ok(Layer(nextHop, b))
  {
  }

  /** Documents that decode alike, up to payloads that peel alike, peel alike when sealed. */
  lemma SealedReadAlike(keys: seq<Key>, sealer: Key, nonce: Nonce, a: Doc, b: Doc)
    requires |keys| > 0 && ReadExitLayer(a) == ReadExitLayer(b)
    requires ReadLayer(a).Err? ==> ReadLayer(a) == ReadLayer(b)
    requires ReadLayer(a).Ok? ==> ReadLayer(b).Ok? && ReadLayer(a).value.nextHop == ReadLayer(b).value.nextHop
    requires ReadLayer(a).Ok? && |keys| > 1 ==>
               PeelAll(keys[1..], ReadLayer(a).value.payload) == PeelAll(keys[1..], ReadLayer(b).value.payload)
    ensures PeelAll(keys, Sealed(sealer, nonce, Text(a))) == PeelAll(keys, Sealed(sealer, nonce, Text(b)))
  {
    UnwrapSealed(keys[0], sealer, nonce, a, b);
  }

  /** The document in the outermost layer. */
  function OuterDoc(path: seq<Hop>, nonces: seq<Nonce>, request: Doc): Doc
    requires 0 < |path| <= |nonces|
  {
    Build(path, nonces, request).plain.doc
  }

  /** Unwrapping reads the sealed document if the key fits, and otherwise does not look at it. */
  lemma UnwrapSealed(key: Key, sealer: Key, nonce: Nonce, a: Doc, b: Doc)
    ensures IsAesKey(key) && key == sealer ==>
              && UnwrapLayer(key, Sealed(sealer, nonce, Text(a))) == ReadLayer(a)
              && UnwrapLayer(key, Sealed(sealer, nonce, Text(b))) == ReadLayer(b)
              && UnwrapExitLayer(key, Sealed(sealer, nonce, Text(a))) == ReadExitLayer(a)
              && UnwrapExitLayer(key, Sealed(sealer, nonce, Text(b))) == ReadExitLayer(b)
    ensures !(IsAesKey(key) && key == sealer) ==>
              && UnwrapLayer(key, Sealed(sealer, nonce, Text(a))) == UnwrapLayer(key, Sealed(sealer, nonce, Text(b)))
              && UnwrapLayer(key, Sealed(sealer, nonce, Text(a))).Err?
              && UnwrapExitLayer(key, Sealed(sealer, nonce, Text(a))) == UnwrapExitLayer(key, Sealed(sealer, nonce, Text(b)))
  {
  }

  /** Two onions that look the same were built for the same hops and the same request. */
  lemma {:induction false} BuildIsInjective(
    p: seq<Hop>, m: seq<Nonce>, e: ExitLayer, q: seq<Hop>, n: seq<Nonce>, f: ExitLayer)
    requires GoodPath(p) && |p| <= |m| && GoodRequest(e)
    requires GoodPath(q) && |q| <= |n| && GoodRequest(f)
    requires Build(p, m, ExitDoc(e)) == Build(q, n, ExitDoc(f))
    ensures KeysOf(p) == KeysOf(q) && AddrsOf(p[1..]) == AddrsOf(q[1..]) && e == f
  {
    SameBuildSameKeys(p, m, e, q, n, f);
    PeelUndoesBuild(p, m, e, ExitDoc(e));
    PeelUndoesBuild(q, n, f, ExitDoc(f));
  }

  lemma {:induction false} SameBuildSameKeys(
    p: seq<Hop>, m: seq<Nonce>, e: ExitLayer, q: seq<Hop>, n: seq<Nonce>, f: ExitLayer)
    requires 0 < |p| <= |m| && 0 < |q| <= |n|
    requires Build(p, m, ExitDoc(e)) == Build(q, n, ExitDoc(f))
    ensures KeysOf(p) == KeysOf(q)
  {
    TailsOf(p);
    TailsOf(q);
    if |p| > 1 && |q| > 1 {
      SameBuildSameKeys(p[1..], m[1..], e, q[1..], n[1..], f);
      assert KeysOf(p) == [p[0].key] + KeysOf(p[1..]);
      assert KeysOf(q) == [q[0].key] + KeysOf(q[1..]);
    }
  }
}
