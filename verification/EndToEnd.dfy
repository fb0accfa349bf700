/**
 * What the onion network promises its clients, over every run of `DataPlane`: answers are never
 * mixed up, destinations are visited at most once per send, forwarding ends, statuses mean what
 * they should, and a send over nodes that hold the client's keys can only fail by a loss.
 */
module EndToEnd {
  import opened Wrappers
  import opened Wire
  import opened Handlers
  import opened DataPlane
  import opened Onion

  function Last(tr: seq<State>): State
    requires |tr| > 0
  {
    tr[|tr| - 1]
  }

  /** Every state a run ends in, from an empty network. */
  ghost predicate EndsIn(tr: seq<State>, steps: seq<Step>, s: State) {
    IsRun(tr, steps) && Init(tr[0]) && s == Last(tr)
  }

  lemma EndStatesAreInv(tr: seq<State>, steps: seq<Step>, s: State)
    requires EndsIn(tr, steps, s)
    ensures Inv(s)
  {
    InitIsInv(tr[0]);
    RunsKeepInv(tr, steps, |steps|);
  }

  predicate Succeeded(s: State, i: nat) {
    i < |s.calls| && s.calls[i].stage.Finished? && s.calls[i].stage.reply.Success?
  }

  predicate Failed(s: State, i: nat) {
    i < |s.calls| && s.calls[i].stage.Finished? && s.calls[i].stage.reply.Failure?
  }

  // ---- No mix-up -----------------------------------------------------------------------------

  /** A call that answered a one-hop onion did so from its destination, for the request in it. */
  lemma LastCallAnswers(s: State, i: nat, key: Key, nonce: Nonce, e: ExitLayer, doc: Doc)
    requires Inv(s) && Succeeded(s, i) && Describes(doc, e)
    requires s.calls[i].payload == Sealed(key, nonce, Text(doc))
    ensures IsAesKey(key) && GoodRequest(e)
    ensures var stage := s.calls[i].stage;
            && stage.ending.Visited? && stage.ending.outcome.Answer?
            && Effect(s.calls[i].root, e, stage.ending.outcome) in s.effects
            && SealedUnder(stage.reply.payload, key, Text(ResponseDoc(stage.ending.outcome.response)))
  {
    assert CallOk(s, i);
    DocsReadAlike(e);
    assert |e.headers| == 0 ==> e.headers == map[];
  }

  /** A call that answered a longer onion sealed what the call of the next hop answered to the rest. */
  lemma MiddleCallAnswers(s: State, i: nat, key: Key, nonce: Nonce, layer: Layer)
    requires Inv(s) && Succeeded(s, i)
    requires s.calls[i].payload == Sealed(key, nonce, Text(LayerDoc(layer)))
    ensures IsAesKey(key) && layer.nextHop != ""
    ensures var stage := s.calls[i].stage;
            && stage.ending.Returned? && Succeeded(s, stage.ending.child)
            && s.calls[stage.ending.child].payload == layer.payload
            && s.calls[stage.ending.child].root == s.calls[i].root
            && SealedUnder(stage.reply.payload, key, s.calls[stage.ending.child].stage.reply.payload)
  {
    assert CallOk(s, i);
  }

  /** Down the chain of calls that answered one another, the reply is sealed under the onion's own keys. */
  lemma {:induction false} AnswerFollowsOnion(s: State, i: nat, path: seq<Hop>, nonces: seq<Nonce>, e: ExitLayer, doc: Doc)
    requires Inv(s) && Succeeded(s, i)
    requires 0 < |path| <= |nonces| && Describes(doc, e)
    requires s.calls[i].payload == Build(path, nonces, doc)
    ensures exists response ::
              && Effect(s.calls[i].root, e, Answer(response)) in s.effects
              && SealedAlong(KeysOf(path), s.calls[i].stage.reply.payload, Text(ResponseDoc(response)))
    ensures GoodPath(path) && GoodRequest(e)
    decreases |path|
  {
    TailsOf(path);
    var stage := s.calls[i].stage;
    if |path| == 1 {
      LastCallAnswers(s, i, path[0].key, nonces[0], e, doc);
      var response := stage.ending.outcome.response;
      assert SealedAlong(KeysOf(path)[1..], stage.reply.payload.plain, Text(ResponseDoc(response)));
    } else {
      MiddleCallAnswers(s, i, path[0].key, nonces[0], Layer(path[1].addr, Build(path[1..], nonces[1..], doc)));
      var j := stage.ending.child;
      AnswerFollowsOnion(s, j, path[1..], nonces[1..], e, doc);
      var response :| Effect(s.calls[j].root, e, Answer(response)) in s.effects
                      && SealedAlong(KeysOf(path[1..]), s.calls[j].stage.reply.payload, Text(ResponseDoc(response)));
      assert SealedAlong(KeysOf(path), stage.reply.payload, Text(ResponseDoc(response)));
      assert forall k :: 1 <= k < |path| ==> path[k] == path[1..][k - 1];
    }
  }

  /**
   * No mix-up, under any interleaving. A send that returns 200 for an onion built with some keys
   * yields, when peeled with those same keys, what a destination answered to that very request of
   * that very send, whoever overwrote which key in the meantime.
   */
  lemma {:induction false} NoMixUp(tr: seq<State>, steps: seq<Step>, s: State, r: nat,
                path: seq<Hop>, nonces: seq<Nonce>, e: ExitLayer, doc: Doc)
    requires EndsIn(tr, steps, s) && Succeeded(s, r)
    requires 0 < |path| <= |nonces| && Describes(doc, e)
    requires s.calls[r].payload == Build(path, nonces, doc)
    ensures exists response ::
              && Effect(s.calls[r].root, e, Answer(response)) in s.effects
              && PeelReply(KeysOf(path), s.calls[r].stage.reply.payload) == Ok(response)
              && LeastSize(s.calls[r].stage.reply.payload) == LeastSize(Text(ResponseDoc(response))) + 28 * |path|
  {
    EndStatesAreInv(tr, steps, s);
    AnswerFollowsOnion(s, r, path, nonces, e, doc);
    var response :| Effect(s.calls[r].root, e, Answer(response)) in s.effects
                    && SealedAlong(KeysOf(path), s.calls[r].stage.reply.payload, Text(ResponseDoc(response)));
    PeelReplyUndoesSealing(KeysOf(path), s.calls[r].stage.reply.payload, response);
  }

  /** The same for the coded builder and peeler: after a 200 the client's decryption cannot fail. */
  lemma CodedClientGetsItsAnswer(tr: seq<State>, steps: seq<Step>, s: State, r: nat,
                                 guard: Hop, relay: Hop, exit: Hop, e: ExitLayer, hops: int, n: seq<Nonce>)
    requires EndsIn(tr, steps, s) && Succeeded(s, r) && ValidHops(hops) && |n| == 3
    requires IsAesKey(guard.key) && IsAesKey(relay.key) && IsAesKey(exit.key)
    requires BuildOnionWithHops(guard.key, relay.key, exit.key, e, relay.addr, exit.addr, hops, n[0], n[1], n[2])
             == Ok(s.calls[r].payload)
    ensures exists response ::
              && Effect(s.calls[r].root, e, Answer(response)) in s.effects
              && DecryptResponseWithHops(guard.key, relay.key, exit.key, s.calls[r].stage.reply.payload, hops) == Ok(response)
  {
    var path := CodedPath(guard, relay, exit, hops);
    CodedBuildIsRecursive(guard, relay, exit, e, hops, n);
    CodedPeelIsRecursive(guard.key, relay.key, exit.key, s.calls[r].stage.reply.payload, hops);
    assert KeysOf(path) == if hops == 1 then [guard.key] else [guard.key, relay.key, exit.key];
    NoMixUp(tr, steps, s, r, path, n, e, ExitDoc(e));
  }

  // ---- Bounded effects and bounded forwarding ------------------------------------------------

  /** Each send brings about at most one visit to a destination; a returned answer, exactly one. */
  lemma OneVisitPerSend(tr: seq<State>, steps: seq<Step>, s: State, d: nat, x: nat)
    requires EndsIn(tr, steps, s)
    requires d < |s.effects| && x < |s.effects| && s.effects[d].root == s.effects[x].root
    ensures d == x
  {
    EndStatesAreInv(tr, steps, s);
  }

  /** No visit goes unrecorded: also a destination that broke off or could not be reached counts as visited. */
  lemma VisitsAreRecorded(tr: seq<State>, steps: seq<Step>, s: State, i: nat)
    requires EndsIn(tr, steps, s) && i < |s.calls| && s.calls[i].stage.Finished? && s.calls[i].stage.ending.Visited?
    requires !s.calls[i].stage.ending.outcome.InvalidRequest?
    ensures s.calls[i].stage.action.Perform?
    ensures Effect(s.calls[i].root, s.calls[i].stage.action.request, s.calls[i].stage.ending.outcome) in s.effects
  {
    EndStatesAreInv(tr, steps, s);
    assert CallOk(s, i);
  }

  /**
   * Forwarding ends, even when next-hop addresses run in a circle: the calls of one send have
   * increasing depths, and the depth is at most logarithmic in the size of the onion sent.
   */
  lemma ForwardingEnds(tr: seq<State>, steps: seq<Step>, s: State, i: nat)
    requires EndsIn(tr, steps, s) && i < |s.calls|
    ensures var r := s.calls[i].root;
            && r <= i
            && Pow(4, s.calls[i].depth) <= Pow(3, s.calls[i].depth) * (LeastSize(s.calls[r].payload) + 1)
            && forall j :: i < j < |s.calls| && s.calls[j].root == r ==> s.calls[i].depth < s.calls[j].depth
  {
    EndStatesAreInv(tr, steps, s);
    assert CallOk(s, i);
    var c := s.calls[i];
    var first := LeastSize(s.calls[c.root].payload);
    OnlyEmptyHasNoBytes(c.payload);
    PowPositive(3, c.depth);
    if c.depth > 0 {
      MulMonotone(Pow(4, c.depth), 1, LeastSize(c.payload));
      MulMonotone(Pow(3, c.depth), first, first + 1);
    }
  }

  lemma PowPositive(b: nat, n: nat)
    requires b > 0
    ensures Pow(b, n) > 0
  {
  }

  // ---- Statuses ------------------------------------------------------------------------------

  /** Every hop from call `i` on peeled and was answered, and the destination answered. */
  ghost predicate Delivered(s: State, i: nat)
    requires Inv(s) && i < |s.calls|
    decreases |s.calls| - i
  {
    assert CallOk(s, i);
    s.calls[i].stage.Finished? &&
    match s.calls[i].stage.ending
    case Returned(j) => Delivered(s, j)
    case Visited(outcome) => outcome.Answer?
    case _ => false
  }

  lemma {:induction false} SucceededIffDelivered(s: State, i: nat)
    requires Inv(s) && i < |s.calls|
    ensures Succeeded(s, i) <==> Delivered(s, i)
    decreases |s.calls| - i
  {
    assert CallOk(s, i);
    if s.calls[i].stage.Finished? && s.calls[i].stage.ending.Returned? {
      SucceededIffDelivered(s, s.calls[i].stage.ending.child);
    }
  }

  /**
   * The status a caller sees. It is 200 exactly when every hop peeled and the destination answered;
   * any failure behind a node that forwarded is a 502; a node that did not forward answers 400 or
   * 401, or, being an exit whose destination failed, by the text of that failure.
   */
  lemma StatusMeaning(tr: seq<State>, steps: seq<Step>, s: State, i: nat)
    requires EndsIn(tr, steps, s) && i < |s.calls| && s.calls[i].stage.Finished?
    ensures Inv(s)
    ensures Succeeded(s, i) <==> Delivered(s, i)
    ensures Failed(s, i) && s.calls[i].stage.action.Forward? ==> s.calls[i].stage.reply.code == 502
    ensures Failed(s, i) && s.calls[i].stage.action.Refuse? ==> s.calls[i].stage.reply.code in {400, 401}
    ensures Failed(s, i) && s.calls[i].stage.action.Perform? ==>
              && s.calls[i].addr in s.roles
              && (s.roles[s.calls[i].addr].Exit? || s.calls[i].stage.reply.code == 400)
              && (s.calls[i].stage.reply.code == 502 ==> s.roles[s.calls[i].addr].Exit?)
              && s.calls[i].stage.reply.code in {400, 502}
  {
    EndStatesAreInv(tr, steps, s);
    assert CallOk(s, i);
    SucceededIffDelivered(s, i);
  }
}
