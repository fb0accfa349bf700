/** Per-circuit session keys of one node and the two endpoints that write them. */
module Keys {
  import opened Wire

  type CircuitId = string

  /** The value of a base64 string field: empty, not base64 at all, or the text of some value. */
  datatype Base64<+T> = Blank | Garbled | Of(value: T)

  /** An RSA-OAEP ciphertext opens only under the key pair it was made for (section 7.1 of RFC 8017). */
  datatype OaepBlob = OaepSealed(pair: nat, plain: seq<octet>) | Junk

  datatype KeyBody = BadKeyJson | KeyBody(circuit: CircuitId, key: Base64<seq<octet>>)
  datatype SetupBody = BadSetupJson | SetupBody(circuit: CircuitId, encryptedKey: Base64<OaepBlob>)

  predicate AcceptsKey(isPost: bool, body: KeyBody) {
    && isPost && body.KeyBody? && body.circuit != ""
    && body.key.Of? && |body.key.value| == KEY_SIZE
  }

  predicate AcceptsSetup(isPost: bool, pair: nat, body: SetupBody) {
    && isPost && body.SetupBody? && body.circuit != ""
    && body.encryptedKey.Of? && body.encryptedKey.value.OaepSealed?
    && body.encryptedKey.value.pair == pair && |body.encryptedKey.value.plain| == KEY_SIZE
  }

  /** Every key stored is an AES-256 key, under an id that is not empty. */
  ghost predicate AllSessionKeys(keys: map<CircuitId, Key>) {
    forall id :: id in keys ==> id != "" && |keys[id]| == 32
  }

  /**
   * Key bytes live in buffers that a reader of `Get` shares with the store. `Store` puts a new
   * copy in the map and never writes to a buffer that was there before.
   */
  class KeyStore {
    var keys: map<CircuitId, array<octet>>

    ghost function Contents(): map<CircuitId, Key>
      reads this, keys.Values
    {
      map id | id in keys :: keys[id][..]
    }

    constructor ()
      ensures Contents() == map[]
    {
      keys := map[];
    }

    method Store(circuit: CircuitId, key: array<octet>)
      modifies this
      ensures circuit in keys && fresh(keys[circuit])
      ensures keys == old(keys)[circuit := keys[circuit]]
      ensures Contents() == old(Contents())[circuit := key[..]]
    {
      var copy := new octet[key.Length];
      for i := 0 to key.Length
        invariant copy[..i] == key[..i]
        invariant keys == old(keys) && fresh(copy) && copy !in keys.Values
        invariant forall id :: id in old(keys) ==> old(keys)[id][..] == old(keys[id][..])
      {
        copy[i] := key[i];
      }
      assert copy[..] == key[..];
      keys := keys[circuit := copy];
      assert forall id :: id in keys && id != circuit ==> id in old(keys) && keys[id] == old(keys)[id];
    }

    method Get(circuit: CircuitId) returns (key: array?<octet>, ok: bool)
      ensures ok <==> circuit in Contents()
      ensures ok ==> key != null && key == keys[circuit] && key[..] == Contents()[circuit]
    {
      if circuit in keys {
        return keys[circuit], true;
      }
      return null, false;
    }

    /** POST /key, the same code in the forwarding handler and in the exit handler. */
    method HandleKey(isPost: bool, body: KeyBody) returns (status: int)
      modifies this
      ensures AcceptsKey(isPost, body) ==> status == 204 && Contents() == old(Contents())[body.circuit := body.key.value]
      ensures !AcceptsKey(isPost, body) ==> status in {400, 405} && Contents() == old(Contents())
      ensures status == 405 <==> !isPost
      ensures forall id :: id in old(keys) ==> old(keys)[id][..] == old(keys[id][..])
      ensures old(AllSessionKeys(Contents())) ==> AllSessionKeys(Contents())
    {
      if !isPost { return 405; }
      if body.BadKeyJson? { return 400; }
      if body.circuit == "" || body.key.Blank? { return 400; }
      if body.key.Garbled? { return 400; }
      var decoded := body.key.value;
      if |decoded| != KEY_SIZE { return 400; }
      var buffer := new octet[|decoded|](i requires 0 <= i < |decoded| => decoded[i]);
      assert buffer[..] == decoded;
      Store(body.circuit, buffer);
      return 204;
    }

    /** POST /setup at a node whose private key belongs to `pair`. */
    method HandleSetup(isPost: bool, pair: nat, body: SetupBody) returns (status: int)
      modifies this
      ensures AcceptsSetup(isPost, pair, body) ==>
                status == 204 && Contents() == old(Contents())[body.circuit := body.encryptedKey.value.plain]
      ensures !AcceptsSetup(isPost, pair, body) ==> status in {400, 405} && Contents() == old(Contents())
      ensures status == 405 <==> !isPost
      ensures forall id :: id in old(keys) ==> old(keys)[id][..] == old(keys[id][..])
      ensures old(AllSessionKeys(Contents())) ==> AllSessionKeys(Contents())
    {
      if !isPost { return 405; }
      if body.BadSetupJson? { return 400; }
      if body.circuit == "" || body.encryptedKey.Blank? { return 400; }
      if body.encryptedKey.Garbled? { return 400; }
      var blob := body.encryptedKey.value;
      if blob.Junk? || blob.pair != pair { return 400; }
      if |blob.plain| != KEY_SIZE { return 400; }
      var buffer := new octet[|blob.plain|](i requires 0 <= i < |blob.plain| => blob.plain[i]);
      assert buffer[..] == blob.plain;
      Store(body.circuit, buffer);
      return 204;
    }
  }
}
