/**
 * Byte strings as the onion protocol sees them. Ciphertexts are symbolic: a sealed value opens
 * under its own key and under no other. JSON objects are records whose fields may be missing,
 * null, well typed or badly typed, which is all that the decoders in shared/onion look at.
 */
module Wire {
  import opened Wrappers

  newtype octet = x: int | 0 <= x < 256

  type Key = seq<octet>
  type Nonce = seq<octet>
  type Headers = map<string, string>

  const KEY_SIZE: nat := 32
  const NONCE_SIZE: nat := 12
  const TAG_SIZE: nat := 16

  datatype Bytes =
    | Raw(octets: seq<octet>)
    | Sealed(key: Key, nonce: Nonce, plain: Bytes)
    | Text(doc: Doc)

  datatype Field<+T> = Absent | Null | Value(v: T) | Mistyped

  /** One JSON object; every field any decoder of the protocol asks for. */
  datatype Doc = Doc(
    nextHop: Field<string>, payload: Field<Bytes>,
    url: Field<string>, verb: Field<string>,
    headers: Field<Headers>, body: Field<Bytes>, statusCode: Field<int>)

  const EMPTY: Bytes := Raw([])
  const BLANK: Doc := Doc(Absent, Absent, Absent, Absent, Absent, Absent, Absent)

  datatype Layer = Layer(nextHop: string, payload: Bytes)

  datatype ExitLayer = ExitLayer(url: string, verb: string, headers: Headers, body: Bytes)

  datatype ExitResponse = ExitResponse(statusCode: int, headers: Headers, body: Bytes)

  // ---- AES-GCM -------------------------------------------------------------------------------

  predicate IsAesKey(key: Key) { |key| == 16 || |key| == 24 || |key| == 32 }

  function Encrypt(key: Key, nonce: Nonce, plain: Bytes): Result<Bytes, string> {
    if IsAesKey(key) then Ok(Sealed(key, nonce, plain)) else Err("create cipher")
  }

  function Decrypt(key: Key, cipher: Bytes): Result<Bytes, string> {
    if !IsAesKey(key) then Err("create cipher")
    else if LeastSize(cipher) < NONCE_SIZE then Err("ciphertext too short")
    else if cipher.Sealed? && cipher.key == key then Ok(cipher.plain)
    else Err("decrypt")
  }

  // ---- JSON decoding -------------------------------------------------------------------------

  /** Absent and null leave Go's zero value behind; a type mismatch is a decoding error. */
  function Get<T>(f: Field<T>, zero: T): Result<T, string> {
    match f
    case Absent => Ok(zero)
    case Null => Ok(zero)
    case Value(v) => Ok(v)
    case Mistyped => Err("json: cannot unmarshal")
  }

  function ReadLayer(doc: Doc): Result<Layer, string> {
    match (Get(doc.nextHop, ""), Get(doc.payload, EMPTY))
    case (Ok(nextHop), Ok(payload)) =>
      if nextHop == "" || payload == EMPTY then Err("layer must include nextHop and payload")
      else Ok(Layer(nextHop, payload))
    case _ => Err("decode onion layer")
  }

  function ReadExitLayer(doc: Doc): Result<ExitLayer, string> {
    match (Get(doc.url, ""), Get(doc.verb, ""), Get(doc.headers, map[]), Get(doc.body, EMPTY))
    case (Ok(url), Ok(verb), Ok(headers), Ok(body)) =>
      if url == "" || verb == "" then Err("exit layer must include url and method")
      else Ok(ExitLayer(url, verb, headers, body))
    case _ => Err("decode exit layer")
  }

  function ReadResponse(doc: Doc): Result<ExitResponse, string> {
    match (Get(doc.statusCode, 0), Get(doc.headers, map[]), Get(doc.body, EMPTY))
    case (Ok(code), Ok(headers), Ok(body)) => Ok(ExitResponse(code, headers, body))
    case _ => Err("unmarshal ExitResponse")
  }

  function UnwrapLayer(key: Key, cipher: Bytes): Result<Layer, string> {
    match Decrypt(key, cipher)
    case Ok(Text(doc)) => ReadLayer(doc)
    case Ok(_) => Err("decode onion layer")
    case Err(e) => Err("decrypt onion layer: " + e)
  }

  function UnwrapExitLayer(key: Key, cipher: Bytes): Result<ExitLayer, string> {
    match Decrypt(key, cipher)
    case Ok(Text(doc)) => ReadExitLayer(doc)
    case Ok(_) => Err("decode exit layer")
    case Err(e) => Err("decrypt exit layer: " + e)
  }

  // ---- JSON encoding -------------------------------------------------------------------------

  function OmitEmpty(b: Bytes): Field<Bytes> {
    if b == EMPTY then Absent else Value(b)
  }

  function OmitEmptyHeaders(h: Headers): Field<Headers> {
    if |h| == 0 then Absent else Value(h)
  }

  function LayerDoc(layer: Layer): Doc {
    BLANK.(nextHop := Value(layer.nextHop), payload := Value(layer.payload))
  }

  function ExitDoc(e: ExitLayer): Doc {
    BLANK.(url := Value(e.url), verb := Value(e.verb),
           headers := OmitEmptyHeaders(e.headers), body := OmitEmpty(e.body))
  }

  function ResponseDoc(r: ExitResponse): Doc {
    BLANK.(statusCode := Value(r.statusCode),
           headers := OmitEmptyHeaders(r.headers), body := OmitEmpty(r.body))
  }

  // ---- Sizes ---------------------------------------------------------------------------------

  /** Length of the base64 text of n bytes, padding included (section 4 of RFC 4648). */
  function Base64Size(n: nat): nat { 4 * ((n + 2) / 3) }

  function TextSize(f: Field<string>): nat { if f.Value? then |f.v| else 0 }

  function BinarySize(f: Field<Bytes>): nat
    decreases f
  {
    match f
    case Value(b) => Base64Size(LeastSize(b))
    case _ => 0
  }

  /**
   * Length in bytes. Raw and sealed values are measured exactly; of a JSON text only the braces,
   * the string values and the base64 of its binary fields are counted, so a real text is at
   * least this long.
   */
  function LeastSize(b: Bytes): nat
    decreases b
  {
    match b
    case Raw(octets) => |octets|
    case Sealed(_, _, plain) => NONCE_SIZE + LeastSize(plain) + TAG_SIZE
    case Text(doc) =>
      2 + TextSize(doc.nextHop) + BinarySize(doc.payload)
      + TextSize(doc.url) + TextSize(doc.verb) + BinarySize(doc.body)
  }

  // ---- Facts ---------------------------------------------------------------------------------

  /** The base64 text is the shortest whole number of four-character groups with six bits a character. */
  lemma Base64IsTight(n: nat)
    ensures Base64Size(n) % 4 == 0 && 6 * Base64Size(n) >= 8 * n
    ensures n > 0 ==> 6 * (Base64Size(n) - 4) < 8 * n
    ensures n == 0 ==> Base64Size(n) == 0
  {
  }

  /** A layer decodes exactly if both its fields are there and not empty. */
  lemma LayerDecodes(doc: Doc)
    ensures ReadLayer(doc).Ok? <==>
            doc.nextHop.Value? && doc.nextHop.v != "" && doc.payload.Value? && doc.payload.v != EMPTY
  {
  }

  /** An exit request needs its URL and method, and nothing mistyped beside them. */
  lemma ExitLayerDecodes(doc: Doc)
    ensures ReadExitLayer(doc).Ok? <==>
            && doc.url.Value? && doc.url.v != "" && doc.verb.Value? && doc.verb.v != ""
            && !doc.headers.Mistyped? && !doc.body.Mistyped?
  {
  }

  /** A response needs only that nothing is mistyped. */
  lemma ResponseDecodes(doc: Doc)
    ensures ReadResponse(doc).Ok? <==> !doc.statusCode.Mistyped? && !doc.headers.Mistyped? && !doc.body.Mistyped?
  {
  }

  lemma OnlyEmptyHasNoBytes(b: Bytes)
    ensures LeastSize(b) == 0 <==> b == EMPTY
  {
  }

  /** Decoders recover what the encoders wrote; dropping empty headers and bodies loses nothing. */
  lemma DecodersInvertEncoders(layer: Layer, e: ExitLayer, r: ExitResponse)
    ensures layer.nextHop != "" && layer.payload != EMPTY ==> ReadLayer(LayerDoc(layer)) == Ok(layer)
    ensures e.url != "" && e.verb != "" ==> ReadExitLayer(ExitDoc(e)) == Ok(e)
    ensures ReadResponse(ResponseDoc(r)) == Ok(r)
  {
  }

  /** Empty headers and bodies are left out of the text, others are not. */
  lemma EmptyFieldsAreOmitted(e: ExitLayer, r: ExitResponse)
    ensures ExitDoc(e).headers.Absent? <==> e.headers == map[]
    ensures ExitDoc(e).body.Absent? <==> e.body == EMPTY
    ensures ResponseDoc(r).headers.Absent? <==> r.headers == map[]
    ensures ResponseDoc(r).body.Absent? <==> r.body == EMPTY
  {
    assert |e.headers| == 0 ==> e.headers == map[];
    assert |r.headers| == 0 ==> r.headers == map[];
  }

  /** A document holds a forwarding layer or an exit request as the encoders write it, never both. */
  lemma EncodedDocsAreTold(layer: Layer, e: ExitLayer)
    ensures ReadExitLayer(LayerDoc(layer)).Err?
    ensures ReadLayer(ExitDoc(e)).Err?
  {
  }

  /** What a node forwards is at most three quarters of what it received, less nonce and tag. */
  lemma ForwardedPayloadShrinks(key: Key, cipher: Bytes, layer: Layer)
    requires UnwrapLayer(key, cipher) == Ok(layer)
    ensures 4 * LeastSize(layer.payload) <= 3 * (LeastSize(cipher) - NONCE_SIZE - TAG_SIZE)
    ensures layer.payload < cipher
  {
    var doc := cipher.plain.doc;
    assert doc.payload == Value(layer.payload);
    assert LeastSize(cipher.plain) >= BinarySize(doc.payload) == Base64Size(LeastSize(layer.payload));
  }
}
