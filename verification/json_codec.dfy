/**
 * JSON values and the serialisation pair `json.dumps` / `json.loads`, with
 * UTF-8 `str.encode()` / `bytes.decode("utf-8")`. The byte-exact formats are not
 * modelled: the codec is a value whose functions are only known to satisfy the
 * round-trip laws in `LawfulCodec`.
 */
module JsonCodec {
  import opened Wrappers
  import opened Bytes

  /** A decoded JSON document (`dict` is `JObject`, `list` is `JArray`). */
  datatype Json =
    | JNull
    | JBool(b: bool)
    | JInt(n: int)
    | JString(s: string)
    | JArray(items: seq<Json>)
    | JObject(fields: map<string, Json>)

  /**
   * `json.dumps`, `json.loads` (None when it raises), UTF-8 encoding and UTF-8
   * decoding (None when it raises).
   */
  datatype Codec = Codec(
    dumps: Json -> string,
    loads: string -> Option<Json>,
    encodeUtf8: string -> bytes,
    decodeUtf8: bytes -> Option<string>)

  /** The laws the model assumes of the library: each decoder undoes its encoder. */
  ghost predicate LawfulCodec(c: Codec) {
    && (forall j: Json :: c.loads(c.dumps(j)) == Some(j))
    && (forall s: string :: c.decodeUtf8(c.encodeUtf8(s)) == Some(s))
  }

  /** `json.dumps(value).encode("utf-8")`: what a node writes on a link. */
  function SerializeUtf8Json(c: Codec, value: Json): bytes {
    c.encodeUtf8(c.dumps(value))
  }

  /** `json.loads(value.decode("utf-8"))`, None when either step raises. */
  function ParseUtf8Json(c: Codec, value: bytes): (r: Option<Json>)
    ensures r.Some? ==> c.decodeUtf8(value).Some? && c.loads(c.decodeUtf8(value).value) == r
  {
    match c.decodeUtf8(value)
    case None => None
    case Some(text) => c.loads(text)
  }

  /** What one node serialises, the next parses back unchanged. */
  lemma ParseSerialized(c: Codec, value: Json)
    requires LawfulCodec(c)
    ensures ParseUtf8Json(c, SerializeUtf8Json(c, value)) == Some(value)
  {
  }
}
