/**
 * `mesh_service`: the in-process bank that opens an envelope. It unwraps the
 * AES key with the bank's private key, then hex-decodes nonce, ciphertext and
 * tag and decrypts-and-verifies, then decodes UTF-8 and parses JSON; every
 * exception on the way becomes `False`.
 */
module MeshService {
  import opened Wrappers
  import opened Bytes
  import opened JsonCodec
  import opened Crypto
  import opened BankKeys
  import opened EncryptionService

  /** The exception that stopped the opening, named by the step that raised it. */
  datatype OpenError =
    | NotAnObject                       // subscripting a JSON value that is not an object
    | MissingField(name: string)        // KeyError
    | NotAString(name: string)          // unhexlify of a non-string
    | BadHex(name: string, cause: HexError)
    | KeyUnavailable                    // load_bank_private_key raised
    | NotAPrivateKey                    // OAEP decryption with a public key
    | UnwrapFailed                      // OAEP decryption raised
    | AuthenticationFailed              // GCM decrypt_and_verify raised
    | NotUtf8
    | NotJson

  function Field(env: map<string, Json>, name: string): (r: Result<Json, OpenError>)
    ensures r.Ok? <==> name in env
  {
    if name in env then Ok(env[name]) else Err(OpenError.MissingField(name))
  }

  /** `unhexlify(value)` of a field value. */
  function UnhexField(name: string, value: Json): (r: Result<bytes, OpenError>)
    ensures r.Ok? ==> value.JString? && Unhexlify(value.s) == Ok(r.value)
  {
    match value
    case JString(s) =>
      (match Unhexlify(s)
       case Ok(b) => Ok(b)
       case Err(e) => Err(BadHex(name, e)))
    case _ => Err(NotAString(name))
  }

  /**
   * `_rsa_decrypt_with_bank_private_key`: `bankKey` is the outcome of
   * `load_bank_private_key()`, which runs first; then the hex is decoded; then
   * OAEP decryption, which needs the private half.
   */
  function RsaDecryptWithBankPrivateKey(p: Primitives, bankKey: Result<RsaKey, KeyError>,
                                        encryptedKeyHex: Json): (r: Result<bytes, OpenError>)
    ensures r.Ok? ==>
      && UnhexField("encrypted_key", encryptedKeyHex).Ok?
      && exists k :: bankKey == Ok(PrivateRsa(k)) && p.oaepDecrypt(k, UnhexField("encrypted_key", encryptedKeyHex).value) == Some(r.value)
  {
    if bankKey.Err? then Err(KeyUnavailable)
    else
      var wrapped :- UnhexField("encrypted_key", encryptedKeyHex);
      match bankKey.value
      case PublicRsa(_) => Err(NotAPrivateKey)
      case PrivateRsa(k) =>
        (match p.oaepDecrypt(k, wrapped)
         case None => Err(UnwrapFailed)
         case Some(aesKey) => Ok(aesKey))
  }

  /** `_aes_decrypt_packet`: decode nonce, ciphertext and tag, in that order, then decrypt-and-verify. */
  function AesDecryptPacket(p: Primitives, aesKey: bytes, ivHex: Json, ciphertextHex: Json,
                            tagHex: Json): (r: Result<bytes, OpenError>)
    ensures r.Ok? ==>
      && UnhexField("iv", ivHex).Ok? && UnhexField("ciphertext", ciphertextHex).Ok? && UnhexField("tag", tagHex).Ok?
      && p.gcmOpen(aesKey, UnhexField("iv", ivHex).value, UnhexField("ciphertext", ciphertextHex).value,
                   UnhexField("tag", tagHex).value) == Some(r.value)
  {
    var iv :- UnhexField("iv", ivHex);
    var ciphertext :- UnhexField("ciphertext", ciphertextHex);
    var tag :- UnhexField("tag", tagHex);
    match p.gcmOpen(aesKey, iv, ciphertext, tag)
    case None => Err(AuthenticationFailed)
    case Some(plaintext) => Ok(plaintext)
  }

  /** Steps 1 and 2 of `send_to_mesh`: the verified plaintext bytes. */
  function DecryptEnvelope(p: Primitives, bankKey: Result<RsaKey, KeyError>,
                           env: map<string, Json>): (r: Result<bytes, OpenError>)
    ensures r.Ok? ==>
      && "encrypted_key" in env && "iv" in env && "ciphertext" in env && "tag" in env
      && RsaDecryptWithBankPrivateKey(p, bankKey, env["encrypted_key"]).Ok?
      && r == AesDecryptPacket(p, RsaDecryptWithBankPrivateKey(p, bankKey, env["encrypted_key"]).value,
                               env["iv"], env["ciphertext"], env["tag"])
    ensures "encrypted_key" !in env ==> r == Err(OpenError.MissingField("encrypted_key"))
  {
    var encryptedKey :- Field(env, "encrypted_key");
    var aesKey :- RsaDecryptWithBankPrivateKey(p, bankKey, encryptedKey);
    var iv :- Field(env, "iv");
    var ciphertext :- Field(env, "ciphertext");
    var tag :- Field(env, "tag");
    AesDecryptPacket(p, aesKey, iv, ciphertext, tag)
  }

  /** The whole opening: decrypt, then `json.loads(plaintext.decode("utf-8"))`. */
  function OpenEnvelope(p: Primitives, c: Codec, bankKey: Result<RsaKey, KeyError>,
                        env: map<string, Json>): (r: Result<Json, OpenError>)
    ensures r.Ok? <==> DecryptEnvelope(p, bankKey, env).Ok? && ParseUtf8Json(c, DecryptEnvelope(p, bankKey, env).value).Some?
    ensures r.Ok? ==> ParseUtf8Json(c, DecryptEnvelope(p, bankKey, env).value) == Some(r.value)
    ensures DecryptEnvelope(p, bankKey, env).Err? ==> r == Err(DecryptEnvelope(p, bankKey, env).error)
  {
    var plaintext :- DecryptEnvelope(p, bankKey, env);
    match c.decodeUtf8(plaintext)
    case None => Err(NotUtf8)
    case Some(text) =>
      (match c.loads(text)
       case None => Err(NotJson)
       case Some(payload) => Ok(payload))
  }

  /** `send_to_mesh(encrypted_packet)`: True exactly when every step of the opening succeeds. */
  function SendToMesh(p: Primitives, c: Codec, bankKey: Result<RsaKey, KeyError>,
                      env: map<string, Json>): (b: bool)
    ensures b ==> "encrypted_key" in env && "iv" in env && "ciphertext" in env && "tag" in env
    ensures b <==> DecryptEnvelope(p, bankKey, env).Ok? && ParseUtf8Json(c, DecryptEnvelope(p, bankKey, env).value).Some?
  {
    OpenEnvelope(p, c, bankKey, env).Ok?
  }

  /** The bytes a field decodes to, or the error decoding it raises. */
  function FieldBytes(env: map<string, Json>, name: string): Result<bytes, OpenError> {
    var v :- Field(env, name);
    UnhexField(name, v)
  }

  /**
   * Round trip: an envelope sealed for the public half of `bank` opens, with
   * `bank`, to the very packet that was sealed, and `send_to_mesh` returns True.
   */
  lemma OpenSealedEnvelope(p: Primitives, c: Codec, bank: PrivateKey, packet: map<string, Json>,
                           env: map<string, Json>, key: bytes, iv: bytes, seed: bytes)
    requires LawfulPrimitives(p) && LawfulCodec(c)
    requires |key| == AesKeySize && |iv| == GcmNonceSize
    requires SealedWith(p, c, p.publicOf(bank), packet, env, key, iv, seed)
    ensures DecryptEnvelope(p, Ok(PrivateRsa(bank)), env) == Ok(SerializeUtf8Json(c, JObject(packet)))
    ensures OpenEnvelope(p, c, Ok(PrivateRsa(bank)), env) == Ok(JObject(packet))
    ensures SendToMesh(p, c, Ok(PrivateRsa(bank)), env)
  {
    EnvelopeHexFields(p, c, p.publicOf(bank), packet, env, key, iv, seed);
    assert RsaDecryptWithBankPrivateKey(p, Ok(PrivateRsa(bank)), env["encrypted_key"]) == Ok(key);
  }

  /** An envelope sealed for one bank key cannot be opened with the private key of another pair. */
  lemma WrongKeyRejected(p: Primitives, c: Codec, bank: PrivateKey, other: PrivateKey,
                         packet: map<string, Json>, env: map<string, Json>, key: bytes, iv: bytes, seed: bytes)
    requires LawfulPrimitives(p)
    requires p.publicOf(other) != p.publicOf(bank)
    requires SealedWith(p, c, p.publicOf(bank), packet, env, key, iv, seed)
    ensures OpenEnvelope(p, c, Ok(PrivateRsa(other)), env) == Err(UnwrapFailed)
  {
    EnvelopeHexFields(p, c, p.publicOf(bank), packet, env, key, iv, seed);
  }

  /**
   * Tampering: an envelope whose ciphertext or tag bytes differ from the sealed
   * ones never decrypts to the sealed plaintext; if it decrypts at all, it is to
   * a plaintext whose own sealing is exactly the altered ciphertext and tag.
   */
  lemma TamperedEnvelopeNeverYieldsSealedPlaintext(
    p: Primitives, c: Codec, bank: PrivateKey, packet: map<string, Json>,
    env: map<string, Json>, key: bytes, iv: bytes, seed: bytes, forged: map<string, Json>)
    requires LawfulPrimitives(p) && LawfulCodec(c)
    requires |key| == AesKeySize && |iv| == GcmNonceSize
    requires SealedWith(p, c, p.publicOf(bank), packet, env, key, iv, seed)
    requires "encrypted_key" in forged && forged["encrypted_key"] == env["encrypted_key"]
    requires "iv" in forged && forged["iv"] == env["iv"]
    requires FieldBytes(forged, "ciphertext") != FieldBytes(env, "ciphertext")
          || FieldBytes(forged, "tag") != FieldBytes(env, "tag")
    ensures DecryptEnvelope(p, Ok(PrivateRsa(bank)), forged) != Ok(SerializeUtf8Json(c, JObject(packet)))
    ensures DecryptEnvelope(p, Ok(PrivateRsa(bank)), forged).Ok? ==>
      p.gcmSeal(key, iv, DecryptEnvelope(p, Ok(PrivateRsa(bank)), forged).value)
        == Sealed(FieldBytes(forged, "ciphertext").value, FieldBytes(forged, "tag").value)
  {
    EnvelopeHexFields(p, c, p.publicOf(bank), packet, env, key, iv, seed);
    assert RsaDecryptWithBankPrivateKey(p, Ok(PrivateRsa(bank)), forged["encrypted_key"]) == Ok(key);
  }

  /** Changing only the tag bytes makes the opening fail at authentication, and `send_to_mesh` return False. */
  lemma TamperedTagRejected(p: Primitives, c: Codec, bank: PrivateKey, packet: map<string, Json>,
                            env: map<string, Json>, key: bytes, iv: bytes, seed: bytes, tagHex: string)
    requires LawfulPrimitives(p)
    requires |key| == AesKeySize && |iv| == GcmNonceSize
    requires SealedWith(p, c, p.publicOf(bank), packet, env, key, iv, seed)
    requires Unhexlify(tagHex).Ok? && Unhexlify(tagHex) != Unhexlify(env["tag"].s)
    ensures OpenEnvelope(p, c, Ok(PrivateRsa(bank)), env["tag" := JString(tagHex)]) == Err(AuthenticationFailed)
    ensures !SendToMesh(p, c, Ok(PrivateRsa(bank)), env["tag" := JString(tagHex)])
  {
    EnvelopeHexFields(p, c, p.publicOf(bank), packet, env, key, iv, seed);
    var forged := env["tag" := JString(tagHex)];
    var sealed := p.gcmSeal(key, iv, SerializeUtf8Json(c, JObject(packet)));
    var tag' := Unhexlify(tagHex).value;
    assert RsaDecryptWithBankPrivateKey(p, Ok(PrivateRsa(bank)), forged["encrypted_key"]) == Ok(key);
    assert AesDecryptPacket(p, key, forged["iv"], forged["ciphertext"], forged["tag"])
        == (match p.gcmOpen(key, iv, sealed.ciphertext, tag')
            case None => Err(AuthenticationFailed)
            case Some(m) => Ok(m));
  }

  /**
   * `timestamp`, `packet_id` and every other field besides the four
   * cryptographic ones are never read: envelopes that agree on those four open
   * alike.
   */
  lemma OnlyCryptoFieldsRead(p: Primitives, c: Codec, bankKey: Result<RsaKey, KeyError>,
                             env1: map<string, Json>, env2: map<string, Json>)
    requires Field(env1, "encrypted_key") == Field(env2, "encrypted_key")
    requires Field(env1, "iv") == Field(env2, "iv")
    requires Field(env1, "ciphertext") == Field(env2, "ciphertext")
    requires Field(env1, "tag") == Field(env2, "tag")
    ensures OpenEnvelope(p, c, bankKey, env1) == OpenEnvelope(p, c, bankKey, env2)
  {
  }

  /**
   * The key is unwrapped before any symmetric step: when unwrapping fails, that
   * failure is the outcome whatever the nonce, ciphertext and tag fields hold.
   */
  lemma UnwrapPrecedesDecryption(p: Primitives, c: Codec, bankKey: Result<RsaKey, KeyError>,
                                 env: map<string, Json>)
    requires "encrypted_key" in env
    requires RsaDecryptWithBankPrivateKey(p, bankKey, env["encrypted_key"]).Err?
    ensures OpenEnvelope(p, c, bankKey, env) == Err(RsaDecryptWithBankPrivateKey(p, bankKey, env["encrypted_key"]).error)
  {
  }
}
