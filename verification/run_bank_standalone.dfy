/**
 * `run_bank_standalone.py`: the bank over classic Bluetooth. For each
 * connection it reads until the peer stops sending, decodes the bytes as
 * UTF-8 and processes the packet with its own copies of the decryption
 * helpers, then closes the connection whatever happened.
 */
module RunBankStandalone {
  import opened Wrappers
  import opened Bytes
  import opened JsonCodec
  import opened Crypto
  import opened BankKeys
  import opened EncryptionService
  import opened MeshService
  import opened StreamSocket

  /**
   * `load_private_key()`: None when `bank_private.pem` does not exist; an
   * import that raises is not caught here.
   */
  function LoadPrivateKey(keyFile: Option<PemFile>): (r: Result<Option<RsaKey>, KeyError>)
    ensures r == Ok(None) <==> keyFile.None?
    ensures keyFile.Some? && keyFile.value.Pem? ==> r == Ok(Some(keyFile.value.key))
    ensures keyFile.Some? && !keyFile.value.Pem? ==> r.Err?
  {
    match keyFile
    case None => Ok(None)
    case Some(pem) =>
      var key :- ImportKey(pem);
      Ok(Some(key))
  }

  /** `decrypt_rsa(encrypted_hex, private_key)`: decode, then OAEP-decrypt with the loaded key. */
  function DecryptRsa(p: Primitives, encryptedHex: Json, privateKey: RsaKey): (r: Result<bytes, OpenError>)
    ensures r.Ok? ==> privateKey.PrivateRsa? && UnhexField("encrypted_key", encryptedHex).Ok?
                      && p.oaepDecrypt(privateKey.priv, UnhexField("encrypted_key", encryptedHex).value) == Some(r.value)
  {
    var wrapped :- UnhexField("encrypted_key", encryptedHex);
    match privateKey
    case PublicRsa(_) => Err(NotAPrivateKey)
    case PrivateRsa(k) =>
      (match p.oaepDecrypt(k, wrapped)
       case None => Err(UnwrapFailed)
       case Some(aesKey) => Ok(aesKey))
  }

  /** The log line `process_packet` ends with. */
  datatype PacketLog =
    | NoPrivateKey                      // returns before decrypting
    | PacketNotJson                     // "Failed to process packet"
    | ProcessFailed(cause: OpenError)   // "Failed to process packet"
    | PaymentReceived(payload: Json)    // "PAYMENT RECEIVED"

  /**
   * The decryption steps inside the `try` of `process_packet` with the key
   * already loaded: unwrap the AES key, decrypt and verify (`decrypt_aes` is
   * the same code as `_aes_decrypt_packet`), then decode and parse the payload.
   */
  function OpenFields(p: Primitives, c: Codec, key: RsaKey, env: map<string, Json>): (r: Result<Json, OpenError>)
    ensures r.Ok? ==> key.PrivateRsa? && "encrypted_key" in env && "iv" in env && "ciphertext" in env && "tag" in env
    ensures "encrypted_key" !in env ==> r == Err(OpenError.MissingField("encrypted_key"))
    ensures key.PublicRsa? && "encrypted_key" in env && UnhexField("encrypted_key", env["encrypted_key"]).Ok? ==>
      r == Err(NotAPrivateKey)
  {
    var encryptedKey :- Field(env, "encrypted_key");
    var aesKey :- DecryptRsa(p, encryptedKey, key);
    var iv :- Field(env, "iv");
    var ciphertext :- Field(env, "ciphertext");
    var tag :- Field(env, "tag");
    var plaintext :- AesDecryptPacket(p, aesKey, iv, ciphertext, tag);
    match c.decodeUtf8(plaintext)
    case None => Err(NotUtf8)
    case Some(text) =>
      (match c.loads(text)
       case None => Err(NotJson)
       case Some(payload) => Ok(payload))
  }

  /** `decrypt_rsa` with a loaded key agrees with the mesh service's unwrap step on every input. */
  lemma DecryptRsaAgrees(p: Primitives, encryptedHex: Json, key: RsaKey)
    ensures DecryptRsa(p, encryptedHex, key) == RsaDecryptWithBankPrivateKey(p, Ok(key), encryptedHex)
  {
  }

  /**
   * The standalone bank opens an envelope exactly as `send_to_mesh` does with
   * the same key: the same payload, or the same failure.
   */
  lemma SameOpeningAsMeshService(p: Primitives, c: Codec, key: RsaKey, env: map<string, Json>)
    ensures OpenFields(p, c, key, env) == OpenEnvelope(p, c, Ok(key), env)
  {
    if "encrypted_key" in env {
      DecryptRsaAgrees(p, env["encrypted_key"], key);
    }
  }

  /** Parse the received text and open it; a parsed value that is not an object fails on its first subscript. */
  function OpenReceived(p: Primitives, c: Codec, key: RsaKey, data: string): (log: PacketLog)
    ensures !log.NoPrivateKey?
    ensures log.PacketNotJson? <==> c.loads(data).None?
    ensures log.PaymentReceived? <==>
      c.loads(data).Some? && c.loads(data).value.JObject? && OpenEnvelope(p, c, Ok(key), c.loads(data).value.fields).Ok?
    ensures log.PaymentReceived? ==> Ok(log.payload) == OpenEnvelope(p, c, Ok(key), c.loads(data).value.fields)
    ensures log.ProcessFailed? && c.loads(data).value.JObject? ==>
      Err(log.cause) == OpenEnvelope(p, c, Ok(key), c.loads(data).value.fields)
  {
    match c.loads(data)
    case None => PacketNotJson
    case Some(packet) =>
      if !packet.JObject? then ProcessFailed(NotAnObject)
      else
        SameOpeningAsMeshService(p, c, key, packet.fields);
        match OpenFields(p, c, key, packet.fields)
        case Ok(payload) => PaymentReceived(payload)
        case Err(e) => ProcessFailed(e)
  }

  /** `process_packet(data)`: Err when loading the key raises, which the connection handler catches. */
  function ProcessPacket(p: Primitives, c: Codec, keyFile: Option<PemFile>, data: string): (r: Result<PacketLog, KeyError>)
    ensures keyFile.None? ==> r == Ok(NoPrivateKey)
    ensures keyFile.Some? ==> (r.Ok? <==> keyFile.value.Pem?)
    ensures keyFile.Some? && keyFile.value.Pem? ==> r == Ok(OpenReceived(p, c, keyFile.value.key, data))
  {
    var key :- LoadPrivateKey(keyFile);
    if key.None? then Ok(NoPrivateKey)
    else Ok(OpenReceived(p, c, key.value, data))
  }

  /** The log line of one connection. */
  datatype ConnectionLog = ReadError | NothingReceived | Handled(log: PacketLog)

  /** One connection of `run_server`, for the `recv` outcomes `events`. */
  function HandleConnection(p: Primitives, c: Codec, keyFile: Option<PemFile>, events: seq<RecvEvent>): (log: ConnectionLog)
    ensures Reassemble(events).None? ==> log == ReadError
    ensures log == NothingReceived <==> Reassemble(events) == Some([])
    ensures log.Handled? <==>
      && Reassemble(events).Some? && Reassemble(events).value != []
      && c.decodeUtf8(Reassemble(events).value).Some?
      && ProcessPacket(p, c, keyFile, c.decodeUtf8(Reassemble(events).value).value).Ok?
    ensures log.Handled? ==>
      log.log == ProcessPacket(p, c, keyFile, c.decodeUtf8(Reassemble(events).value).value).value
  {
    match Reassemble(events)
    case None => ReadError
    case Some(data) =>
      if data == [] then NothingReceived
      else
        match c.decodeUtf8(data)
        case None => ReadError
        case Some(text) =>
          (match ProcessPacket(p, c, keyFile, text)
           case Err(_) => ReadError
           case Ok(log) => Handled(log))
  }

  /** The body of the accept loop for one client: read, process, and close on every path. */
  method HandleClient(p: Primitives, c: Codec, keyFile: Option<PemFile>, sock: ClientSocket) returns (log: ConnectionLog)
    requires sock.isOpen
    modifies sock
    ensures !sock.isOpen
    ensures log == HandleConnection(p, c, keyFile, old(sock.incoming))
  {
    var fullData := ReceiveAll(sock);
    if fullData.None? {
      log := ReadError;
    } else if fullData.value == [] {
      log := NothingReceived;
    } else {
      var text := c.decodeUtf8(fullData.value);
      if text.None? {
        log := ReadError;
      } else {
        var processed := ProcessPacket(p, c, keyFile, text.value);
        log := if processed.Err? then ReadError else Handled(processed.value);
      }
    }
    sock.Close();
  }

  /** A sealed envelope, serialised by the sender, is opened to the packet that was sealed. */
  lemma SealedEnvelopeIsOpened(p: Primitives, c: Codec, bank: PrivateKey, packet: map<string, Json>,
                               env: map<string, Json>, key: bytes, iv: bytes, seed: bytes)
    requires LawfulPrimitives(p) && LawfulCodec(c)
    requires |key| == AesKeySize && |iv| == GcmNonceSize
    requires SealedWith(p, c, p.publicOf(bank), packet, env, key, iv, seed)
    ensures OpenReceived(p, c, PrivateRsa(bank), c.dumps(JObject(env))) == PaymentReceived(JObject(packet))
  {
    OpenSealedEnvelope(p, c, bank, packet, env, key, iv, seed);
    SameOpeningAsMeshService(p, c, PrivateRsa(bank), env);
    assert c.loads(c.dumps(JObject(env))) == Some(JObject(env));
  }

  /**
   * End to end: an envelope sealed for the bank's key and sent as UTF-8 JSON
   * in one or more non-empty chunks, followed by the end of the stream, is
   * logged as the packet that was sealed.
   */
  lemma ReceivedEnvelopeIsOpened(p: Primitives, c: Codec, bank: PrivateKey, packet: map<string, Json>,
                                 env: map<string, Json>, key: bytes, iv: bytes, seed: bytes,
                                 chunks: seq<RecvEvent>, after: seq<RecvEvent>)
    requires LawfulPrimitives(p) && LawfulCodec(c)
    requires |key| == AesKeySize && |iv| == GcmNonceSize
    requires SealedWith(p, c, p.publicOf(bank), packet, env, key, iv, seed)
    requires chunks != [] && NonEmptyChunks(chunks) && Concat(chunks) == SerializeUtf8Json(c, JObject(env))
    ensures HandleConnection(p, c, Some(Pem(PrivateRsa(bank))), chunks + [Chunk([])] + after)
         == Handled(PaymentReceived(JObject(packet)))
  {
    var events := chunks + [Chunk([])] + after;
    ReassembleUpToEmptyChunk(chunks, after);
    var data := Concat(chunks);
    assert data != [] by {
      assert chunks[0].data != [];
      assert data == chunks[0].data + Concat(chunks[1..]);
    }
    SealedEnvelopeIsOpened(p, c, bank, packet, env, key, iv, seed);
    assert c.decodeUtf8(data) == Some(c.dumps(JObject(env)));
    assert ProcessPacket(p, c, Some(Pem(PrivateRsa(bank))), c.dumps(JObject(env))) == Ok(PaymentReceived(JObject(packet)));
  }
}
