/**
 * `encryption_service.encrypt_packet`: seal a packet into the six-field
 * envelope. The JSON of the whole packet is encrypted with AES-256-GCM under a
 * fresh key and nonce; the key is wrapped with RSA-OAEP under the bank's public
 * key; binary fields travel as lower-case hex; `timestamp` and `packet_id` are
 * copied in clear.
 */
module EncryptionService {
  import opened Wrappers
  import opened Bytes
  import opened JsonCodec
  import opened Crypto
  import opened AesUtils
  import opened BankKeys

  const EnvelopeKeys: set<string> := {"encrypted_key", "iv", "ciphertext", "tag", "timestamp", "packet_id"}

  datatype SealError = MissingField(name: string)

  /**
   * `env` is the envelope of `packet` for the AES key `key`, the nonce `iv` and
   * the OAEP seed `seed`, addressed to the public key `pub`.
   */
  predicate SealedWith(p: Primitives, c: Codec, pub: PublicKey, packet: map<string, Json>,
                       env: map<string, Json>, key: bytes, iv: bytes, seed: bytes)
  {
    var sealed := p.gcmSeal(key, iv, SerializeUtf8Json(c, JObject(packet)));
    && "timestamp" in packet && "packet_id" in packet
    && env.Keys == EnvelopeKeys
    && env["encrypted_key"] == JString(Hex(p.oaepEncrypt(pub, key, seed)))
    && env["iv"] == JString(Hex(iv))
    && env["ciphertext"] == JString(Hex(sealed.ciphertext))
    && env["tag"] == JString(Hex(sealed.tag))
    && env["timestamp"] == packet["timestamp"]
    && env["packet_id"] == packet["packet_id"]
  }

  /**
   * `encrypt_packet(packet)`. `bankKey` is what `load_bank_public_key()` returned,
   * `urandom` the stream `aes_encrypt` draws from and `oaepSeed` the randomness
   * of the OAEP encryption. A packet without `timestamp` or `packet_id` raises
   * `KeyError` (checked in that order) instead of returning an envelope.
   */
  function EncryptPacket(p: Primitives, c: Codec, bankKey: RsaKey, packet: map<string, Json>,
                         urandom: bytes, oaepSeed: bytes): (r: Result<map<string, Json>, SealError>)
    requires |urandom| >= AesKeySize + GcmNonceSize
    ensures r.Ok? <==> "timestamp" in packet && "packet_id" in packet
    ensures r.Err? ==> r.error == MissingField(if "timestamp" !in packet then "timestamp" else "packet_id")
    ensures r.Ok? ==>
      SealedWith(p, c, PublicPart(p, bankKey), packet, r.value,
                 urandom[..AesKeySize], urandom[AesKeySize..AesKeySize + GcmNonceSize], oaepSeed)
  {
    var data := SerializeUtf8Json(c, JObject(packet));
    var aes := AesEncrypt(p, data, urandom);
    var encryptedKey := p.oaepEncrypt(PublicPart(p, bankKey), aes.key, oaepSeed);
    if "timestamp" !in packet then Err(MissingField("timestamp"))
    else if "packet_id" !in packet then Err(MissingField("packet_id"))
    else Ok(map[
      "encrypted_key" := JString(Hex(encryptedKey)),
      "iv" := JString(Hex(aes.iv)),
      "ciphertext" := JString(Hex(aes.ciphertext)),
      "tag" := JString(Hex(aes.tag)),
      "timestamp" := packet["timestamp"],
      "packet_id" := packet["packet_id"]
    ])
  }

  /**
   * The four binary fields are lower-case hex of even length that decode back to
   * the raw bytes: the wrapped key, the nonce, and the GCM output.
   */
  lemma EnvelopeHexFields(p: Primitives, c: Codec, pub: PublicKey, packet: map<string, Json>,
                          env: map<string, Json>, key: bytes, iv: bytes, seed: bytes)
    requires SealedWith(p, c, pub, packet, env, key, iv, seed)
    ensures var sealed := p.gcmSeal(key, iv, SerializeUtf8Json(c, JObject(packet)));
      && IsLowerHex(env["encrypted_key"].s) && Unhexlify(env["encrypted_key"].s) == Ok(p.oaepEncrypt(pub, key, seed))
      && IsLowerHex(env["iv"].s) && Unhexlify(env["iv"].s) == Ok(iv)
      && IsLowerHex(env["ciphertext"].s) && Unhexlify(env["ciphertext"].s) == Ok(sealed.ciphertext)
      && IsLowerHex(env["tag"].s) && Unhexlify(env["tag"].s) == Ok(sealed.tag)
  {
    var sealed := p.gcmSeal(key, iv, SerializeUtf8Json(c, JObject(packet)));
    UnhexlifyHex(p.oaepEncrypt(pub, key, seed));
    UnhexlifyHex(iv);
    UnhexlifyHex(sealed.ciphertext);
    UnhexlifyHex(sealed.tag);
  }

  /**
   * No payment field is in clear: two packets with the same `timestamp` and
   * `packet_id`, sealed with the same randomness, give envelopes that differ at
   * most in `ciphertext` and `tag`.
   */
  lemma PaymentFieldsOnlyInCiphertext(p: Primitives, c: Codec, bankKey: RsaKey,
                                      packet1: map<string, Json>, packet2: map<string, Json>,
                                      urandom: bytes, oaepSeed: bytes)
    requires |urandom| >= AesKeySize + GcmNonceSize
    requires "timestamp" in packet1 && "packet_id" in packet1
    requires "timestamp" in packet2 && "packet_id" in packet2
    requires packet1["timestamp"] == packet2["timestamp"] && packet1["packet_id"] == packet2["packet_id"]
    ensures EncryptPacket(p, c, bankKey, packet1, urandom, oaepSeed).Ok?
    ensures EncryptPacket(p, c, bankKey, packet2, urandom, oaepSeed).Ok?
    ensures EncryptPacket(p, c, bankKey, packet1, urandom, oaepSeed).value - {"ciphertext", "tag"}
         == EncryptPacket(p, c, bankKey, packet2, urandom, oaepSeed).value - {"ciphertext", "tag"}
  {
    var env1 := EncryptPacket(p, c, bankKey, packet1, urandom, oaepSeed).value;
    var env2 := EncryptPacket(p, c, bankKey, packet2, urandom, oaepSeed).value;
    assert (env1 - {"ciphertext", "tag"}).Keys == (env2 - {"ciphertext", "tag"}).Keys;
  }

  /**
   * One-time keys: sealing under two different draws of the AES key gives two
   * different `encrypted_key` fields, and two different nonces two different `iv`
   * fields, whenever the bank's private key opens what the public key wraps.
   */
  lemma FreshDrawsGiveFreshFields(p: Primitives, c: Codec, bank: PrivateKey, bankKey: RsaKey,
                                  packet: map<string, Json>, urandom1: bytes, urandom2: bytes,
                                  seed1: bytes, seed2: bytes)
    requires LawfulPrimitives(p)
    requires PublicPart(p, bankKey) == p.publicOf(bank)
    requires |urandom1| >= AesKeySize + GcmNonceSize && |urandom2| >= AesKeySize + GcmNonceSize
    requires "timestamp" in packet && "packet_id" in packet
    ensures var env1 := EncryptPacket(p, c, bankKey, packet, urandom1, seed1).value;
      var env2 := EncryptPacket(p, c, bankKey, packet, urandom2, seed2).value;
      && (urandom1[..AesKeySize] != urandom2[..AesKeySize] ==> env1["encrypted_key"] != env2["encrypted_key"])
      && (urandom1[AesKeySize..AesKeySize + GcmNonceSize] != urandom2[AesKeySize..AesKeySize + GcmNonceSize] ==>
            env1["iv"] != env2["iv"])
  {
    var env1 := EncryptPacket(p, c, bankKey, packet, urandom1, seed1).value;
    var env2 := EncryptPacket(p, c, bankKey, packet, urandom2, seed2).value;
    var k1, k2 := urandom1[..AesKeySize], urandom2[..AesKeySize];
    var w1 := p.oaepEncrypt(p.publicOf(bank), k1, seed1);
    var w2 := p.oaepEncrypt(p.publicOf(bank), k2, seed2);
    if k1 != k2 {
      assert p.oaepDecrypt(bank, w1) == Some(k1);
      assert p.oaepDecrypt(bank, w2) == Some(k2);
      HexInjective(w1, w2);
    }
    var iv1, iv2 := urandom1[AesKeySize..AesKeySize + GcmNonceSize], urandom2[AesKeySize..AesKeySize + GcmNonceSize];
    HexInjective(iv1, iv2);
  }
}
