/**
 * `run_bank.py`: the BLE bank node. Its write callback parses what a relay
 * wrote as UTF-8 JSON and hands the packet to `process_packet`, which opens it
 * with the same helpers as `send_to_mesh`; each outcome ends as one log line.
 */
module RunBank {
  import opened Wrappers
  import opened Bytes
  import opened JsonCodec
  import opened Crypto
  import opened BankKeys
  import opened EncryptionService
  import opened MeshService

  /** The log line a write request ends with; no exception leaves the callback. */
  datatype BankLog =
    | ParseFailed                      // "[Bank] Failed to parse packet"
    | ProcessFailed(cause: OpenError)  // "Failed to process packet"
    | PaymentReceived(payload: Json)   // "PAYMENT RECEIVED"

  /**
   * `process_packet(packet)`: subscripting a packet that is not a JSON object
   * raises, and is caught like every other failure.
   */
  function ProcessPacket(p: Primitives, c: Codec, bankKey: Result<RsaKey, KeyError>,
                         packet: Json): (log: BankLog)
    ensures !log.ParseFailed?
    ensures log.PaymentReceived? <==> packet.JObject? && SendToMesh(p, c, bankKey, packet.fields)
    ensures log.PaymentReceived? ==> Ok(log.payload) == OpenEnvelope(p, c, bankKey, packet.fields)
    ensures log.ProcessFailed? && packet.JObject? ==> Err(log.cause) == OpenEnvelope(p, c, bankKey, packet.fields)
  {
    match packet
    case JObject(env) =>
      (match OpenEnvelope(p, c, bankKey, env)
       case Ok(payload) => PaymentReceived(payload)
       case Err(e) => ProcessFailed(e))
    case _ => ProcessFailed(NotAnObject)
  }

  /** `write_request_callback(characteristic, value)`. */
  function WriteRequestCallback(p: Primitives, c: Codec, bankKey: Result<RsaKey, KeyError>,
                                value: bytes): (log: BankLog)
    ensures log.ParseFailed? <==> ParseUtf8Json(c, value).None?
    ensures !log.ParseFailed? ==> log == ProcessPacket(p, c, bankKey, ParseUtf8Json(c, value).value)
  {
    match ParseUtf8Json(c, value)
    case None => ParseFailed
    case Some(packet) => ProcessPacket(p, c, bankKey, packet)
  }

  /**
   * End to end: an envelope sealed for the bank's public key, serialised by the
   * last hop and written to the bank's characteristic, is logged as the very
   * payment packet that was sealed.
   */
  lemma DeliveredEnvelopeIsReceived(p: Primitives, c: Codec, bank: PrivateKey, packet: map<string, Json>,
                                    env: map<string, Json>, key: bytes, iv: bytes, seed: bytes)
    requires LawfulPrimitives(p) && LawfulCodec(c)
    requires |key| == AesKeySize && |iv| == GcmNonceSize
    requires SealedWith(p, c, p.publicOf(bank), packet, env, key, iv, seed)
    ensures WriteRequestCallback(p, c, Ok(PrivateRsa(bank)), SerializeUtf8Json(c, JObject(env)))
         == PaymentReceived(JObject(packet))
  {
    ParseSerialized(c, JObject(env));
    OpenSealedEnvelope(p, c, bank, packet, env, key, iv, seed);
  }
}
