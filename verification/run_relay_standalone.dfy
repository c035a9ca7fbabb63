/**
 * `run_relay_standalone.py`: the relay over classic Bluetooth. It accepts a
 * sender, reads until the sender stops, and forwards the bytes unchanged to
 * the bank over a fresh RFCOMM connection.
 */
module RunRelayStandalone {
  import opened Wrappers
  import opened Bytes
  import opened JsonCodec
  import opened Crypto
  import opened BankKeys
  import opened EncryptionService
  import opened StreamSocket
  import RunBankStandalone

  /** The value the address is shipped with, which the relay treats as "not configured". */
  const Placeholder: string := "PUT_BANK_MAC_HERE"
  /** `BANK_MAC_ADDRESS` as shipped. */
  const BankMacAddress: string := Placeholder
  const RfcommChannel: nat := 4

  /**
   * What the Bluetooth stack does for one forward: connecting, sending or
   * closing raises, or `send` returns how many bytes it accepted.
   */
  datatype SocketOutcome = Raises | SendReturns(sent: nat)

  datatype ForwardResult =
    | NotConfigured              // the address was never set: no socket is opened
    | ForwardFailed              // "Forwarding failed"
    | Forwarded(delivered: bytes) // "Forwarded successfully!" with what reached the bank

  /** `forward_to_bank(data)`: one `send`, whose count is never checked. */
  function ForwardToBank(bankMac: string, data: bytes, link: SocketOutcome): (r: ForwardResult)
    ensures r.NotConfigured? <==> bankMac == Placeholder
    ensures r.Forwarded? <==> bankMac != Placeholder && link.SendReturns?
    ensures r.Forwarded? ==> r.delivered <= data && |r.delivered| == (if link.sent < |data| then link.sent else |data|)
  {
    if bankMac == Placeholder then NotConfigured
    else
      match link
      case Raises => ForwardFailed
      case SendReturns(n) => Forwarded(data[..if n < |data| then n else |data|])
  }

  /** The boolean `forward_to_bank` returns. */
  predicate Reported(r: ForwardResult) {
    r.Forwarded?
  }

  /** With the address as shipped, no packet is ever forwarded, whatever the link does. */
  lemma ShippedRelayNeverForwards(data: bytes, link: SocketOutcome)
    ensures ForwardToBank(BankMacAddress, data, link) == NotConfigured
    ensures !Reported(ForwardToBank(BankMacAddress, data, link))
  {
  }

  /**
   * A `send` that accepts only part of the packet is still reported as a
   * success, although the bank receives a strict prefix.
   */
  lemma PartialSendReportedAsSuccess(bankMac: string, data: bytes, n: nat)
    requires bankMac != Placeholder && n < |data|
    ensures Reported(ForwardToBank(bankMac, data, SendReturns(n)))
    ensures ForwardToBank(bankMac, data, SendReturns(n)).delivered != data
  {
  }

  /** When `send` accepts everything, the bank receives exactly the relayed bytes. */
  lemma FullSendDeliversUnchanged(bankMac: string, data: bytes, n: nat)
    requires bankMac != Placeholder && n >= |data|
    ensures ForwardToBank(bankMac, data, SendReturns(n)) == Forwarded(data)
  {
  }

  /** The log line of one sender connection. */
  datatype RelayLog = ConnectionError | NothingReceived | Relayed(result: ForwardResult)

  /** One connection of `run_relay`, for the `recv` outcomes `events` and the outcome of the forward. */
  function RelayConnection(bankMac: string, link: SocketOutcome, events: seq<RecvEvent>): (log: RelayLog)
    ensures Reassemble(events).None? ==> log == ConnectionError
    ensures Reassemble(events) == Some([]) ==> log == NothingReceived
    ensures log.Relayed? <==> Reassemble(events).Some? && Reassemble(events).value != []
    ensures log.Relayed? ==> log.result == ForwardToBank(bankMac, Reassemble(events).value, link)
  {
    match Reassemble(events)
    case None => ConnectionError
    case Some(data) =>
      if data == [] then NothingReceived else Relayed(ForwardToBank(bankMac, data, link))
  }

  /** The body of the accept loop for one sender: read, forward, and close on every path. */
  method HandleSender(bankMac: string, link: SocketOutcome, sock: ClientSocket) returns (log: RelayLog)
    requires sock.isOpen
    modifies sock
    ensures !sock.isOpen
    ensures log == RelayConnection(bankMac, link, old(sock.incoming))
  {
    var fullData := ReceiveAll(sock);
    if fullData.None? {
      log := ConnectionError;
    } else if fullData.value == [] {
      log := NothingReceived;
    } else {
      log := Relayed(ForwardToBank(bankMac, fullData.value, link));
    }
    sock.Close();
  }

  /**
   * Sender, relay and bank end to end: an envelope sealed for the bank's key,
   * sent to a configured relay whose forward `send` accepts every byte, is
   * received by the bank as the packet that was sealed.
   */
  lemma RelayedEnvelopeReachesBank(p: Primitives, c: Codec, bank: PrivateKey, packet: map<string, Json>,
                                   env: map<string, Json>, key: bytes, iv: bytes, seed: bytes,
                                   bankMac: string, n: nat, chunks: seq<RecvEvent>, after: seq<RecvEvent>,
                                   bankAfter: seq<RecvEvent>)
    requires LawfulPrimitives(p) && LawfulCodec(c)
    requires |key| == AesKeySize && |iv| == GcmNonceSize
    requires SealedWith(p, c, p.publicOf(bank), packet, env, key, iv, seed)
    requires chunks != [] && NonEmptyChunks(chunks) && Concat(chunks) == SerializeUtf8Json(c, JObject(env))
    requires bankMac != Placeholder && n >= |Concat(chunks)|
    ensures RelayConnection(bankMac, SendReturns(n), chunks + [Chunk([])] + after) == Relayed(Forwarded(Concat(chunks)))
    ensures RunBankStandalone.HandleConnection(p, c, Some(Pem(PrivateRsa(bank))), [Chunk(Concat(chunks))] + [Chunk([])] + bankAfter)
         == RunBankStandalone.Handled(RunBankStandalone.PaymentReceived(JObject(packet)))
  {
    ReassembleUpToEmptyChunk(chunks, after);
    var data := Concat(chunks);
    assert data != [] by {
      assert chunks[0].data != [];
      assert data == chunks[0].data + Concat(chunks[1..]);
    }
    var hop := [Chunk(data)];
    assert NonEmptyChunks(hop);
    assert Concat(hop) == data by {
      assert hop[1..] == [];
    }
    RunBankStandalone.ReceivedEnvelopeIsOpened(p, c, bank, packet, env, key, iv, seed, hop, bankAfter);
  }
}
