/** `payment_service.create_packet`: the plaintext payment packet. */
module PaymentService {
  import opened JsonCodec

  const DefaultTtl := 60

  const PacketKeys: set<string> := {
    "packet_id", "sender_id", "sender_name", "sender_account", "receiver_name",
    "receiver_account", "amount", "ttl", "timestamp"
  }

  /**
   * `packetId` is the fresh `str(uuid.uuid4())` and `timestamp` the value of
   * `get_current_timestamp()` at creation; every other field is copied as given,
   * `amount` unvalidated, `ttl` 60 unless given.
   */
  function CreatePacket(
    packetId: string, timestamp: string,
    senderId: Json, senderName: Json, senderAccount: Json,
    receiverName: Json, receiverAccount: Json, amount: Json,
    ttl: Json := JInt(DefaultTtl)): (packet: map<string, Json>)
    ensures packet.Keys == PacketKeys
    ensures packet["packet_id"] == JString(packetId) && packet["timestamp"] == JString(timestamp)
    ensures packet["sender_id"] == senderId && packet["sender_name"] == senderName
    ensures packet["sender_account"] == senderAccount
    ensures packet["receiver_name"] == receiverName && packet["receiver_account"] == receiverAccount
    ensures packet["amount"] == amount && packet["ttl"] == ttl
  {
    map[
      "packet_id" := JString(packetId),
      "sender_id" := senderId,
      "sender_name" := senderName,
      "sender_account" := senderAccount,
      "receiver_name" := receiverName,
      "receiver_account" := receiverAccount,
      "amount" := amount,
      "ttl" := ttl,
      "timestamp" := JString(timestamp)
    ]
  }

  /** A call that omits `ttl` gets 60. */
  lemma DefaultTtlIsSixty(packetId: string, timestamp: string, senderId: Json, senderName: Json,
                          senderAccount: Json, receiverName: Json, receiverAccount: Json, amount: Json)
    ensures CreatePacket(packetId, timestamp, senderId, senderName, senderAccount,
                         receiverName, receiverAccount, amount)["ttl"] == JInt(60)
  {
  }

  /** The packet has exactly nine fields. */
  lemma NineFields()
    ensures |PacketKeys| == 9
  {
    // Keys of different lengths differ; the three of length 9 differ in their first letter.
    var short := {"ttl", "amount"};
    assert |short| == 2;
    var nine := {"packet_id", "sender_id", "timestamp"};
    assert "packet_id"[0] != "sender_id"[0] && "sender_id"[0] != "timestamp"[0] && "timestamp"[0] != "packet_id"[0];
    assert |nine| == 3;
    var long := {"sender_name", "receiver_name", "sender_account", "receiver_account"};
    assert |long| == 4;
    assert short !! nine && (short + nine) !! long;
    assert PacketKeys == short + nine + long;
  }
}
