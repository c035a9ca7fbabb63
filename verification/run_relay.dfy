/**
 * `run_relay.py`: the BLE relay. Its write callback queues every value that
 * parses as UTF-8 JSON; the forwarding loop takes packets off the queue in
 * order, looks for the next mesh node and writes the packet to it, dropping
 * the packet when there is none or the write raises. A scan that raises is
 * not caught: it leaves `forward_packets`, `asyncio.gather` hands it to
 * `main`, and `asyncio.run` cancels the GATT server and re-raises, so the
 * whole relay process exits. The relay never looks inside a packet. The
 * callback and the loop run one step at a time here.
 */
module RunRelay {
  import opened Wrappers
  import opened Bytes
  import opened JsonCodec
  import opened BleService

  /** The log line a write request ends with. */
  datatype RelayLog =
    | Queued
    | ParseFailed
    | Exited      // the process has exited: no server, no callback, nothing changes

  /** What one turn of the forwarding loop did. */
  datatype RelayStep =
    | Stopped                                  // the process has exited: no further turns
    | Waiting                                  // `await packet_queue.get()` blocks on an empty queue
    | ScanRaised(packet: Json)                 // the scan raised outside the `try`: the process exits
    | Dropped(packet: Json)                    // no next hop: not requeued
    | Forwarded(packet: Json, write: GattWrite)
    | ForwardFailed(packet: Json, hop: Device) // logged, not retried

  /** The turn of the loop for one dequeued packet, for the scan's outcome `scan` (None when it raises). */
  function ForwardOne(c: Codec, packet: Json, scan: Option<seq<Device>>, link: LinkOutcome): (step: RelayStep)
    ensures !step.Waiting? && !step.Stopped? && step.packet == packet
    ensures step.ScanRaised? <==> scan.None?
    ensures step.Dropped? <==> scan.Some? && FindMeshNode(scan.value).None?
    ensures step.ForwardFailed? ==> scan.Some? && FindMeshNode(scan.value) == Some(step.hop) && link.LinkRaises?
    ensures step.Forwarded? <==> scan.Some? && FindMeshNode(scan.value).Some? && link.LinkCompletes?
    ensures step.Forwarded? ==>
      && scan.Some? && step.write.address == FindMeshNode(scan.value).value.address
      && step.write.characteristic == PacketCharacteristicUuid && step.write.withResponse
      && step.write.payload == SerializeUtf8Json(c, packet)
  {
    match scan
    case None => RelayStep.ScanRaised(packet)
    case Some(devices) =>
      match FindMeshNode(devices)
      case None => Dropped(packet)
      case Some(hop) =>
        if link.LinkRaises? then ForwardFailed(packet, hop)
        else Forwarded(packet, GattWrite(hop.address, PacketCharacteristicUuid, SerializeUtf8Json(c, packet), true))
  }

  /**
   * The relay is content-blind: two packets meet the same fate on the same
   * scan and link, and what it writes parses back, at the next node, to the
   * packet it queued.
   */
  lemma ForwardIsContentBlind(c: Codec, p1: Json, p2: Json, scan: Option<seq<Device>>, link: LinkOutcome)
    requires LawfulCodec(c)
    ensures ForwardOne(c, p1, scan, link).ScanRaised? == ForwardOne(c, p2, scan, link).ScanRaised?
    ensures ForwardOne(c, p1, scan, link).Dropped? == ForwardOne(c, p2, scan, link).Dropped?
    ensures ForwardOne(c, p1, scan, link).Forwarded? == ForwardOne(c, p2, scan, link).Forwarded?
    ensures ForwardOne(c, p1, scan, link).Forwarded? ==>
      ParseUtf8Json(c, ForwardOne(c, p1, scan, link).write.payload) == Some(p1)
  {
    ParseSerialized(c, p1);
  }

  /** The relay process: the `asyncio.Queue` of packets waiting to be forwarded, while the process runs. */
  class RelayNode {
    var queue: seq<Json>
    /** The queue's count of packets put and not yet marked `task_done`. */
    var unfinished: nat
    /** Whether the process is still running; a raising scan ends it. */
    var running: bool
    /** Every packet ever queued, and every packet taken off, in order. */
    ghost var accepted: seq<Json>
    ghost var taken: seq<Json>

    /**
     * FIFO: what was taken is a prefix of what was queued, the rest waits.
     * Every taken packet was marked done, except the one whose scan ended the process.
     */
    ghost predicate Valid()
      reads this
    {
      && accepted == taken + queue
      && unfinished == |queue| + (if running then 0 else 1)
    }

    constructor ()
      ensures Valid() && running && queue == [] && accepted == [] && taken == []
    {
      queue := [];
      unfinished := 0;
      running := true;
      accepted := [];
      taken := [];
    }

    /**
     * `write_request_callback(characteristic, value)`: queue what parses, drop
     * the rest. Once the process has exited no write reaches it.
     */
    method WriteRequestCallback(c: Codec, value: bytes) returns (log: RelayLog)
      requires Valid()
      modifies this
      ensures Valid() && taken == old(taken) && running == old(running)
      ensures log.Exited? <==> !old(running)
      ensures log.Exited? ==> queue == old(queue) && accepted == old(accepted) && unfinished == old(unfinished)
      ensures log.Queued? <==> old(running) && ParseUtf8Json(c, value).Some?
      ensures log.Queued? ==> queue == old(queue) + [ParseUtf8Json(c, value).value]
      ensures log.ParseFailed? ==> queue == old(queue) && accepted == old(accepted)
    {
      if !running {
        return Exited;
      }
      var packet := ParseUtf8Json(c, value);
      if packet.None? {
        return ParseFailed;
      }
      queue := queue + [packet.value];
      unfinished := unfinished + 1;
      accepted := accepted + [packet.value];
      return Queued;
    }

    /**
     * One turn of `forward_packets`: take the oldest packet, find the next hop
     * in the scan, write to it, and mark the packet done. A scan that raises
     * ends the process before `task_done`; after that no turn does anything.
     */
    method ForwardNext(c: Codec, scan: Option<seq<Device>>, link: LinkOutcome) returns (step: RelayStep)
      requires Valid()
      modifies this
      ensures Valid() && accepted == old(accepted)
      ensures !old(running) ==>
        step == Stopped && !running && queue == old(queue) && taken == old(taken) && unfinished == old(unfinished)
      ensures old(running) && old(queue) == [] ==>
        step == Waiting && running && queue == [] && taken == old(taken) && unfinished == old(unfinished)
      ensures old(running) && old(queue) != [] ==>
        && step == ForwardOne(c, old(queue)[0], scan, link)
        && queue == old(queue)[1..]
        && taken == old(taken) + [old(queue)[0]]
        && running == scan.Some?
        && unfinished == (if scan.Some? then old(unfinished) - 1 else old(unfinished))
    {
      if !running {
        return Stopped;
      }
      if queue == [] {
        return Waiting;
      }
      var packet := queue[0];
      queue := queue[1..];
      taken := taken + [packet];
      if scan.None? {
        running := false;
        return RelayStep.ScanRaised(packet);
      }
      var hop := FindMeshNode(scan.value);
      if hop.None? {
        step := Dropped(packet);
      } else if link.LinkRaises? {
        step := ForwardFailed(packet, hop.value);
      } else {
        var payload := SerializeUtf8Json(c, packet);
        step := Forwarded(packet, GattWrite(hop.value.address, PacketCharacteristicUuid, payload, true));
      }
      unfinished := unfinished - 1;
    }
  }

  /**
   * The forwarding order is the arrival order: after any run of callbacks and
   * turns that keep `Valid`, the packets taken so far are the oldest ones queued.
   */
  lemma TakenInArrivalOrder(accepted: seq<Json>, taken: seq<Json>, queue: seq<Json>)
    requires accepted == taken + queue
    ensures |taken| <= |accepted| && taken == accepted[..|taken|]
    ensures queue == accepted[|taken|..]
  {
  }
}
