/**
 * `backend/services/ble_service.py`: sending a packet to the first mesh node in
 * range. A node is recognised by the mesh service UUID among the service UUIDs
 * it advertises, compared without regard to case; the packet is written as
 * UTF-8 JSON to the packet characteristic, with a write response. The scan's
 * outcome and the fate of the connection are inputs.
 */
module BleService {
  import opened Wrappers
  import opened Bytes
  import opened Text
  import opened JsonCodec

  const MeshServiceUuid := "00000001-710e-4a5b-8d75-3e5b444bc3cf"
  const PacketCharacteristicUuid := "00000002-710e-4a5b-8d75-3e5b444bc3cf"

  /** A device seen by a scan, with its advertised service UUIDs. */
  datatype Device = Device(name: Option<string>, address: string, serviceUuids: seq<string>)

  /** The scan filter: `MESH_SERVICE_UUID.lower() in [u.lower() for u in ad.service_uuids]`. */
  predicate AdvertisesMesh(d: Device) {
    Lower(MeshServiceUuid) in seq(|d.serviceUuids|, i requires 0 <= i < |d.serviceUuids| => Lower(d.serviceUuids[i]))
  }

  /** `find_device_by_filter`: the first device, in discovery order, that passes the filter. */
  function FindMeshNode(scan: seq<Device>): (r: Option<Device>)
    ensures r.Some? ==> r.value in scan && AdvertisesMesh(r.value)
    ensures r.None? <==> forall i :: 0 <= i < |scan| ==> !AdvertisesMesh(scan[i])
  {
    if scan == [] then None
    else if AdvertisesMesh(scan[0]) then Some(scan[0])
    else FindMeshNode(scan[1..])
  }

  /** The node selected is the first that passes the filter. */
  lemma {:induction false} FindMeshNodeIsFirst(scan: seq<Device>, i: int)
    requires 0 <= i < |scan| && AdvertisesMesh(scan[i])
    requires forall k :: 0 <= k < i ==> !AdvertisesMesh(scan[k])
    ensures FindMeshNode(scan) == Some(scan[i])
    decreases i
  {
    if i > 0 {
      assert scan[1..][i - 1] == scan[i];
      FindMeshNodeIsFirst(scan[1..], i - 1);
    }
  }

  /** A device qualifies by any advertised UUID equal to the mesh UUID up to the case of its letters. */
  lemma AdvertisesMeshIgnoresCase(d: Device, i: int)
    requires 0 <= i < |d.serviceUuids| && Lower(d.serviceUuids[i]) == Lower(MeshServiceUuid)
    ensures AdvertisesMesh(d)
  {
    var lowered := seq(|d.serviceUuids|, j requires 0 <= j < |d.serviceUuids| => Lower(d.serviceUuids[j]));
    assert lowered[i] == Lower(MeshServiceUuid);
  }

  /** Whether connecting to the node and writing the characteristic complete or raise. */
  datatype LinkOutcome = LinkCompletes | LinkRaises

  /** One `write_gatt_char` call. */
  datatype GattWrite = GattWrite(address: string, characteristic: string, payload: bytes, withResponse: bool)

  /**
   * What `send_packet_via_ble` did: its scan raised (the call is outside the
   * `try`, so the exception escapes), it found no node, it failed on the link,
   * or it wrote the packet.
   */
  datatype BleSend = ScanRaised | NoMeshNode | SendFailed(device: Device) | Written(write: GattWrite)

  /**
   * `send_packet_via_ble(packet)` for the scan's outcome `scan` (None when
   * `find_device_by_filter` raises); it returns True exactly for `Written`.
   */
  function SendPacketViaBle(c: Codec, scan: Option<seq<Device>>, link: LinkOutcome, packet: map<string, Json>): (r: BleSend)
    ensures r.ScanRaised? <==> scan.None?
    ensures r.NoMeshNode? <==> scan.Some? && FindMeshNode(scan.value).None?
    ensures r.Written? <==> scan.Some? && FindMeshNode(scan.value).Some? && link.LinkCompletes?
    ensures r.SendFailed? ==> scan.Some? && FindMeshNode(scan.value) == Some(r.device)
    ensures r.Written? ==>
      && r.write.address == FindMeshNode(scan.value).value.address
      && r.write.characteristic == PacketCharacteristicUuid && r.write.withResponse
  {
    match scan
    case None => ScanRaised
    case Some(devices) =>
      match FindMeshNode(devices)
      case None => NoMeshNode
      case Some(device) =>
        if link.LinkRaises? then SendFailed(device)
        else Written(GattWrite(device.address, PacketCharacteristicUuid, SerializeUtf8Json(c, JObject(packet)), true))
  }

  /** What the sender writes, the receiving node's callback parses back to the very packet. */
  lemma WrittenPayloadParses(c: Codec, scan: Option<seq<Device>>, link: LinkOutcome, packet: map<string, Json>)
    requires LawfulCodec(c)
    requires SendPacketViaBle(c, scan, link, packet).Written?
    ensures ParseUtf8Json(c, SendPacketViaBle(c, scan, link, packet).write.payload) == Some(JObject(packet))
  {
    ParseSerialized(c, JObject(packet));
  }
}
