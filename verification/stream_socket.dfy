/**
 * The RFCOMM client socket the standalone nodes read from, and their receive
 * loop: `recv(4096)` until a call returns no bytes, concatenating the chunks.
 * What the peer sends, and whether the connection breaks, is the socket's
 * script of events.
 */
module StreamSocket {
  import opened Wrappers
  import opened Bytes

  const RecvBufferSize := 4096

  /** One `recv` call's outcome: the bytes it returned, or an exception. */
  datatype RecvEvent = Chunk(data: bytes) | Reset

  datatype SocketError = ConnectionReset

  /** An accepted connection. */
  class ClientSocket {
    /** The outcomes of the coming `recv` calls; once they run out, `recv` returns `b""`. */
    var incoming: seq<RecvEvent>
    var isOpen: bool

    constructor (incoming: seq<RecvEvent>)
      ensures this.incoming == incoming && isOpen
    {
      this.incoming := incoming;
      isOpen := true;
    }

    /** `recv(4096)`. */
    method Recv() returns (r: Result<bytes, SocketError>)
      requires isOpen
      modifies this
      ensures isOpen
      ensures old(incoming) == [] ==> r == Ok([]) && incoming == []
      ensures old(incoming) != [] ==> incoming == old(incoming)[1..]
      ensures old(incoming) != [] && old(incoming)[0].Chunk? ==> r == Ok(old(incoming)[0].data)
      ensures old(incoming) != [] && old(incoming)[0].Reset? ==> r == Err(ConnectionReset)
    {
      if incoming == [] {
        return Ok([]);
      }
      var event := incoming[0];
      incoming := incoming[1..];
      match event
      case Chunk(data) => r := Ok(data);
      case Reset => r := Err(ConnectionReset);
    }

    /** `close()`. */
    method Close()
      modifies this
      ensures !isOpen && incoming == old(incoming)
    {
      isOpen := false;
    }
  }

  /** The data the loop assembles from `events`, or None when a `recv` raises first. */
  function Reassemble(events: seq<RecvEvent>): Option<bytes> {
    if events == [] then Some([])
    else
      match events[0]
      case Reset => None
      case Chunk(data) =>
        if data == [] then Some([])
        else
          match Reassemble(events[1..])
          case None => None
          case Some(rest) => Some(data + rest)
  }

  /** The chunks of events that are all non-empty chunks, concatenated. */
  function Concat(chunks: seq<RecvEvent>): bytes
    requires forall i :: 0 <= i < |chunks| ==> chunks[i].Chunk?
  {
    if chunks == [] then [] else chunks[0].data + Concat(chunks[1..])
  }

  predicate NonEmptyChunks(events: seq<RecvEvent>) {
    forall i :: 0 <= i < |events| ==> events[i].Chunk? && events[i].data != []
  }

  /**
   * The received data is the concatenation of the chunks up to the first empty
   * one; nothing the peer sends after it is read.
   */
  lemma {:induction false} ReassembleUpToEmptyChunk(chunks: seq<RecvEvent>, after: seq<RecvEvent>)
    requires NonEmptyChunks(chunks)
    ensures Reassemble(chunks + [Chunk([])] + after) == Some(Concat(chunks))
    ensures Reassemble(chunks) == Some(Concat(chunks))
  {
    if chunks != [] {
      assert (chunks + [Chunk([])] + after)[1..] == chunks[1..] + [Chunk([])] + after;
      ReassembleUpToEmptyChunk(chunks[1..], after);
    } else {
      assert (chunks + [Chunk([])] + after)[0] == Chunk([]);
    }
  }

  /** `prefix` in front of an assembly that did not raise. */
  function Prepend(prefix: bytes, r: Option<bytes>): Option<bytes> {
    match r
    case None => None
    case Some(rest) => Some(prefix + rest)
  }

  /** The receive loop of the standalone nodes; it leaves the socket open. */
  method ReceiveAll(sock: ClientSocket) returns (r: Option<bytes>)
    requires sock.isOpen
    modifies sock
    ensures sock.isOpen
    ensures r == Reassemble(old(sock.incoming))
  {
    var fullData: bytes := [];
    if Reassemble(sock.incoming).Some? {
      assert fullData + Reassemble(sock.incoming).value == Reassemble(sock.incoming).value;
    }
    while true
      invariant sock.isOpen
      invariant Reassemble(old(sock.incoming)) == Prepend(fullData, Reassemble(sock.incoming))
      decreases |sock.incoming|
    {
      ghost var before := sock.incoming;
      var chunk := sock.Recv();
      if chunk.Err? {
        return None;
      }
      if chunk.value == [] {
        assert Reassemble(before) == Some([]);
        assert fullData + [] == fullData;
        break;
      }
      assert Reassemble(before) == Prepend(chunk.value, Reassemble(sock.incoming));
      if Reassemble(sock.incoming).Some? {
        var rest := Reassemble(sock.incoming).value;
        assert fullData + (chunk.value + rest) == (fullData + chunk.value) + rest;
      }
      fullData := fullData + chunk.value;
    }
    return Some(fullData);
  }
}
