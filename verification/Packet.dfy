/** The L2CAP basic frame (Vol 3 Part A section 3.1). */
module Packet {
  import opened Wrappers
  import opened Words
  import opened Channel

  const SIGNALING_CID: u16 := 0x0001
  const AVDTP_PSM: u16 := 0x0019
  const HEADER_SIZE: nat := 4
  const MAX_FRAME: nat := 1024

  datatype L2capHeader = L2capHeader(length: u16, channelId: u16)

  datatype L2capPacket = L2capPacket(header: L2capHeader, payload: seq<u8>)

  function HeaderToBytes(h: L2capHeader): seq<u8> {
    Le16(h.length) + Le16(h.channelId)
  }

  function HeaderFromBytes(b: seq<u8>): Result<L2capHeader, L2capError> {
    if |b| < 4 then Err(InsufficientData)
    else Ok(L2capHeader(FromLe16(b[0], b[1]), FromLe16(b[2], b[3])))
  }

  /** A frame for a payload; the length field is the payload's. */
  function NewPacket(channelId: u16, payload: seq<u8>): L2capPacket
    requires |payload| < 0x1_0000
  {
    L2capPacket(L2capHeader(|payload|, channelId), payload)
  }

  function PacketFromBytes(b: seq<u8>): Result<L2capPacket, L2capError> {
    var h :- HeaderFromBytes(b);
    if |b| < HEADER_SIZE + h.length then Err(InsufficientData)
    else
      var payload :- Extend([], b[HEADER_SIZE..HEADER_SIZE + h.length], MAX_FRAME, PayloadTooLarge);
      Ok(L2capPacket(h, payload))
  }

  /** A frame on the wire, when it fits a buffer of the given capacity. */
  function PacketBytesIn(p: L2capPacket, capacity: nat): Result<seq<u8>, L2capError> {
    if HEADER_SIZE + |p.payload| <= capacity then Ok(HeaderToBytes(p.header) + p.payload) else Err(PayloadTooLarge)
  }

  /** The ACL layer's frames use 1024-byte buffers. */
  function PacketBytes(p: L2capPacket): Result<seq<u8>, L2capError> {
    PacketBytesIn(p, MAX_FRAME)
  }

  method PacketToBytes(p: L2capPacket, capacity: nat) returns (r: Result<seq<u8>, L2capError>)
    ensures r == PacketBytesIn(p, capacity)
  {
    var bytes := [];
    bytes :- Extend(bytes, HeaderToBytes(p.header), capacity, PayloadTooLarge);
    bytes :- Extend(bytes, p.payload, capacity, PayloadTooLarge);
    assert bytes == HeaderToBytes(p.header) + p.payload;
    r := Ok(bytes);
  }

  /** Parsing a printed frame, whatever follows it, returns the frame. */
  lemma PacketRoundTrip(p: L2capPacket, rest: seq<u8>)
    requires p.header.length == |p.payload| && PacketBytes(p).Ok?
    ensures PacketFromBytes(PacketBytes(p).value + rest) == Ok(p)
  {
    Le16RoundTrip(p.header.length, 0, 0);
    Le16RoundTrip(p.header.channelId, 0, 0);
    var b := PacketBytes(p).value + rest;
    assert b[HEADER_SIZE..HEADER_SIZE + |p.payload|] == p.payload;
    assert [] + p.payload == p.payload;
  }

  /** Printing a parsed frame returns exactly the bytes the parser consumed. */
  lemma PacketReprints(b: seq<u8>)
    requires PacketFromBytes(b).Ok?
    ensures var p := PacketFromBytes(b).value;
            && |p.payload| == p.header.length
            && (PacketBytes(p).Ok? ==> PacketBytes(p).value == b[..HEADER_SIZE + p.header.length])
            && (PacketBytes(p).Ok? <==> p.header.length <= MAX_FRAME - HEADER_SIZE)
  {
    Le16RoundTrip(0, b[0], b[1]);
    Le16RoundTrip(0, b[2], b[3]);
    var p := PacketFromBytes(b).value;
    assert p.payload == b[HEADER_SIZE..HEADER_SIZE + p.header.length];
    assert HeaderToBytes(p.header) == b[..HEADER_SIZE];
  }
}
