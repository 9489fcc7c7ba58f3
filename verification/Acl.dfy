/** ACL data packets, per-link reassembly and routing to L2CAP (Vol 4 Part E section 5.4.2). */
module Acl {
  import opened Wrappers
  import opened Words
  import opened IndexMap
  import opened Channel
  import opened Packet
  import opened Signaling
  import opened Processor

  const MAX_ACL_CONNECTIONS: nat := 4
  const MAX_ACL_DATA_SIZE: nat := 1024
  const ACL_HEADER_SIZE: nat := 4

  type u12 = x: int | 0 <= x < 0x1000

  /** The contents of a 1024-byte vector. */
  type AclData = d: seq<u8> | |d| <= MAX_ACL_DATA_SIZE

  datatype PacketBoundary = FirstNonFlushable | ContinuingFragment | FirstFlushable | CompletePdu

  datatype BroadcastFlag = PointToPoint | ActiveBroadcast | PiconetBroadcast | Reserved

  function BoundaryBits(b: PacketBoundary): u8 {
    match b
    case FirstNonFlushable => 0
    case ContinuingFragment => 1
    case FirstFlushable => 2
    case CompletePdu => 3
  }

  function BoundaryFromBits(v: u8): PacketBoundary {
    match v % 4
    case 0 => FirstNonFlushable
    case 1 => ContinuingFragment
    case 2 => FirstFlushable
    case _ => CompletePdu
  }

  function BroadcastBits(b: BroadcastFlag): u8 {
    match b
    case PointToPoint => 0
    case ActiveBroadcast => 1
    case PiconetBroadcast => 2
    case Reserved => 3
  }

  function BroadcastFromBits(v: u8): BroadcastFlag {
    match v % 4
    case 0 => PointToPoint
    case 1 => ActiveBroadcast
    case 2 => PiconetBroadcast
    case _ => Reserved
  }

  datatype AclHeader = AclHeader(handle: u12, boundary: PacketBoundary, broadcast: BroadcastFlag, dataLength: u16)

  datatype AclPacket = AclPacket(header: AclHeader, data: AclData)

  /** Only the low 12 bits of a handle are kept. */
  function NewAclHeader(handle: u16, boundary: PacketBoundary, broadcast: BroadcastFlag, dataLength: u16): AclHeader {
    AclHeader(handle % 0x1000, boundary, broadcast, dataLength)
  }

  datatype AclError =
    | ShortHeader
    | ShortPacket
    | DataTooLarge
    | BufferTooSmall
    | UnknownHandle
    | FragmentBufferFull
    | BadL2capPacket
    | BadSignalingCommand
    | SignalingFailed
    | UnsupportedChannel
    | ReservedChannel

  /** Handle in bits 0..11, boundary flag in 12..13, broadcast flag in 14..15. */
  function HandleAndFlags(h: AclHeader): u16 {
    h.handle + 0x1000 * BoundaryBits(h.boundary) + 0x4000 * BroadcastBits(h.broadcast)
  }

  function AclHeaderToBytes(h: AclHeader): seq<u8> {
    Le16(HandleAndFlags(h)) + Le16(h.dataLength)
  }

  function AclHeaderFromBytes(b: seq<u8>): Result<AclHeader, AclError> {
    if |b| < ACL_HEADER_SIZE then Err(ShortHeader)
    else
      var w := FromLe16(b[0], b[1]);
      Ok(NewAclHeader(w % 0x1000, BoundaryFromBits(w / 0x1000 % 4), BroadcastFromBits(w / 0x4000 % 4),
                      FromLe16(b[2], b[3])))
  }

  function AclPacketFromBytes(b: seq<u8>): Result<AclPacket, AclError> {
    var h :- AclHeaderFromBytes(b);
    if |b| < ACL_HEADER_SIZE + h.dataLength then Err(ShortPacket)
    else if h.dataLength > MAX_ACL_DATA_SIZE then Err(DataTooLarge)
    else Ok(AclPacket(h, b[ACL_HEADER_SIZE..ACL_HEADER_SIZE + h.dataLength]))
  }

  /** A packet on the wire, when it fits a buffer of the given capacity. */
  function AclPacketBytes(p: AclPacket, capacity: nat): Result<seq<u8>, AclError> {
    if ACL_HEADER_SIZE + |p.data| <= capacity then Ok(AclHeaderToBytes(p.header) + p.data) else Err(BufferTooSmall)
  }

  method AclPacketToBytes(p: AclPacket, capacity: nat) returns (r: Result<seq<u8>, AclError>)
    ensures r == AclPacketBytes(p, capacity)
  {
    var bytes := [];
    bytes :- Extend(bytes, AclHeaderToBytes(p.header), capacity, BufferTooSmall);
    bytes :- Extend(bytes, p.data, capacity, BufferTooSmall);
    assert bytes == AclHeaderToBytes(p.header) + p.data;
    r := Ok(bytes);
  }

  lemma FlagsRoundTrip(h: AclHeader)
    ensures var w := HandleAndFlags(h);
            && w % 0x1000 == h.handle
            && BoundaryFromBits(w / 0x1000 % 4) == h.boundary
            && BroadcastFromBits(w / 0x4000 % 4) == h.broadcast
  {
    var w, pb, bc := HandleAndFlags(h), BoundaryBits(h.boundary), BroadcastBits(h.broadcast);
    assert w / 0x1000 == pb + 4 * bc;
    assert w / 0x4000 == bc;
  }

  /** Parsing a printed ACL packet, whatever follows it, returns the packet. */
  lemma AclPacketRoundTrip(p: AclPacket, capacity: nat, rest: seq<u8>)
    requires p.header.dataLength == |p.data| && AclPacketBytes(p, capacity).Ok?
    ensures AclPacketFromBytes(AclPacketBytes(p, capacity).value + rest) == Ok(p)
  {
    var b := AclPacketBytes(p, capacity).value + rest;
    FlagsRoundTrip(p.header);
    Le16RoundTrip(HandleAndFlags(p.header), 0, 0);
    Le16RoundTrip(p.header.dataLength, 0, 0);
    assert b[0..2] == Le16(HandleAndFlags(p.header)) && b[2..4] == Le16(p.header.dataLength);
    assert FromLe16(b[0], b[1]) == HandleAndFlags(p.header);
    assert b[ACL_HEADER_SIZE..ACL_HEADER_SIZE + |p.data|] == p.data;
  }

  /** Fragmentation state of one link. */
  datatype AclConnection = AclConnection(
    handle: u16, remoteAddr: Address, fragmentBuffer: AclData, expectedLength: Option<u16>)
  {
    predicate Complete() {
      expectedLength.Some? && |fragmentBuffer| >= expectedLength.value
    }
  }

  function NewAclConnection(handle: u16, remoteAddr: Address): AclConnection {
    AclConnection(handle, remoteAddr, [], None)
  }

  function ResetFragmentation(c: AclConnection): AclConnection {
    c.(fragmentBuffer := [], expectedLength := None)
  }

  /** How the length of a frame is read from the first bytes of its first fragment. */
  type LengthReader = seq<u8> -> u16

  /** The reader the ACL layer uses: bytes 2 and 3. */
  function LengthAsRead(b: seq<u8>): u16 {
    if |b| < 4 then 0 else FromLe16(b[2], b[3])
  }

  /** The length field of the basic frame: bytes 0 and 1. */
  function LengthField(b: seq<u8>): u16 {
    if |b| < 4 then 0 else FromLe16(b[0], b[1])
  }

  /** Header plus payload, in 16-bit arithmetic. */
  function ExpectedLength(reader: LengthReader, first: seq<u8>): u16 {
    (reader(first) + 4) % 0x1_0000
  }

  /** A full buffer is handed on and cleared. */
  function HandOver(c: AclConnection): (AclConnection, Result<Option<AclData>, AclError>) {
    if c.Complete() then (ResetFragmentation(c), Ok(Some(c.fragmentBuffer))) else (c, Ok(None))
  }

  /** What one packet does to its link: the new fragmentation state and the frame handed on, if any. */
  function Feed(reader: LengthReader, c: AclConnection, p: AclPacket)
    : (AclConnection, Result<Option<AclData>, AclError>)
  {
    match p.header.boundary
    case CompletePdu => (c, Ok(Some(p.data)))
    case ContinuingFragment =>
      if |c.fragmentBuffer| + |p.data| > MAX_ACL_DATA_SIZE then (c, Err(FragmentBufferFull))
      else HandOver(c.(fragmentBuffer := c.fragmentBuffer + p.data))
    case _ =>
      HandOver(c.(fragmentBuffer := p.data,
                  expectedLength := if |p.data| >= 4 then Some(ExpectedLength(reader, p.data)) else None))
  }

  /** A complete frame reaches the processor when it is a well-formed command on the signalling channel. */
  function Route(proc: Proc, c: AclConnection, handle: u16, data: seq<u8>): (Proc, Result<(), AclError>) {
    match PacketFromBytes(data)
    case Err(_) => (proc, Err(BadL2capPacket))
    case Ok(packet) =>
      if packet.header.channelId == SIGNALING_CID then
        match CommandFromBytes(packet.payload)
        case Err(_) => (proc, Err(BadSignalingCommand))
        case Ok(command) =>
          var (proc1, r) := HandleCommand(proc, command, c.remoteAddr, handle);
          (proc1, if r.Ok? then Ok(()) else Err(SignalingFailed))
      else if 2 <= packet.header.channelId <= 7 then (proc, Err(UnsupportedChannel))
      else if packet.header.channelId >= DYNAMIC_START then (proc, Ok(()))
      else (proc, Err(ReservedChannel))
  }

  type Links = seq<Entry<u16, AclConnection>>

  /** The fields of an ACL manager, as a value. */
  datatype AclState = AclState(connections: Links, proc: Proc)

  function ProcessPacket(reader: LengthReader, s: AclState, p: AclPacket): (AclState, Result<(), AclError>) {
    var handle := p.header.handle;
    if !Has(s.connections, handle) then (s, Err(UnknownHandle))
    else
      var (c, fed) := Feed(reader, Get(s.connections, handle), p);
      var s1 := s.(connections := Put(s.connections, handle, c));
      match fed
      case Err(e) => (s1, Err(e))
      case Ok(None) => (s1, Ok(()))
      case Ok(Some(data)) =>
        var (proc, r) := Route(s.proc, c, handle, data);
        (s1.(proc := proc), r)
  }

  /** A link that is already known starts over; a fifth link is refused. */
  function AddLink(m: Links, handle: u16, remoteAddr: Address): (bool, Links) {
    match Insert(m, handle, NewAclConnection(handle, remoteAddr), MAX_ACL_CONNECTIONS)
    case None => (false, m)
    case Some(n) => (true, n)
  }

  ghost predicate LinksOk(m: Links) {
    && Distinct(m) && |m| <= MAX_ACL_CONNECTIONS
    && forall h :: h in AsMap(m) ==> AsMap(m)[h].handle == h
  }

  class AclManager {
    const reader: LengthReader
    const processor: SignalingProcessor
    var connections: Links

    ghost predicate Valid()
      reads this, processor, processor.channelManager
    {
      LinksOk(connections) && processor.Valid()
    }

    function Value(): AclState
      reads this, processor, processor.channelManager
    {
      AclState(connections, processor.Value())
    }

    constructor (reader: LengthReader)
      ensures Valid() && Value() == AclState([], NEW_PROC) && this.reader == reader
    {
      this.reader := reader;
      processor := new SignalingProcessor();
      connections := [];
      new;
      assert Keys<u16, AclConnection>([]) == {};
    }

    method AddConnection(handle: u16, remoteAddr: Address) returns (ok: bool)
      requires Valid()
      modifies this
      ensures Valid() && (ok, connections) == AddLink(old(connections), handle, remoteAddr)
      ensures ok <==> handle in AsMap(old(connections)) || |old(connections)| < MAX_ACL_CONNECTIONS
      ensures AsMap(connections) == if ok then AsMap(old(connections))[handle := NewAclConnection(handle, remoteAddr)]
                                    else AsMap(old(connections))
    {
      InsertAsMap(connections, handle, NewAclConnection(handle, remoteAddr), MAX_ACL_CONNECTIONS);
      var inserted := Insert(connections, handle, NewAclConnection(handle, remoteAddr), MAX_ACL_CONNECTIONS);
      ok := inserted.Some?;
      if ok {
        connections := inserted.value;
      }
    }

    method RemoveConnection(handle: u16)
      requires Valid()
      modifies this
      ensures Valid() && connections == Remove(old(connections), handle)
      ensures AsMap(connections) == AsMap(old(connections)) - {handle}
    {
      RemoveAsMap(connections, handle);
      connections := Remove(connections, handle);
    }

    method StoreConnection(c: AclConnection)
      requires Valid() && Has(connections, c.handle)
      modifies this
      ensures Valid() && connections == Put(old(connections), c.handle, c)
    {
      PutAsMap(connections, c.handle, c);
      connections := Put(connections, c.handle, c);
    }

    method ProcessL2capData(c: AclConnection, handle: u16, data: seq<u8>) returns (r: Result<(), AclError>)
      requires Valid()
      modifies processor, processor.channelManager
      ensures Valid() && connections == old(connections)
      ensures (processor.Value(), r) == Route(old(processor.Value()), c, handle, data)
    {
      var parsed := PacketFromBytes(data);
      if parsed.Err? {
        return Err(BadL2capPacket);
      }
      var packet := parsed.value;
      if packet.header.channelId == SIGNALING_CID {
        var command := CommandFromBytes(packet.payload);
        if command.Err? {
          return Err(BadSignalingCommand);
        }
        var reply := processor.OnCommand(command.value, c.remoteAddr, handle);
        return if reply.Ok? then Ok(()) else Err(SignalingFailed);
      } else if 2 <= packet.header.channelId <= 7 {
        return Err(UnsupportedChannel);
      } else if packet.header.channelId >= DYNAMIC_START {
        return Ok(());
      } else {
        return Err(ReservedChannel);
      }
    }

    /** Clears a complete buffer and hands it to L2CAP. */
    method Deliver(c: AclConnection) returns (r: Result<(), AclError>)
      requires Valid() && Has(connections, c.handle)
      modifies this, processor, processor.channelManager
      ensures Valid()
      ensures var (c1, fed) := HandOver(c);
              && connections == Put(old(connections), c.handle, c1)
              && (fed.value.None? ==> processor.Value() == old(processor.Value()) && r == Ok(()))
              && (fed.value.Some?
                  ==> (processor.Value(), r) == Route(old(processor.Value()), c1, c.handle, fed.value.value))
    {
      if c.Complete() {
        var data := c.fragmentBuffer;
        StoreConnection(ResetFragmentation(c));
        r := ProcessL2capData(ResetFragmentation(c), c.handle, data);
      } else {
        StoreConnection(c);
        r := Ok(());
      }
    }

    method ProcessAclPacket(p: AclPacket) returns (r: Result<(), AclError>)
      requires Valid()
      modifies this, processor, processor.channelManager
      ensures Valid()
      ensures (Value(), r) == ProcessPacket(reader, old(Value()), p)
    {
      var handle := p.header.handle;
      if !Has(connections, handle) {
        return Err(UnknownHandle);
      }
      HasIsIn(connections, handle);
      var c := Get(connections, handle);
      PutGet(connections, handle);
      if p.header.boundary.CompletePdu? {
        r := ProcessL2capData(c, handle, p.data);
      } else if p.header.boundary.ContinuingFragment? {
        if |c.fragmentBuffer| + |p.data| > MAX_ACL_DATA_SIZE {
          return Err(FragmentBufferFull);
        }
        r := Deliver(c.(fragmentBuffer := c.fragmentBuffer + p.data));
      } else {
        c := ResetFragmentation(c);
        if |p.data| >= 4 {
          c := c.(expectedLength := Some((reader(p.data) + 4) % 0x1_0000));
        }
        c := c.(fragmentBuffer := p.data);
        r := Deliver(c);
      }
    }
  }

  /** Writing back what is there changes nothing. */
  lemma PutGet<K, V>(m: seq<Entry<K, V>>, k: K)
    requires Has(m, k)
    ensures Put(m, k, Get(m, k)) == m
  {
  }
}
