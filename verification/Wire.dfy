/** Commands over the wire: what the processor emits reaches the peer's processor as the same command. */
module Wire {
  import opened Wrappers
  import opened Words
  import opened IndexMap
  import opened Channel
  import opened Packet
  import opened Signaling
  import opened Processor
  import opened ProcessorRuns
  import opened Acl
  import opened Agreement
  import opened Duplex

  /** Header code and length match the payload, and the command fits its buffer. */
  ghost predicate Emittable(c: SignalingCommand) {
    WellFormed(c) && CommandBytes(c).Ok?
  }

  /** Every request the processor builds can be sent as it is. */
  lemma RequestsAreEmittable(p: Proc, psm: u16, addr: Address, h: u16, cid: u16, options: ConfigurationOptions)
    ensures Connect(p, psm, addr, h).1.Ok? ==> Emittable(Connect(p, psm, addr, h).1.value.1)
    ensures ConfigureChannel(p, cid, options).1.Ok? ==> Emittable(ConfigureChannel(p, cid, options).1.value)
    ensures Disconnect(p, cid).1.Ok? ==> Emittable(Disconnect(p, cid).1.value)
  {
  }

  ghost predicate ReplyTo(command: SignalingCommand, reply: SignalingCommand) {
    && Emittable(reply) && IsResponse(reply)
    && reply.header.identifier == command.header.identifier
    && (command.ConnectionRequest? ==> reply.ConnectionResponse? && reply.sourceCid == command.sourceCid)
    && (command.ConfigurationRequest? ==> reply.ConfigurationResponse?)
    && (command.DisconnectionRequest? ==>
          reply.DisconnectionResponse? && reply.destinationCid == command.sourceCid
            && reply.sourceCid == command.destinationCid)
  }

  /**
   Only requests are replied to; a reply is of the matching kind, carries the
   request's identifier and can be sent.
   */
  lemma RepliesAreEmittable(p: Proc, command: SignalingCommand, addr: Address, h: u16)
    ensures var r := HandleCommand(p, command, addr, h).1;
            r.Ok? && r.value.Some? ==> IsRequest(command) && ReplyTo(command, r.value.value)
  {
  }

  /**
   The source CID of the reply to a configuration request names the requester's
   channel, as it should, if and only if the request's identifier happens to equal
   that CID.
   */
  lemma ConfigurationReplyNamesRequester(p: Proc, request: SignalingCommand, addr: Address, h: u16)
    requires request.ConfigurationRequest? && request.destinationCid in Chans(p)
    requires Chans(p)[request.destinationCid].remoteCid.Some?
    ensures var (q, r) := HandleCommand(p, request, addr, h);
            && q == p && r.Ok? && r.value.Some? && r.value.value.ConfigurationResponse?
            && (Chans(p)[request.destinationCid].remoteCid == Some(r.value.value.sourceCid)
                <==> Chans(p)[request.destinationCid].remoteCid == Some(request.header.identifier as u16))
  {
  }

  /** A command as the payload of a frame on the signalling channel. */
  function SignalingFrame(c: SignalingCommand): (frame: AclData)
    requires CommandBytes(c).Ok?
    ensures |frame| <= HEADER_SIZE + COMMAND_CAPACITY
  {
    PacketBytes(NewPacket(SIGNALING_CID, CommandBytes(c).value)).value
  }

  /** That frame as one unfragmented ACL packet. */
  function CarryingPacket(c: SignalingCommand, handle: u12, broadcast: BroadcastFlag): AclPacket
    requires CommandBytes(c).Ok?
  {
    AclPacket(NewAclHeader(handle, CompletePdu, broadcast, |SignalingFrame(c)|), SignalingFrame(c))
  }

  lemma FrameIsRouted(proc: Proc, link: AclConnection, handle: u16, c: SignalingCommand)
    requires Emittable(c)
    ensures var (after, r) := HandleCommand(proc, c, link.remoteAddr, handle);
            Route(proc, link, handle, SignalingFrame(c)) == (after, if r.Ok? then Ok(()) else Err(SignalingFailed))
  {
    var bytes := CommandBytes(c).value;
    var packet := NewPacket(SIGNALING_CID, bytes);
    PacketRoundTrip(packet, []);
    assert SignalingFrame(c) + [] == SignalingFrame(c);
    CommandRoundTrip(c, []);
    assert bytes + [] == bytes;
  }

  /** A complete packet is routed as it is and leaves its link alone. */
  lemma CompletePacketProcessed(reader: LengthReader, s: AclState, p: AclPacket)
    requires Has(s.connections, p.header.handle) && p.header.boundary.CompletePdu?
    ensures var (proc, r) := Route(s.proc, Get(s.connections, p.header.handle), p.header.handle, p.data);
            ProcessPacket(reader, s, p) == (s.(proc := proc), r)
  {
    PutGet(s.connections, p.header.handle);
  }

  lemma CarryingPacketRoundTrip(c: SignalingCommand, handle: u12, broadcast: BroadcastFlag)
    requires CommandBytes(c).Ok?
    ensures var p := CarryingPacket(c, handle, broadcast);
            && p.header.handle == handle && p.header.boundary.CompletePdu? && p.data == SignalingFrame(c)
            && AclPacketBytes(p, MAX_ACL_DATA_SIZE).Ok?
            && AclPacketFromBytes(AclPacketBytes(p, MAX_ACL_DATA_SIZE).value) == Ok(p)
  {
    var p := CarryingPacket(c, handle, broadcast);
    AclPacketRoundTrip(p, MAX_ACL_DATA_SIZE, []);
    assert AclPacketBytes(p, MAX_ACL_DATA_SIZE).value + [] == AclPacketBytes(p, MAX_ACL_DATA_SIZE).value;
  }

  /**
   An emittable command, framed on the signalling channel and carried by a complete
   ACL packet, is printed, parsed back and handled by the receiving processor as
   the identical command; the link's fragmentation state stays as it was.
   */
  lemma WireIsTransparent(reader: LengthReader, s: AclState, c: SignalingCommand, handle: u12, broadcast: BroadcastFlag)
    requires Emittable(c) && Has(s.connections, handle)
    ensures var p := CarryingPacket(c, handle, broadcast);
            && AclPacketBytes(p, MAX_ACL_DATA_SIZE).Ok?
            && AclPacketFromBytes(AclPacketBytes(p, MAX_ACL_DATA_SIZE).value) == Ok(p)
            && var (after, r) := HandleCommand(s.proc, c, Get(s.connections, handle).remoteAddr, handle);
            && ProcessPacket(reader, s, p) == (s.(proc := after), if r.Ok? then Ok(()) else Err(SignalingFailed))
  {
    var p := CarryingPacket(c, handle, broadcast);
    CarryingPacketRoundTrip(c, handle, broadcast);
    CompletePacketProcessed(reader, s, p);
    FrameIsRouted(s.proc, Get(s.connections, handle), handle, c);
  }

  ghost predicate AllEmittable(q: Queue) {
    forall i :: 0 <= i < |q| ==> Emittable(q[i])
  }

  lemma StepAEmittable(s: System, action: Action)
    requires AllEmittable(s.ab) && AllEmittable(s.ba)
    ensures AllEmittable(StepA(s, action).ab) && AllEmittable(StepA(s, action).ba)
  {
    match action {
      case DoConnect(psm) => RequestsAreEmittable(s.a.proc, psm, s.a.peer, s.a.handle, 0, DEFAULT_OPTIONS);
      case DoConfigure(cid, options) => RequestsAreEmittable(s.a.proc, 0, s.a.peer, s.a.handle, cid, options);
      case DoDisconnect(cid) => RequestsAreEmittable(s.a.proc, 0, s.a.peer, s.a.handle, cid, DEFAULT_OPTIONS);
      case DoReceive =>
        if s.ba != [] {
          RepliesAreEmittable(s.a.proc, s.ba[0], s.a.peer, s.a.handle);
        }
    }
  }

  /** Over every run of two processors, whatever is in flight survives the wire. */
  lemma {:induction false} RunsEmittable(s: System, events: seq<Event>)
    requires AllEmittable(s.ab) && AllEmittable(s.ba)
    ensures AllEmittable(RunSystem(s, events).ab) && AllEmittable(RunSystem(s, events).ba)
    decreases |events|
  {
    if events != [] {
      match events[0] {
        case AtA(action) => StepAEmittable(s, action);
        case AtB(action) => StepAEmittable(Swap(s), action);
      }
      RunsEmittable(Step(s, events[0]), events[1..]);
    }
  }
}
