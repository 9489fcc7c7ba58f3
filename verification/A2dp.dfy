/** A2DP stream bookkeeping: the AVDTP stream map and the stream lists of the connections. */
module A2dp {
  import opened Wrappers
  import opened Words
  import opened IndexMap

  const MAX_A2DP_CONNECTIONS: nat := 4
  const MAX_CONNECTION_STREAMS: nat := 4
  const MAX_STREAM_ENDPOINTS: nat := 4
  const MAX_ACTIVE_STREAMS: nat := 2

  datatype Role = Source | Sink

  datatype CodecType = SbcType | Mpeg12Audio | Mpeg24Aac | Aptx | VendorSpecific

  datatype Codec = Sbc(parameters: seq<u8>) | Other(kind: CodecType, data: seq<u8>) {
    function Type(): CodecType {
      if Sbc? then SbcType else kind
    }
  }

  datatype StreamState = Disconnected | Connected | Configured | Streaming | Suspended

  datatype A2dpError = InvalidEndpoint | UnsupportedCodec | ConfigurationFailed | StreamNotReady | L2capError

  datatype StreamEndpoint = StreamEndpoint(seid: u8, role: Role, inUse: bool, capabilities: seq<Codec>,
                                           configuration: Option<Codec>)
  {
    function Configure(codec: Codec): Result<StreamEndpoint, A2dpError> {
      if exists i :: 0 <= i < |capabilities| && capabilities[i].Type() == codec.Type()
      then Ok(this.(configuration := Some(codec), inUse := true))
      else Err(UnsupportedCodec)
    }

    function Reset(): StreamEndpoint {
      this.(configuration := None, inUse := false)
    }
  }

  datatype AvdtpStream = AvdtpStream(handle: u16, localSeid: u8, remoteSeid: u8, remoteAddr: Address,
                                     connHandle: u16, state: StreamState, codec: Option<Codec>)
  {
    function SetCodec(c: Codec): AvdtpStream {
      this.(codec := Some(c), state := Configured)
    }

    function Start(): Result<AvdtpStream, A2dpError> {
      if state != Configured && state != Suspended then Err(StreamNotReady) else Ok(this.(state := Streaming))
    }

    function Suspend(): Result<AvdtpStream, A2dpError> {
      if state != Streaming then Err(StreamNotReady) else Ok(this.(state := Suspended))
    }
  }

  datatype A2dpConnection = A2dpConnection(remoteAddr: Address, signalingCid: u16, connHandle: u16,
                                           state: StreamState, streams: seq<u16>)
  {
    function AddStream(handle: u16): Result<A2dpConnection, A2dpError> {
      if |streams| < MAX_CONNECTION_STREAMS then Ok(this.(streams := streams + [handle]))
      else Err(ConfigurationFailed)
    }

    function RemoveStream(handle: u16): A2dpConnection {
      this.(streams := Without(streams, handle))
    }
  }

  /** A list without the first occurrence of an element. */
  function Without(list: seq<u16>, h: u16): seq<u16> {
    if list == [] then [] else if list[0] == h then list[1..] else [list[0]] + Without(list[1..], h)
  }

  type Streams = seq<Entry<u16, AvdtpStream>>
  type Connections = seq<Entry<Address, A2dpConnection>>
  type Endpoints = seq<StreamEndpoint>

  datatype Avdtp = Avdtp(endpoints: Endpoints, streams: Streams, nextHandle: u16)
  datatype Profile = Profile(avdtp: Avdtp, connections: Connections, nextSeid: u8)

  /** The position of the first endpoint with this identifier, or |eps|. */
  function FindEndpoint(eps: Endpoints, seid: u8): (i: nat)
    ensures i <= |eps| && (i < |eps| ==> eps[i].seid == seid)
  {
    if eps == [] || eps[0].seid == seid then 0 else 1 + FindEndpoint(eps[1..], seid)
  }

  function NextHandle(h: u16): u16 {
    (h + 1) % 0x1_0000
  }

  /** A handle is drawn before the insertion that may fail. */
  function CreateAvdtpStream(a: Avdtp, localSeid: u8, remoteSeid: u8, addr: Address, connHandle: u16)
    : (Result<u16, A2dpError>, Avdtp)
  {
    if FindEndpoint(a.endpoints, localSeid) == |a.endpoints| then (Err(InvalidEndpoint), a)
    else
      var drawn := a.(nextHandle := NextHandle(a.nextHandle));
      var s := AvdtpStream(a.nextHandle, localSeid, remoteSeid, addr, connHandle, Connected, None);
      match Insert(a.streams, a.nextHandle, s, MAX_ACTIVE_STREAMS)
      case None => (Err(ConfigurationFailed), drawn)
      case Some(streams) => (Ok(a.nextHandle), drawn.(streams := streams))
  }

  function AddSbcEndpoint(p: Profile, role: Role, parameters: seq<u8>): (Result<u8, A2dpError>, Profile) {
    var drawn := p.(nextSeid := (p.nextSeid + 1) % 0x100);
    if |p.avdtp.endpoints| < MAX_STREAM_ENDPOINTS then
      var ep := StreamEndpoint(p.nextSeid, role, false, [Sbc(parameters)], None);
      (Ok(p.nextSeid), drawn.(avdtp := p.avdtp.(endpoints := p.avdtp.endpoints + [ep])))
    else (Err(ConfigurationFailed), drawn)
  }

  function CreateConnection(p: Profile, addr: Address, cid: u16, connHandle: u16): (Result<(), A2dpError>, Profile) {
    if Has(p.connections, addr) then (Err(ConfigurationFailed), p)
    else match Insert(p.connections, addr, A2dpConnection(addr, cid, connHandle, Connected, []), MAX_A2DP_CONNECTIONS)
      case None => (Err(ConfigurationFailed), p)
      case Some(connections) => (Ok(()), p.(connections := connections))
  }

  function RemoveConnection(p: Profile, addr: Address): (Option<A2dpConnection>, Profile) {
    if Has(p.connections, addr) then
      var connection := Get(p.connections, addr);
      (Some(connection),
       p.(connections := Remove(p.connections, addr),
          avdtp := p.avdtp.(streams := RemoveAll(p.avdtp.streams, connection.streams))))
    else (None, p)
  }

  /** The last part of creating a stream, once AVDTP holds it. */
  function AttachStream(p: Profile, addr: Address, handle: u16, codec: Codec): (Result<u16, A2dpError>, Profile)
    requires Has(p.connections, addr)
  {
    var streams := if Has(p.avdtp.streams, handle)
                   then Put(p.avdtp.streams, handle, Get(p.avdtp.streams, handle).SetCodec(codec))
                   else p.avdtp.streams;
    var configured := p.(avdtp := p.avdtp.(streams := streams));
    match Get(p.connections, addr).AddStream(handle)
    case Err(e) => (Err(e), configured)
    case Ok(connection) => (Ok(handle), configured.(connections := Put(p.connections, addr, connection)))
  }

  /** The endpoint is configured first, and stays so when a later step fails. */
  function CreateStream(p: Profile, addr: Address, localSeid: u8, remoteSeid: u8, codec: Codec)
    : (Result<u16, A2dpError>, Profile)
  {
    var at := FindEndpoint(p.avdtp.endpoints, localSeid);
    if !Has(p.connections, addr) then (Err(L2capError), p)
    else if at == |p.avdtp.endpoints| then (Err(InvalidEndpoint), p)
    else match p.avdtp.endpoints[at].Configure(codec)
      case Err(e) => (Err(e), p)
      case Ok(endpoint) =>
        var a := p.avdtp.(endpoints := p.avdtp.endpoints[at := endpoint]);
        var (r, created) := CreateAvdtpStream(a, localSeid, remoteSeid, addr, Get(p.connections, addr).connHandle);
        match r
        case Err(e) => (Err(e), p.(avdtp := created))
        case Ok(handle) => AttachStream(p.(avdtp := created), addr, handle, codec)
  }

  /** Starting or suspending a stream changes its state, or nothing. */
  function StartStream(p: Profile, handle: u16): (Result<(), A2dpError>, Profile) {
    if !Has(p.avdtp.streams, handle) then (Err(InvalidEndpoint), p)
    else match Get(p.avdtp.streams, handle).Start()
      case Err(e) => (Err(e), p)
      case Ok(s) => (Ok(()), p.(avdtp := p.avdtp.(streams := Put(p.avdtp.streams, handle, s))))
  }

  function SuspendStream(p: Profile, handle: u16): (Result<(), A2dpError>, Profile) {
    if !Has(p.avdtp.streams, handle) then (Err(InvalidEndpoint), p)
    else match Get(p.avdtp.streams, handle).Suspend()
      case Err(e) => (Err(e), p)
      case Ok(s) => (Ok(()), p.(avdtp := p.avdtp.(streams := Put(p.avdtp.streams, handle, s))))
  }

  function ResetEndpoint(eps: Endpoints, seid: u8): Endpoints {
    var at := FindEndpoint(eps, seid);
    if at < |eps| then eps[at := eps[at].Reset()] else eps
  }

  function CloseStream(p: Profile, handle: u16): (Result<(), A2dpError>, Profile) {
    if !Has(p.avdtp.streams, handle) then (Err(InvalidEndpoint), p)
    else
      var s := Get(p.avdtp.streams, handle);
      var connections := if Has(p.connections, s.remoteAddr)
                         then Put(p.connections, s.remoteAddr, Get(p.connections, s.remoteAddr).RemoveStream(handle))
                         else p.connections;
      (Ok(()), p.(connections := connections,
                  avdtp := p.avdtp.(streams := Remove(p.avdtp.streams, handle),
                                    endpoints := ResetEndpoint(p.avdtp.endpoints, s.localSeid))))
  }

  class AvdtpProtocol {
    var endpoints: Endpoints
    var streams: Streams
    var nextHandle: u16

    function Value(): Avdtp
      reads this
    {
      Avdtp(endpoints, streams, nextHandle)
    }

    constructor ()
      ensures Value() == Avdtp([], [], 1)
    {
      endpoints, streams, nextHandle := [], [], 1;
    }

    method AddEndpoint(endpoint: StreamEndpoint) returns (r: Result<(), A2dpError>)
      modifies this
      ensures r == if |old(endpoints)| < MAX_STREAM_ENDPOINTS then Ok(()) else Err(ConfigurationFailed)
      ensures Value() == if r.Ok? then old(Value()).(endpoints := old(endpoints) + [endpoint]) else old(Value())
    {
      if |endpoints| >= MAX_STREAM_ENDPOINTS {
        return Err(ConfigurationFailed);
      }
      endpoints := endpoints + [endpoint];
      r := Ok(());
    }

    method CreateStream(localSeid: u8, remoteSeid: u8, addr: Address, connHandle: u16)
      returns (r: Result<u16, A2dpError>)
      modifies this
      ensures (r, Value()) == CreateAvdtpStream(old(Value()), localSeid, remoteSeid, addr, connHandle)
    {
      if FindEndpoint(endpoints, localSeid) == |endpoints| {
        return Err(InvalidEndpoint);
      }
      var handle := nextHandle;
      nextHandle := NextHandle(nextHandle);
      var s := AvdtpStream(handle, localSeid, remoteSeid, addr, connHandle, Connected, None);
      match Insert(streams, handle, s, MAX_ACTIVE_STREAMS) {
        case None => r := Err(ConfigurationFailed);
        case Some(inserted) =>
          streams := inserted;
          r := Ok(handle);
      }
    }

    method RemoveStream(handle: u16) returns (r: Option<AvdtpStream>)
      modifies this
      ensures Value() == old(Value()).(streams := Remove(old(streams), handle))
      ensures r == if Has(old(streams), handle) then Some(Get(old(streams), handle)) else None
    {
      r := None;
      if Has(streams, handle) {
        r := Some(Get(streams, handle));
      }
      streams := Remove(streams, handle);
    }
  }

  class A2dpProfile {
    const avdtp: AvdtpProtocol
    const role: Role
    var connections: Connections
    var nextSeid: u8

    function Value(): Profile
      reads this, avdtp
    {
      Profile(avdtp.Value(), connections, nextSeid)
    }

    constructor (role: Role)
      ensures Value() == Profile(Avdtp([], [], 1), [], 1) && fresh(avdtp) && this.role == role
    {
      avdtp := new AvdtpProtocol();
      this.role := role;
      connections, nextSeid := [], 1;
    }

    method AddEndpoint(parameters: seq<u8>) returns (r: Result<u8, A2dpError>)
      modifies this, avdtp
      ensures (r, Value()) == AddSbcEndpoint(old(Value()), role, parameters)
    {
      var seid := nextSeid;
      nextSeid := (nextSeid + 1) % 0x100;
      var _ :- avdtp.AddEndpoint(StreamEndpoint(seid, role, false, [Sbc(parameters)], None));
      r := Ok(seid);
    }

    method Connect(addr: Address, cid: u16, connHandle: u16) returns (r: Result<(), A2dpError>)
      modifies this
      ensures (r, Value()) == CreateConnection(old(Value()), addr, cid, connHandle)
    {
      if Has(connections, addr) {
        return Err(ConfigurationFailed);
      }
      match Insert(connections, addr, A2dpConnection(addr, cid, connHandle, Connected, []), MAX_A2DP_CONNECTIONS) {
        case None => r := Err(ConfigurationFailed);
        case Some(inserted) =>
          connections := inserted;
          r := Ok(());
      }
    }

    method Disconnect(addr: Address) returns (r: Option<A2dpConnection>)
      modifies this, avdtp
      ensures (r, Value()) == RemoveConnection(old(Value()), addr)
    {
      if !Has(connections, addr) {
        return None;
      }
      var connection := Get(connections, addr);
      connections := Remove(connections, addr);
      ghost var was := avdtp.Value();
      var i := 0;
      while i < |connection.streams|
        invariant i <= |connection.streams|
        invariant connections == Remove(old(connections), addr) && nextSeid == old(nextSeid)
        invariant avdtp.endpoints == was.endpoints && avdtp.nextHandle == was.nextHandle
        invariant RemoveAll(avdtp.streams, connection.streams[i..]) == RemoveAll(was.streams, connection.streams)
      {
        var _ := avdtp.RemoveStream(connection.streams[i]);
        assert connection.streams[i..][1..] == connection.streams[i + 1..];
        i := i + 1;
      }
      r := Some(connection);
    }

    method OpenStream(addr: Address, localSeid: u8, remoteSeid: u8, codec: Codec) returns (r: Result<u16, A2dpError>)
      modifies this, avdtp
      ensures (r, Value()) == CreateStream(old(Value()), addr, localSeid, remoteSeid, codec)
    {
      if !Has(connections, addr) {
        return Err(L2capError);
      }
      var connection := Get(connections, addr);
      var at := FindEndpoint(avdtp.endpoints, localSeid);
      if at == |avdtp.endpoints| {
        return Err(InvalidEndpoint);
      }
      var endpoint :- avdtp.endpoints[at].Configure(codec);
      avdtp.endpoints := avdtp.endpoints[at := endpoint];
      var handle :- avdtp.CreateStream(localSeid, remoteSeid, addr, connection.connHandle);
      if Has(avdtp.streams, handle) {
        avdtp.streams := Put(avdtp.streams, handle, Get(avdtp.streams, handle).SetCodec(codec));
      }
      connection :- connection.AddStream(handle);
      connections := Put(connections, addr, connection);
      r := Ok(handle);
    }

    method Start(handle: u16) returns (r: Result<(), A2dpError>)
      modifies avdtp
      ensures (r, Value()) == StartStream(old(Value()), handle)
    {
      if !Has(avdtp.streams, handle) {
        return Err(InvalidEndpoint);
      }
      var s :- Get(avdtp.streams, handle).Start();
      avdtp.streams := Put(avdtp.streams, handle, s);
      r := Ok(());
    }

    method Suspend(handle: u16) returns (r: Result<(), A2dpError>)
      modifies avdtp
      ensures (r, Value()) == SuspendStream(old(Value()), handle)
    {
      if !Has(avdtp.streams, handle) {
        return Err(InvalidEndpoint);
      }
      var s :- Get(avdtp.streams, handle).Suspend();
      avdtp.streams := Put(avdtp.streams, handle, s);
      r := Ok(());
    }

    method Close(handle: u16) returns (r: Result<(), A2dpError>)
      modifies this, avdtp
      ensures (r, Value()) == CloseStream(old(Value()), handle)
    {
      var removed := avdtp.RemoveStream(handle);
      match removed {
        case None => r := Err(InvalidEndpoint);
        case Some(s) =>
          if Has(connections, s.remoteAddr) {
            connections := Put(connections, s.remoteAddr, Get(connections, s.remoteAddr).RemoveStream(handle));
          }
          var at := FindEndpoint(avdtp.endpoints, s.localSeid);
          if at < |avdtp.endpoints| {
            avdtp.endpoints := avdtp.endpoints[at := avdtp.endpoints[at].Reset()];
          }
          r := Ok(());
      }
    }
  }
}
