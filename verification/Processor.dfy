/** The L2CAP signalling processor: requests, their answers and the channel state machine. */
module Processor {
  import opened Wrappers
  import opened Words
  import opened IndexMap
  import opened Channel
  import opened Packet
  import opened Signaling

  const MAX_PENDING_REQUESTS: nat := 8

  datatype PendingRequest = PendingRequest(identifier: u8, localCid: Option<u16>, code: SignalingCode)

  /** The fields of a signalling processor, as a value. */
  datatype Proc = Proc(manager: Manager, nextId: u8, pending: seq<PendingRequest>)

  const NEW_PROC := Proc(NEW_MANAGER, 1, [])

  /** Identifiers run 1..255 and wrap past 0. */
  function NextId(id: u8): u8 {
    var next := (id + 1) % 0x100;
    if next == 0 then 1 else next
  }

  type Reply = Result<Option<SignalingCommand>, L2capError>

  /** The position of the first pending request answered by (id, code), or the length. */
  function FindPending(pending: seq<PendingRequest>, id: u8, code: SignalingCode): (i: nat)
    ensures i <= |pending|
    ensures i < |pending| ==> pending[i].identifier == id && pending[i].code == code
  {
    if pending == [] then 0
    else if pending[0].identifier == id && pending[0].code == code then 0
    else 1 + FindPending(pending[1..], id, code)
  }

  lemma {:induction false} FindPendingFirst(pending: seq<PendingRequest>, id: u8, code: SignalingCode, j: nat)
    requires j < |pending| && pending[j].identifier == id && pending[j].code == code
    ensures FindPending(pending, id, code) <= j
  {
    if pending[0].identifier != id || pending[0].code != code {
      FindPendingFirst(pending[1..], id, code, j - 1);
    }
  }

  /** Records a request that was built, unless eight are already waiting. */
  function Track<T>(p: Proc, request: PendingRequest, built: T): (Proc, Result<T, L2capError>) {
    if |p.pending| < MAX_PENDING_REQUESTS
    then (p.(pending := p.pending + [request]), Ok(built))
    else (p, Err(PayloadTooLarge))
  }

  function Connect(p: Proc, psm: u16, remoteAddr: Address, connHandle: u16)
    : (Proc, Result<(u16, SignalingCommand), L2capError>)
  {
    var (m, r) := CreateOutgoing(p.manager, psm, remoteAddr, connHandle);
    match r
    case Err(e) => (p.(manager := m), Err(e))
    case Ok(cid) =>
      var m1 := if Has(m.channels, cid) then SetChannel(m, cid, Get(m.channels, cid).(state := WaitConnect)) else m;
      var command := ConnectionRequest(SignalingHeader(ConnReq, p.nextId, 4), psm, cid);
      Track(Proc(m1, NextId(p.nextId), p.pending), PendingRequest(p.nextId, Some(cid), ConnReq), (cid, command))
  }

  function ConfigureChannel(p: Proc, localCid: u16, options: ConfigurationOptions)
    : (Proc, Result<SignalingCommand, L2capError>)
  {
    if !Has(p.manager.channels, localCid) then (p, Err(InsufficientData))
    else
      var c := Get(p.manager.channels, localCid);
      match c.remoteCid
      case None => (p, Err(InsufficientData))
      case Some(remoteCid) =>
        var c1 := c.(localConfig := options, configFlags := c.configFlags.(localState := InProgress));
        var command := ConfigurationRequest(SignalingHeader(ConfReq, p.nextId, 4), remoteCid, 0, []);
        Track(Proc(SetChannel(p.manager, localCid, c1), NextId(p.nextId), p.pending),
              PendingRequest(p.nextId, Some(localCid), ConfReq), command)
  }

  function Disconnect(p: Proc, localCid: u16): (Proc, Result<SignalingCommand, L2capError>) {
    if !Has(p.manager.channels, localCid) then (p, Err(InsufficientData))
    else
      var c := Get(p.manager.channels, localCid);
      match c.remoteCid
      case None => (p, Err(InsufficientData))
      case Some(remoteCid) =>
        var command := DisconnectionRequest(SignalingHeader(DiscReq, p.nextId, 4), remoteCid, localCid);
        Track(Proc(SetChannel(p.manager, localCid, c.(state := WaitDisconnect)), NextId(p.nextId), p.pending),
              PendingRequest(p.nextId, Some(localCid), DiscReq), command)
  }

  function HandleConnectionRequest(p: Proc, h: SignalingHeader, psm: u16, sourceCid: u16, remoteAddr: Address,
                                   connHandle: u16)
    : (Proc, Reply)
  {
    var answer := SignalingHeader(ConnRsp, h.identifier, 8);
    if psm != AVDTP_PSM then (p, Ok(Some(ConnectionResponse(answer, 0, sourceCid, PsmNotSupported, 0))))
    else
      var (m, r) := CreateIncoming(p.manager, sourceCid, psm, remoteAddr, connHandle);
      match r
      case Err(e) => (p.(manager := m), Err(e))
      case Ok(cid) => (p.(manager := m), Ok(Some(ConnectionResponse(answer, cid, sourceCid, ConnSuccess, 0))))
  }

  /** The channel after its connection request is answered. */
  function Answered(c: L2capChannel, destinationCid: u16, result: ConnectionResult): L2capChannel {
    if result.ConnSuccess? then c.(remoteCid := Some(destinationCid), state := Config) else c.(state := Closed)
  }

  /** The channel after its configuration request is answered. */
  function Configured(c: L2capChannel, result: ConfigurationResult): L2capChannel {
    if result.ConfSuccess? then
      var c1 := c.(configFlags := c.configFlags.(localState := Complete));
      if c1.IsConfigured() then c1.(state := Open) else c1
    else c.(state := Closed)
  }

  function HandleConnectionResponse(p: Proc, h: SignalingHeader, destinationCid: u16, result: ConnectionResult)
    : (Proc, Reply)
  {
    var i := FindPending(p.pending, h.identifier, ConnReq);
    if i == |p.pending| then (p, Err(InsufficientData))
    else
      var p1 := p.(pending := SwapRemove(p.pending, i));
      match p.pending[i].localCid
      case None => (p1, Err(InsufficientData))
      case Some(cid) =>
        if Has(p.manager.channels, cid)
        then (p1.(manager := SetChannel(p.manager, cid,
                                        Answered(Get(p.manager.channels, cid), destinationCid, result))), Ok(None))
        else (p1, Ok(None))
  }

  function HandleConfigurationRequest(h: SignalingHeader): SignalingCommand {
    ConfigurationResponse(SignalingHeader(ConfRsp, h.identifier, 6), h.identifier, 0, ConfSuccess, [])
  }

  function HandleConfigurationResponse(p: Proc, h: SignalingHeader, result: ConfigurationResult): (Proc, Reply) {
    var i := FindPending(p.pending, h.identifier, ConfReq);
    if i == |p.pending| then (p, Err(InsufficientData))
    else
      var p1 := p.(pending := SwapRemove(p.pending, i));
      match p.pending[i].localCid
      case None => (p1, Err(InsufficientData))
      case Some(cid) =>
        if Has(p.manager.channels, cid)
        then (p1.(manager := SetChannel(p.manager, cid, Configured(Get(p.manager.channels, cid), result))), Ok(None))
        else (p1, Ok(None))
  }

  function HandleDisconnectionRequest(p: Proc, h: SignalingHeader, destinationCid: u16, sourceCid: u16, connHandle: u16)
    : (Proc, SignalingCommand)
  {
    var answer := DisconnectionResponse(SignalingHeader(DiscRsp, h.identifier, 4), sourceCid, destinationCid);
    match FindByRemoteCid(p.manager.channels, sourceCid, connHandle)
    case None => (p, answer)
    case Some(c) => (p.(manager := RemoveChannel(p.manager, c.localCid)), answer)
  }

  function HandleDisconnectionResponse(p: Proc, h: SignalingHeader): (Proc, Reply) {
    var i := FindPending(p.pending, h.identifier, DiscReq);
    if i == |p.pending| then (p, Err(InsufficientData))
    else
      var p1 := p.(pending := SwapRemove(p.pending, i));
      match p.pending[i].localCid
      case None => (p1, Ok(None))
      case Some(cid) => (p1.(manager := RemoveChannel(p.manager, cid)), Ok(None))
  }

  /** The effect of one incoming command and what is sent back. */
  function HandleCommand(p: Proc, command: SignalingCommand, remoteAddr: Address, connHandle: u16): (Proc, Reply) {
    match command
    case ConnectionRequest(h, psm, src) => HandleConnectionRequest(p, h, psm, src, remoteAddr, connHandle)
    case ConnectionResponse(h, dst, _, result, _) => HandleConnectionResponse(p, h, dst, result)
    case ConfigurationRequest(h, _, _, _) => (p, Ok(Some(HandleConfigurationRequest(h))))
    case ConfigurationResponse(h, _, _, result, _) => HandleConfigurationResponse(p, h, result)
    case DisconnectionRequest(h, dst, src) =>
      var (p1, answer) := HandleDisconnectionRequest(p, h, dst, src, connHandle);
      (p1, Ok(Some(answer)))
    case DisconnectionResponse(h, _, _) => HandleDisconnectionResponse(p, h)
    case Unknown(_, _) => (p, Ok(None))
  }

  class SignalingProcessor {
    const channelManager: ChannelManager
    var nextId: u8
    var pendingRequests: seq<PendingRequest>

    ghost predicate Valid()
      reads this, channelManager
    {
      channelManager.Valid()
    }

    function Value(): Proc
      reads this, channelManager
    {
      Proc(channelManager.Value(), nextId, pendingRequests)
    }

    constructor ()
      ensures Valid() && Value() == NEW_PROC
      ensures fresh(channelManager)
    {
      channelManager := new ChannelManager();
      nextId := 1;
      pendingRequests := [];
    }

    method NextIdentifier() returns (id: u8)
      modifies this
      ensures id == old(nextId) && nextId == NextId(id)
      ensures pendingRequests == old(pendingRequests)
    {
      id := nextId;
      nextId := (nextId + 1) % 0x100;
      if nextId == 0 {
        nextId := 1;
      }
    }

    /** Pushes a pending request; a full list refuses it and stays as it was. */
    method PushPending(request: PendingRequest) returns (ok: bool)
      modifies this
      ensures ok == (|old(pendingRequests)| < MAX_PENDING_REQUESTS)
      ensures pendingRequests == if ok then old(pendingRequests) + [request] else old(pendingRequests)
      ensures nextId == old(nextId)
    {
      ok := |pendingRequests| < MAX_PENDING_REQUESTS;
      if ok {
        pendingRequests := pendingRequests + [request];
      }
    }

    method ConnectTo(psm: u16, remoteAddr: Address, connHandle: u16)
      returns (r: Result<(u16, SignalingCommand), L2capError>)
      requires Valid()
      modifies this, channelManager
      ensures Valid() && (Value(), r) == Connect(old(Value()), psm, remoteAddr, connHandle)
    {
      var created := channelManager.CreateOutgoingChannel(psm, remoteAddr, connHandle);
      if created.Err? {
        return Err(created.error);
      }
      var localCid := created.value;
      if Has(channelManager.channels, localCid) {
        channelManager.StoreChannel(localCid, Get(channelManager.channels, localCid).(state := WaitConnect));
      }
      var identifier := NextIdentifier();
      var command := ConnectionRequest(SignalingHeader(ConnReq, identifier, 4), psm, localCid);
      var pushed := PushPending(PendingRequest(identifier, Some(localCid), ConnReq));
      r := if pushed then Ok((localCid, command)) else Err(PayloadTooLarge);
    }

    method Configure(localCid: u16, options: ConfigurationOptions) returns (r: Result<SignalingCommand, L2capError>)
      requires Valid()
      modifies this, channelManager
      ensures Valid() && (Value(), r) == ConfigureChannel(old(Value()), localCid, options)
    {
      if !Has(channelManager.channels, localCid) {
        return Err(InsufficientData);
      }
      var c := Get(channelManager.channels, localCid);
      if c.remoteCid.None? {
        return Err(InsufficientData);
      }
      channelManager.StoreChannel(localCid,
                                  c.(localConfig := options, configFlags := c.configFlags.(localState := InProgress)));
      var identifier := NextIdentifier();
      var command := ConfigurationRequest(SignalingHeader(ConfReq, identifier, 4), c.remoteCid.value, 0, []);
      var pushed := PushPending(PendingRequest(identifier, Some(localCid), ConfReq));
      r := if pushed then Ok(command) else Err(PayloadTooLarge);
    }

    method DisconnectChannel(localCid: u16) returns (r: Result<SignalingCommand, L2capError>)
      requires Valid()
      modifies this, channelManager
      ensures Valid() && (Value(), r) == Disconnect(old(Value()), localCid)
    {
      if !Has(channelManager.channels, localCid) {
        return Err(InsufficientData);
      }
      var c := Get(channelManager.channels, localCid);
      if c.remoteCid.None? {
        return Err(InsufficientData);
      }
      channelManager.StoreChannel(localCid, c.(state := WaitDisconnect));
      var identifier := NextIdentifier();
      var command := DisconnectionRequest(SignalingHeader(DiscReq, identifier, 4), c.remoteCid.value, localCid);
      var pushed := PushPending(PendingRequest(identifier, Some(localCid), DiscReq));
      r := if pushed then Ok(command) else Err(PayloadTooLarge);
    }

    /** Takes the pending request that (id, code) answers out of the list. */
    method TakePending(id: u8, code: SignalingCode) returns (taken: Option<PendingRequest>)
      modifies this
      ensures var i := FindPending(old(pendingRequests), id, code);
              if i < |old(pendingRequests)|
              then taken == Some(old(pendingRequests)[i]) && pendingRequests == SwapRemove(old(pendingRequests), i)
              else taken == None && pendingRequests == old(pendingRequests)
      ensures nextId == old(nextId)
    {
      var i := FindPending(pendingRequests, id, code);
      if i == |pendingRequests| {
        return None;
      }
      taken := Some(pendingRequests[i]);
      pendingRequests := SwapRemove(pendingRequests, i);
    }

    method OnConnectionResponse(h: SignalingHeader, destinationCid: u16, result: ConnectionResult) returns (r: Reply)
      requires Valid()
      modifies this, channelManager
      ensures Valid() && (Value(), r) == HandleConnectionResponse(old(Value()), h, destinationCid, result)
    {
      var taken := TakePending(h.identifier, ConnReq);
      if taken.None? || taken.value.localCid.None? {
        return Err(InsufficientData);
      }
      var localCid := taken.value.localCid.value;
      if Has(channelManager.channels, localCid) {
        var c := Get(channelManager.channels, localCid);
        if result.ConnSuccess? {
          c := c.(remoteCid := Some(destinationCid));
          c := c.(state := Config);
        } else {
          c := c.(state := Closed);
        }
        channelManager.StoreChannel(localCid, c);
      }
      r := Ok(None);
    }

    method OnConfigurationResponse(h: SignalingHeader, result: ConfigurationResult) returns (r: Reply)
      requires Valid()
      modifies this, channelManager
      ensures Valid() && (Value(), r) == HandleConfigurationResponse(old(Value()), h, result)
    {
      var taken := TakePending(h.identifier, ConfReq);
      if taken.None? || taken.value.localCid.None? {
        return Err(InsufficientData);
      }
      var localCid := taken.value.localCid.value;
      if Has(channelManager.channels, localCid) {
        var c := Get(channelManager.channels, localCid);
        if result.ConfSuccess? {
          c := c.(configFlags := c.configFlags.(localState := Complete));
          if c.IsConfigured() {
            c := c.(state := Open);
          }
        } else {
          c := c.(state := Closed);
        }
        channelManager.StoreChannel(localCid, c);
      }
      r := Ok(None);
    }

    method OnDisconnectionRequest(h: SignalingHeader, destinationCid: u16, sourceCid: u16, connHandle: u16)
      returns (answer: SignalingCommand)
      requires Valid()
      modifies this, channelManager
      ensures Valid()
              && (Value(), answer) == HandleDisconnectionRequest(old(Value()), h, destinationCid, sourceCid, connHandle)
    {
      var found := FindByRemoteCid(channelManager.channels, sourceCid, connHandle);
      if found.Some? {
        channelManager.RemoveChannelByCid(found.value.localCid);
      }
      answer := DisconnectionResponse(SignalingHeader(DiscRsp, h.identifier, 4), sourceCid, destinationCid);
    }

    method OnDisconnectionResponse(h: SignalingHeader) returns (r: Reply)
      requires Valid()
      modifies this, channelManager
      ensures Valid() && (Value(), r) == HandleDisconnectionResponse(old(Value()), h)
    {
      var taken := TakePending(h.identifier, DiscReq);
      if taken.None? {
        return Err(InsufficientData);
      }
      if taken.value.localCid.Some? {
        channelManager.RemoveChannelByCid(taken.value.localCid.value);
      }
      r := Ok(None);
    }

    method OnConnectionRequest(h: SignalingHeader, psm: u16, sourceCid: u16, remoteAddr: Address, connHandle: u16)
      returns (r: Reply)
      requires Valid()
      modifies this, channelManager
      ensures Valid()
              && (Value(), r) == HandleConnectionRequest(old(Value()), h, psm, sourceCid, remoteAddr, connHandle)
    {
      var answer := SignalingHeader(ConnRsp, h.identifier, 8);
      if psm != AVDTP_PSM {
        return Ok(Some(ConnectionResponse(answer, 0, sourceCid, PsmNotSupported, 0)));
      }
      var created := channelManager.CreateIncomingChannel(sourceCid, psm, remoteAddr, connHandle);
      if created.Err? {
        return Err(created.error);
      }
      r := Ok(Some(ConnectionResponse(answer, created.value, sourceCid, ConnSuccess, 0)));
    }

    method OnCommand(command: SignalingCommand, remoteAddr: Address, connHandle: u16) returns (r: Reply)
      requires Valid()
      modifies this, channelManager
      ensures Valid() && (Value(), r) == HandleCommand(old(Value()), command, remoteAddr, connHandle)
    {
      match command {
        case ConnectionRequest(h, psm, src) => r := OnConnectionRequest(h, psm, src, remoteAddr, connHandle);
        case ConnectionResponse(h, dst, _, result, _) => r := OnConnectionResponse(h, dst, result);
        case ConfigurationRequest(h, _, _, _) => r := Ok(Some(HandleConfigurationRequest(h)));
        case ConfigurationResponse(h, _, _, result, _) => r := OnConfigurationResponse(h, result);
        case DisconnectionRequest(h, dst, src) =>
          var answer := OnDisconnectionRequest(h, dst, src, connHandle);
          r := Ok(Some(answer));
        case DisconnectionResponse(h, _, _) => r := OnDisconnectionResponse(h);
        case Unknown(_, _) => r := Ok(None);
      }
    }
  }
}
