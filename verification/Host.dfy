/** Controller events, the queue of internal commands they become, and the two indexes those commands keep. */
module Host {
  import opened Wrappers
  import opened Words
  import opened IndexMap
  import opened Processor
  import opened Acl

  const MAX_CHANNELS: nat := 8

  datatype HostMode = PoweredOff | PoweredOn | Discovering | Connecting | Connected | Idle

  type ClassBytes = b: seq<u8> | |b| == 3 witness [0, 0, 0]

  /** One device as the controller reports it. */
  datatype InquiryItem = InquiryItem(addr: Address, rssi: Option<int>, classOfDevice: Option<ClassBytes>)

  datatype Device = Device(addr: Address, rssi: Option<int>, name: Option<string>, classOfDevice: Option<int>)

  /** OtherEvent stands for the events that are ignored; an inquiry result comes with or without signal strength. */
  datatype HciEvent =
    | InquiryResult(found: seq<InquiryItem>)
    | ExtendedInquiryResult(addr: Address, classOfDevice: ClassBytes)
    | InquiryComplete(ok: bool)
    | ConnectionComplete(ok: bool, addr: Address, handle: u12)
    | DisconnectionComplete(ok: bool, handle: u12)
    | RemoteNameRequestComplete(ok: bool, addr: Address, name: seq<u8>)
    | PinCodeRequest(addr: Address)
    | LinkKeyRequest(addr: Address)
    | IoCapabilityRequest(addr: Address)
    | UserConfirmationRequest(addr: Address)
    | LinkKeyNotification(addr: Address, key: seq<u8>)
    | AuthenticationComplete(ok: bool)
    | AclReceived(handle: u12, boundary: PacketBoundary, broadcast: BroadcastFlag, data: seq<u8>)
    | OtherEvent

  datatype Command =
    | AddConnection(addr: Address, handle: u16)
    | RemoveConnection(handle: u16)
    | AddAclConnection(addr: Address, handle: u16)
    | RemoveAclConnection(handle: u16)
    | ProcessAclData(handle: u16, boundary: u8, broadcast: u8, data: AclData)
    | SetState(mode: HostMode)
    | SetDiscovering(on: bool)
    | AuthenticationRequested(handle: u16)
    | UpsertDevice(device: Device)
    | UpdateDeviceName(addr: Address, name: seq<u8>)
    | PinCodeRequestReply(addr: Address, pin: seq<u8>)
    | LinkKeyRequestNegativeReply(addr: Address)
    | IoCapabilityRequestReply(addr: Address)
    | UserConfirmationRequestReply(addr: Address)
    | StoreLinkKey(addr: Address, key: seq<u8>)

  /** The commands of one event are collected in a vector of this capacity; pushing on a full one has no effect. */
  const MAX_COMMANDS: nat := 8

  function Push(cs: seq<Command>, c: Command): seq<Command> {
    if |cs| < MAX_COMMANDS then cs + [c] else cs
  }

  /** All zero bytes mean that the class is not known. */
  function ParseClass(b: ClassBytes): Option<int> {
    if b == [0, 0, 0] then None else Some(b[0] as int + 0x100 * b[1] as int + 0x1_0000 * b[2] as int)
  }

  function DeviceOf(item: InquiryItem): Device {
    Device(item.addr, item.rssi, None, if item.classOfDevice.Some? then ParseClass(item.classOfDevice.value) else None)
  }

  const MAX_DEVICE_NAME_LENGTH: nat := 32

  /** Zeros after s, or its beginning, to n bytes. */
  function Padded(s: seq<u8>, n: nat): (r: seq<u8>)
    ensures |r| == n
  {
    if |s| >= n then s[..n] else s + seq(n - |s|, _ => 0)
  }

  /** The ASCII digits 0000. */
  const DEFAULT_PIN: seq<u8> := [48, 48, 48, 48]

  const PIN_LENGTH: nat := 16

  /** The found devices in order, as far as they fit. */
  function Upserts(found: seq<InquiryItem>): (cs: seq<Command>)
    ensures |cs| == if |found| < MAX_COMMANDS then |found| else MAX_COMMANDS
    ensures forall i :: 0 <= i < |cs| ==> cs[i] == UpsertDevice(DeviceOf(found[i]))
  {
    seq(if |found| < MAX_COMMANDS then |found| else MAX_COMMANDS,
        i requires 0 <= i < |found| => UpsertDevice(DeviceOf(found[i])))
  }

  /** The commands an event becomes, in order. */
  function CommandsOf(e: HciEvent): seq<Command> {
    match e
    case InquiryResult(found) => Upserts(found)
    case ExtendedInquiryResult(addr, bytes) => [UpsertDevice(Device(addr, None, None, ParseClass(bytes)))]
    case RemoteNameRequestComplete(ok, addr, name) =>
      if ok then [UpdateDeviceName(addr, Padded(name, MAX_DEVICE_NAME_LENGTH))] else []
    case PinCodeRequest(addr) => [PinCodeRequestReply(addr, Padded(DEFAULT_PIN, PIN_LENGTH))]
    case LinkKeyRequest(addr) => [LinkKeyRequestNegativeReply(addr)]
    case IoCapabilityRequest(addr) => [IoCapabilityRequestReply(addr)]
    case UserConfirmationRequest(addr) => [UserConfirmationRequestReply(addr)]
    case LinkKeyNotification(addr, key) => [StoreLinkKey(addr, key)]
    case ConnectionComplete(ok, addr, handle) =>
      if ok then [AddConnection(addr, handle), AddAclConnection(addr, handle), SetState(Connected),
                  AuthenticationRequested(handle)]
      else [SetState(PoweredOn)]
    case DisconnectionComplete(ok, handle) =>
      if ok then [RemoveConnection(handle), RemoveAclConnection(handle), SetState(PoweredOn)] else []
    case InquiryComplete(ok) =>
      [SetDiscovering(false)] + if ok then [SetState(PoweredOn)] else []
    case AuthenticationComplete(_) => [SetState(PoweredOn)]
    case AclReceived(handle, boundary, broadcast, data) =>
      if |data| <= MAX_ACL_DATA_SIZE
      then [ProcessAclData(handle, BoundaryBits(boundary), BroadcastBits(broadcast), data)]
      else []
    case OtherEvent => []
  }

  type Connections = seq<Entry<Address, u16>>

  /** The fields of a host that internal commands change, and what became of each ACL packet, oldest first. */
  datatype HostState = HostState(connections: Connections, acl: AclState, mode: HostMode, discovering: bool,
                                 log: seq<Result<(), AclError>>)

  /** The addresses connected under a handle, in map order. */
  function AddressesOf(m: Connections, handle: u16): (keys: seq<Address>)
    ensures |keys| <= |m|
  {
    if m == [] then []
    else
      var n := |m| - 1;
      AddressesOf(m[..n], handle) + if m[n].value == handle then [m[n].key] else []
  }

  function RemoveByHandle(m: Connections, handle: u16): Connections {
    RemoveAll(m, AddressesOf(m, handle))
  }

  /** An insertion whose failure is ignored. */
  function InsertConnection(m: Connections, addr: Address, handle: u16): Connections {
    match Insert(m, addr, handle, MAX_CHANNELS)
    case None => m
    case Some(n) => n
  }

  function PacketOf(handle: u16, boundary: u8, broadcast: u8, data: AclData): AclPacket {
    AclPacket(NewAclHeader(handle, BoundaryFromBits(boundary), BroadcastFromBits(broadcast), |data|), data)
  }

  /** Replies to the controller, names, found devices and link keys touch none of these fields. */
  function Execute(reader: LengthReader, s: HostState, c: Command): HostState {
    match c
    case AddConnection(addr, handle) => s.(connections := InsertConnection(s.connections, addr, handle))
    case RemoveConnection(handle) => s.(connections := RemoveByHandle(s.connections, handle))
    case AddAclConnection(addr, handle) =>
      s.(acl := s.acl.(connections := AddLink(s.acl.connections, handle, addr).1))
    case RemoveAclConnection(handle) => s.(acl := s.acl.(connections := Remove(s.acl.connections, handle)))
    case ProcessAclData(handle, boundary, broadcast, data) =>
      if boundary > 3 || broadcast > 3 then s
      else
        var (acl, r) := ProcessPacket(reader, s.acl, PacketOf(handle, boundary, broadcast, data));
        s.(acl := acl, log := s.log + [r])
    case SetState(mode) => s.(mode := mode)
    case SetDiscovering(on) => s.(discovering := on)
    case _ => s
  }

  /** The commands an event becomes, pushed one by one. */
  method ProcessHciEvent(e: HciEvent) returns (commands: seq<Command>)
    ensures commands == CommandsOf(e)
  {
    commands := [];
    match e {
      case InquiryResult(found) =>
        var i := 0;
        while i < |found|
          invariant i <= |found|
          invariant commands == Upserts(found[..i])
        {
          commands := Push(commands, UpsertDevice(DeviceOf(found[i])));
          i := i + 1;
        }
        assert found[..i] == found;
      case ExtendedInquiryResult(addr, bytes) =>
        commands := Push(commands, UpsertDevice(Device(addr, None, None, ParseClass(bytes))));
      case RemoteNameRequestComplete(ok, addr, name) =>
        if ok {
          commands := Push(commands, UpdateDeviceName(addr, Padded(name, MAX_DEVICE_NAME_LENGTH)));
        }
      case PinCodeRequest(addr) =>
        commands := Push(commands, PinCodeRequestReply(addr, Padded(DEFAULT_PIN, PIN_LENGTH)));
      case LinkKeyRequest(addr) =>
        commands := Push(commands, LinkKeyRequestNegativeReply(addr));
      case IoCapabilityRequest(addr) =>
        commands := Push(commands, IoCapabilityRequestReply(addr));
      case UserConfirmationRequest(addr) =>
        commands := Push(commands, UserConfirmationRequestReply(addr));
      case LinkKeyNotification(addr, key) =>
        commands := Push(commands, StoreLinkKey(addr, key));
      case ConnectionComplete(ok, addr, handle) =>
        if ok {
          commands := Push(commands, AddConnection(addr, handle));
          commands := Push(commands, AddAclConnection(addr, handle));
          commands := Push(commands, SetState(Connected));
          commands := Push(commands, AuthenticationRequested(handle));
        } else {
          commands := Push(commands, SetState(PoweredOn));
        }
      case DisconnectionComplete(ok, handle) =>
        if ok {
          commands := Push(commands, RemoveConnection(handle));
          commands := Push(commands, RemoveAclConnection(handle));
          commands := Push(commands, SetState(PoweredOn));
        }
      case InquiryComplete(ok) =>
        commands := Push(commands, SetDiscovering(false));
        if ok {
          commands := Push(commands, SetState(PoweredOn));
        }
      case AuthenticationComplete(_) =>
        commands := Push(commands, SetState(PoweredOn));
      case AclReceived(handle, boundary, broadcast, data) =>
        if |data| <= MAX_ACL_DATA_SIZE {
          commands := Push(commands, ProcessAclData(handle, BoundaryBits(boundary), BroadcastBits(broadcast), data));
        }
      case OtherEvent =>
    }
  }

  class BluetoothHost {
    const aclManager: AclManager
    var connections: Connections
    var mode: HostMode
    var discovering: bool
    var log: seq<Result<(), AclError>>

    ghost predicate Valid()
      reads this, aclManager, aclManager.processor, aclManager.processor.channelManager
    {
      aclManager.Valid()
    }

    function Value(): HostState
      reads this, aclManager, aclManager.processor, aclManager.processor.channelManager
    {
      HostState(connections, aclManager.Value(), mode, discovering, log)
    }

    constructor (reader: LengthReader)
      ensures Valid() && aclManager.reader == reader
      ensures Value() == HostState([], AclState([], NEW_PROC), PoweredOff, false, [])
    {
      aclManager := new AclManager(reader);
      connections, mode, discovering, log := [], PoweredOff, false, [];
    }

    /** Collects the addresses under the handle, then removes them. */
    method RemoveConnectionsByHandle(handle: u16)
      modifies this
      ensures connections == RemoveByHandle(old(connections), handle)
      ensures mode == old(mode) && discovering == old(discovering) && log == old(log)
    {
      var keys: seq<Address> := [];
      var i := 0;
      while i < |connections|
        invariant i <= |connections|
        invariant keys == AddressesOf(connections[..i], handle)
      {
        assert connections[..i + 1][..i] == connections[..i];
        if connections[i].value == handle {
          keys := keys + [connections[i].key];
        }
        i := i + 1;
      }
      assert connections[..i] == connections;
      i := 0;
      while i < |keys|
        invariant i <= |keys|
        invariant RemoveAll(connections, keys[i..]) == RemoveAll(old(connections), keys)
        invariant mode == old(mode) && discovering == old(discovering) && log == old(log)
      {
        connections := Remove(connections, keys[i]);
        assert keys[i..][1..] == keys[i + 1..];
        i := i + 1;
      }
    }

    method ProcessInternalCommand(c: Command)
      requires Valid()
      modifies this, aclManager, aclManager.processor, aclManager.processor.channelManager
      ensures Valid() && Value() == Execute(aclManager.reader, old(Value()), c)
    {
      match c {
        case AddConnection(addr, handle) =>
          var inserted := Insert(connections, addr, handle, MAX_CHANNELS);
          if inserted.Some? {
            connections := inserted.value;
          }
        case RemoveConnection(handle) =>
          RemoveConnectionsByHandle(handle);
        case AddAclConnection(addr, handle) =>
          var _ := aclManager.AddConnection(handle, addr);
        case RemoveAclConnection(handle) =>
          aclManager.RemoveConnection(handle);
        case ProcessAclData(handle, boundary, broadcast, data) =>
          if boundary > 3 || broadcast > 3 {
            return;
          }
          var r := aclManager.ProcessAclPacket(PacketOf(handle, boundary, broadcast, data));
          log := log + [r];
        case SetState(m) =>
          mode := m;
        case SetDiscovering(on) =>
          discovering := on;
        case _ =>
      }
    }
  }
}
