/** What every run of a signalling processor keeps, against arbitrary incoming commands. */
module ProcessorRuns {
  import opened Wrappers
  import opened Words
  import opened IndexMap
  import opened Channel
  import opened Packet
  import opened Signaling
  import opened Processor

  /** Local CID to channel. */
  ghost function Chans(p: Proc): map<u16, L2capChannel> {
    AsMap(p.manager.channels)
  }

  ghost predicate ChannelOk(cid: u16, c: L2capChannel) {
    && c.localCid == cid && DYNAMIC_START <= cid
    && (c.state.WaitConnect? ==> c.remoteCid.None?)
    && (c.state.WaitConnectRsp? || c.state.Config? || c.state.WaitDisconnect? ==> c.remoteCid.Some?)
    && (c.state.Open? ==> c.IsConfigured())
    && c.configFlags.remoteState.NotConfigured?
  }

  ghost predicate RequestOk(r: PendingRequest) {
    r.localCid.Some? && (r.code.ConnReq? || r.code.ConfReq? || r.code.DiscReq?)
  }

  ghost predicate ChannelsOk(m: map<u16, L2capChannel>) {
    forall cid :: cid in m ==> ChannelOk(cid, m[cid])
  }

  ghost predicate RequestsOk(pending: seq<PendingRequest>) {
    forall i :: 0 <= i < |pending| ==> RequestOk(pending[i])
  }

  ghost predicate Coherent(p: Proc) {
    && ManagerOk(p.manager)
    && 1 <= p.nextId
    && |p.pending| <= MAX_PENDING_REQUESTS
    && ChannelsOk(Chans(p))
    && RequestsOk(p.pending)
  }

  datatype Op =
    | OpConnect(psm: u16, remoteAddr: Address, connHandle: u16)
    | OpConfigure(localCid: u16, options: ConfigurationOptions)
    | OpDisconnect(localCid: u16)
    | OpReceive(command: SignalingCommand, remoteAddr: Address, connHandle: u16)

  function Apply(p: Proc, op: Op): Proc {
    match op
    case OpConnect(psm, addr, h) => Connect(p, psm, addr, h).0
    case OpConfigure(cid, options) => ConfigureChannel(p, cid, options).0
    case OpDisconnect(cid) => Disconnect(p, cid).0
    case OpReceive(command, addr, h) => HandleCommand(p, command, addr, h).0
  }

  function Run(p: Proc, ops: seq<Op>): Proc
    decreases |ops|
  {
    if ops == [] then p else Run(Apply(p, ops[0]), ops[1..])
  }

  /** The CID the next allocation gives. */
  function AllocatedCid(m: Manager): u16 {
    var r := Allocate(m).1;
    if r.Ok? then r.value else 0
  }

  predicate Full(p: Proc) {
    |p.manager.channels| == MAX_L2CAP_CHANNELS
  }

  // ----- The effect of each operation, seen through the CID map -----

  lemma NextCidFree(m: Manager)
    requires ManagerOk(m)
    ensures Allocate(m).1 == Ok(AllocatedCid(m)) && DYNAMIC_START <= AllocatedCid(m)
    ensures AllocatedCid(m) !in AsMap(m.channels)
    ensures ManagerOk(Allocate(m).0) && Allocate(m).0.channels == m.channels
  {
    var k := AllocateFirstFree(m);
  }

  /** A channel that was given a CID, before anything was sent. */
  function Created(cid: u16, psm: u16, remoteAddr: Address, connHandle: u16): L2capChannel {
    L2capChannel(cid, None, psm, remoteAddr, connHandle, Closed, ConfigurationOptions(672, 0, None, BasicMode),
                 None, ConfigurationFlags(NotConfigured, NotConfigured))
  }

  lemma CreateOutgoingEffect(m: Manager, psm: u16, remoteAddr: Address, connHandle: u16)
    requires ManagerOk(m)
    ensures var (n, r) := CreateOutgoing(m, psm, remoteAddr, connHandle);
            var cid := AllocatedCid(m);
            && ManagerOk(n) && n.nextLocalCid == Allocate(m).0.nextLocalCid
            && cid !in AsMap(m.channels) && DYNAMIC_START <= cid
            && (|m.channels| == MAX_L2CAP_CHANNELS ==> r.Err? && n.channels == m.channels)
            && (|m.channels| < MAX_L2CAP_CHANNELS ==>
                  && r == Ok(cid)
                  && AsMap(n.channels) == AsMap(m.channels)[cid := Created(cid, psm, remoteAddr, connHandle)])
  {
    NextCidFree(m);
    AddChannelEffect(Allocate(m).0, NewOutgoing(AllocatedCid(m), psm, remoteAddr, connHandle));
  }

  /** A channel whose connection request was just sent. */
  function Waiting(cid: u16, psm: u16, remoteAddr: Address, connHandle: u16): L2capChannel {
    L2capChannel(cid, None, psm, remoteAddr, connHandle, WaitConnect, ConfigurationOptions(672, 0, None, BasicMode),
                 None, ConfigurationFlags(NotConfigured, NotConfigured))
  }

  /** A channel just opened for the peer's connection request. */
  function Incoming(cid: u16, src: u16, psm: u16, remoteAddr: Address, connHandle: u16): L2capChannel {
    L2capChannel(cid, Some(src), psm, remoteAddr, connHandle, WaitConnectRsp,
                 ConfigurationOptions(672, 0, None, BasicMode), None, ConfigurationFlags(NotConfigured, NotConfigured))
  }

  /** The new channel is found, and set to wait. */
  lemma WaitingSet(before: Channels, m: Manager, cid: u16, psm: u16, remoteAddr: Address, connHandle: u16)
    requires ManagerOk(m)
    requires AsMap(m.channels) == AsMap(before)[cid := Created(cid, psm, remoteAddr, connHandle)]
    ensures Has(m.channels, cid) && Get(m.channels, cid) == Created(cid, psm, remoteAddr, connHandle)
    ensures var n := SetChannel(m, cid, Waiting(cid, psm, remoteAddr, connHandle));
            && ManagerOk(n) && n.nextLocalCid == m.nextLocalCid
            && AsMap(n.channels) == AsMap(before)[cid := Waiting(cid, psm, remoteAddr, connHandle)]
  {
    HasIsIn(m.channels, cid);
    PutAsMap(m.channels, cid, Waiting(cid, psm, remoteAddr, connHandle));
  }

  /**
   Connecting takes a free CID for a waiting channel and tracks its request; on a
   full channel map nothing but the cursor moves, and on a full pending list the
   waiting channel stays behind untracked.
   */
  lemma ConnectEffect(p: Proc, psm: u16, remoteAddr: Address, connHandle: u16)
    requires Coherent(p)
    ensures var (q, r) := Connect(p, psm, remoteAddr, connHandle);
            var cid := AllocatedCid(p.manager);
            && ManagerOk(q.manager)
            && cid !in Chans(p) && DYNAMIC_START <= cid
            && q.manager.nextLocalCid == Allocate(p.manager).0.nextLocalCid
            && (r.Err? ==> r.error == PayloadTooLarge)
            && (Full(p) ==> r.Err? && Chans(q) == Chans(p) && q.pending == p.pending && q.nextId == p.nextId)
            && (!Full(p) ==>
                  && Chans(q) == Chans(p)[cid := Waiting(cid, psm, remoteAddr, connHandle)]
                  && q.nextId == NextId(p.nextId)
                  && (r.Ok? <==> |p.pending| < MAX_PENDING_REQUESTS)
                  && (r.Ok? ==> r.value == (cid, ConnectionRequest(SignalingHeader(ConnReq, p.nextId, 4), psm, cid)))
                  && q.pending == (if r.Ok? then p.pending + [PendingRequest(p.nextId, Some(cid), ConnReq)]
                                   else p.pending))
  {
    CreateOutgoingEffect(p.manager, psm, remoteAddr, connHandle);
    if !Full(p) {
      WaitingSet(p.manager.channels, CreateOutgoing(p.manager, psm, remoteAddr, connHandle).0, AllocatedCid(p.manager),
                 psm, remoteAddr, connHandle);
    }
  }

  lemma ConfigureEffect(p: Proc, cid: u16, options: ConfigurationOptions)
    requires Coherent(p)
    ensures var (q, r) := ConfigureChannel(p, cid, options);
            && ManagerOk(q.manager) && q.manager.nextLocalCid == p.manager.nextLocalCid
            && (cid !in Chans(p) || Chans(p)[cid].remoteCid.None? ==> r == Err(InsufficientData) && q == p)
            && (cid in Chans(p) && Chans(p)[cid].remoteCid.Some? ==>
                  && var c := Chans(p)[cid];
                  && Chans(q) == Chans(p)[cid := c.(localConfig := options,
                                                    configFlags := c.configFlags.(localState := InProgress))]
                  && q.nextId == NextId(p.nextId)
                  && (r.Ok? <==> |p.pending| < MAX_PENDING_REQUESTS)
                  && (r.Err? ==> r.error == PayloadTooLarge)
                  && (r.Ok? ==>
                        r.value == ConfigurationRequest(SignalingHeader(ConfReq, p.nextId, 4),
                                                        c.remoteCid.value, 0, []))
                  && q.pending == (if r.Ok? then p.pending + [PendingRequest(p.nextId, Some(cid), ConfReq)]
                                   else p.pending))
  {
    HasIsIn(p.manager.channels, cid);
    if Has(p.manager.channels, cid) {
      var c := Get(p.manager.channels, cid);
      PutAsMap(p.manager.channels, cid,
               c.(localConfig := options, configFlags := c.configFlags.(localState := InProgress)));
    }
  }

  lemma DisconnectEffect(p: Proc, cid: u16)
    requires Coherent(p)
    ensures var (q, r) := Disconnect(p, cid);
            && ManagerOk(q.manager) && q.manager.nextLocalCid == p.manager.nextLocalCid
            && (cid !in Chans(p) || Chans(p)[cid].remoteCid.None? ==> r == Err(InsufficientData) && q == p)
            && (cid in Chans(p) && Chans(p)[cid].remoteCid.Some? ==>
                  && var c := Chans(p)[cid];
                  && Chans(q) == Chans(p)[cid := c.(state := WaitDisconnect)]
                  && q.nextId == NextId(p.nextId)
                  && (r.Ok? <==> |p.pending| < MAX_PENDING_REQUESTS)
                  && (r.Err? ==> r.error == PayloadTooLarge)
                  && (r.Ok? ==>
                        r.value == DisconnectionRequest(SignalingHeader(DiscReq, p.nextId, 4), c.remoteCid.value, cid))
                  && q.pending == (if r.Ok? then p.pending + [PendingRequest(p.nextId, Some(cid), DiscReq)]
                                   else p.pending))
  {
    HasIsIn(p.manager.channels, cid);
    if Has(p.manager.channels, cid) {
      PutAsMap(p.manager.channels, cid, Get(p.manager.channels, cid).(state := WaitDisconnect));
    }
  }

  /**
   A supported connection request opens a channel that already knows the peer's
   CID, or is dropped when the map is full.
   */
  lemma ConnectionRequestEffect(p: Proc, h: SignalingHeader, psm: u16, src: u16, remoteAddr: Address, connHandle: u16)
    requires Coherent(p)
    ensures var (q, r) := HandleConnectionRequest(p, h, psm, src, remoteAddr, connHandle);
            var cid := AllocatedCid(p.manager);
            var answer := SignalingHeader(ConnRsp, h.identifier, 8);
            && ManagerOk(q.manager) && q.pending == p.pending && q.nextId == p.nextId
            && cid !in Chans(p) && DYNAMIC_START <= cid
            && (psm != AVDTP_PSM ==> q == p && r == Ok(Some(ConnectionResponse(answer, 0, src, PsmNotSupported, 0))))
            && (psm == AVDTP_PSM ==> q.manager.nextLocalCid == Allocate(p.manager).0.nextLocalCid)
            && (psm == AVDTP_PSM && Full(p) ==> r == Err(PayloadTooLarge) && Chans(q) == Chans(p))
            && (psm == AVDTP_PSM && !Full(p) ==>
                  && Chans(q) == Chans(p)[cid := Incoming(cid, src, psm, remoteAddr, connHandle)]
                  && r == Ok(Some(ConnectionResponse(answer, cid, src, ConnSuccess, 0))))
  {
    NextCidFree(p.manager);
    AddChannelEffect(Allocate(p.manager).0, NewIncoming(AllocatedCid(p.manager), src, psm, remoteAddr, connHandle));
  }

  /** The pending request an incoming command answers, if any. */
  function AnsweredIndex(p: Proc, command: SignalingCommand): (i: nat)
    ensures i <= |p.pending|
  {
    match command
    case ConnectionResponse(h, _, _, _, _) => FindPending(p.pending, h.identifier, ConnReq)
    case ConfigurationResponse(h, _, _, _, _) => FindPending(p.pending, h.identifier, ConfReq)
    case DisconnectionResponse(h, _, _) => FindPending(p.pending, h.identifier, DiscReq)
    case _ => |p.pending|
  }

  predicate IsResponse(c: SignalingCommand) {
    c.ConnectionResponse? || c.ConfigurationResponse? || c.DisconnectionResponse?
  }

  predicate IsRequest(c: SignalingCommand) {
    c.ConnectionRequest? || c.ConfigurationRequest? || c.DisconnectionRequest?
  }

  /** A channel whose connection request was granted or not. */
  ghost function Settled(c: L2capChannel, dst: u16, granted: bool): L2capChannel {
    if granted then c.(remoteCid := Some(dst), state := Config) else c.(state := Closed)
  }

  /** A channel whose configuration request was granted or not: open once both sides are complete. */
  ghost function Agreed(c: L2capChannel, granted: bool): L2capChannel {
    if !granted then c.(state := Closed)
    else c.(configFlags := ConfigurationFlags(Complete, c.configFlags.remoteState),
            state := if c.configFlags.remoteState == Complete then Open else c.state)
  }

  /** The channel map after a response to a request for `cid`. */
  ghost function AfterAnswer(m: map<u16, L2capChannel>, cid: u16, command: SignalingCommand): map<u16, L2capChannel>
    requires IsResponse(command)
  {
    if cid !in m then m
    else match command
      case ConnectionResponse(_, dst, _, result, _) => m[cid := Settled(m[cid], dst, result.ConnSuccess?)]
      case ConfigurationResponse(_, _, _, result, _) => m[cid := Agreed(m[cid], result.ConfSuccess?)]
      case DisconnectionResponse(_, _, _) => m - {cid}
  }

  lemma SwapRemoveMultiset<T>(s: seq<T>, i: nat)
    requires i < |s|
    ensures multiset(SwapRemove(s, i)) == multiset(s) - multiset{s[i]}
  {
    var n := |s| - 1;
    assert s == s[..n] + [s[n]];
    if i < n {
      assert s[i := s[n]][..n] == s[..n][i := s[n]];
      assert multiset(s[..n][i := s[n]]) == multiset(s[..n]) - multiset{s[i]} + multiset{s[n]};
    } else {
      assert s[i := s[n]][..n] == s[..n];
    }
  }

  /**
   A response that matches no pending request changes nothing and is an error. One
   that matches removes exactly the matched entry and touches at most that
   entry's channel.
   */
  lemma ResponseEffect(p: Proc, command: SignalingCommand, remoteAddr: Address, connHandle: u16)
    requires Coherent(p) && IsResponse(command)
    ensures var (q, r) := HandleCommand(p, command, remoteAddr, connHandle);
            var i := AnsweredIndex(p, command);
            && ManagerOk(q.manager) && q.manager.nextLocalCid == p.manager.nextLocalCid && q.nextId == p.nextId
            && (i == |p.pending| ==> q == p && r == Err(InsufficientData))
            && (i < |p.pending| ==>
                  && r == Ok(None)
                  && q.pending == SwapRemove(p.pending, i)
                  && multiset(q.pending) == multiset(p.pending) - multiset{p.pending[i]}
                  && p.pending[i].localCid.Some?
                  && Chans(q) == AfterAnswer(Chans(p), p.pending[i].localCid.value, command))
  {
    var i := AnsweredIndex(p, command);
    if i < |p.pending| {
      assert RequestOk(p.pending[i]);
      var cid := p.pending[i].localCid.value;
      var chs := p.manager.channels;
      SwapRemoveMultiset(p.pending, i);
      HasIsIn(chs, cid);
      match command {
        case ConnectionResponse(_, dst, _, result, _) =>
          if Has(chs, cid) {
            PutAsMap(chs, cid, Answered(Get(chs, cid), dst, result));
          }
        case ConfigurationResponse(_, _, _, result, _) =>
          if Has(chs, cid) {
            PutAsMap(chs, cid, Configured(Get(chs, cid), result));
          }
        case DisconnectionResponse(_, _, _) =>
          RemoveAsMap(chs, cid);
          if cid !in Chans(p) {
            assert Chans(p) - {cid} == Chans(p);
          }
      }
    }
  }

  /** The maps have the same channels, and differ at most in cid. */
  ghost predicate OnlyDiffersAt(m: map<u16, L2capChannel>, n: map<u16, L2capChannel>, cid: u16) {
    n.Keys == m.Keys && forall other :: other in m && other != cid ==> n[other] == m[other]
  }

  /** d is c after a configuration answer that grants or refuses the request. */
  ghost predicate ConfiguredAs(c: L2capChannel, d: L2capChannel, granted: bool) {
    && (!granted ==> d == c.(state := Closed))
    && (granted ==>
          && d == c.(configFlags := d.configFlags, state := d.state)
          && d.configFlags.localState == Complete && d.configFlags.remoteState == c.configFlags.remoteState
          && d.state == if c.configFlags.remoteState == Complete then Open else c.state)
  }

  lemma AnsweredMap(m: map<u16, L2capChannel>, cid: u16, command: SignalingCommand)
    requires IsResponse(command) && !command.DisconnectionResponse? && cid in m
    ensures var n := AfterAnswer(m, cid, command);
            && OnlyDiffersAt(m, n, cid)
            && (command.ConnectionResponse? && command.result == ConnSuccess ==>
                  n[cid] == m[cid].(remoteCid := Some(command.destinationCid), state := Config))
            && (command.ConnectionResponse? && command.result != ConnSuccess ==> n[cid] == m[cid].(state := Closed))
            && (command.ConfigurationResponse? ==>
                  ConfiguredAs(m[cid], n[cid], command.confResult == ConfSuccess))
  {
  }

  /**
   A connection response that matches a pending entry of a present channel: only
   success connects the channel, to the CID announced; every other result, Pending
   included, closes it. No other channel changes.
   */
  lemma ConnectionAnswerSettles(p: Proc, command: SignalingCommand, remoteAddr: Address, connHandle: u16,
                                i: nat, cid: u16)
    requires Coherent(p) && command.ConnectionResponse? && i < |p.pending|
    requires i == FindPending(p.pending, command.header.identifier, ConnReq)
    requires p.pending[i].localCid == Some(cid) && cid in Chans(p)
    ensures var (q, r) := HandleCommand(p, command, remoteAddr, connHandle);
            && r == Ok(None) && OnlyDiffersAt(Chans(p), Chans(q), cid)
            && (command.result == ConnSuccess ==>
                  Chans(q)[cid] == Chans(p)[cid].(remoteCid := Some(command.destinationCid), state := Config))
            && (command.result != ConnSuccess ==> Chans(q)[cid] == Chans(p)[cid].(state := Closed))
  {
    ResponseEffect(p, command, remoteAddr, connHandle);
    AnsweredMap(Chans(p), cid, command);
  }

  /**
   A configuration response that matches a pending entry of a present channel:
   success completes the local side, and opens the channel when the remote side is
   complete; every other result closes it. No other channel changes.
   */
  lemma ConfigurationAnswerSettles(p: Proc, command: SignalingCommand, remoteAddr: Address, connHandle: u16,
                                   i: nat, cid: u16)
    requires Coherent(p) && command.ConfigurationResponse? && i < |p.pending|
    requires i == FindPending(p.pending, command.header.identifier, ConfReq)
    requires p.pending[i].localCid == Some(cid) && cid in Chans(p)
    ensures var (q, r) := HandleCommand(p, command, remoteAddr, connHandle);
            && r == Ok(None) && OnlyDiffersAt(Chans(p), Chans(q), cid)
            && ConfiguredAs(Chans(p)[cid], Chans(q)[cid], command.confResult == ConfSuccess)
  {
    ResponseEffect(p, command, remoteAddr, connHandle);
    AnsweredMap(Chans(p), cid, command);
  }

  /**
   A configuration request changes nothing and is granted without conditions, in an
   answer whose source CID is the request's identifier; unknown commands are dropped.
   */
  lemma ConfigurationIsGranted(p: Proc, command: SignalingCommand, remoteAddr: Address, connHandle: u16)
    ensures var (q, r) := HandleCommand(p, command, remoteAddr, connHandle);
            && (command.ConfigurationRequest? ==>
                  && q == p && r.Ok? && r.value.Some? && r.value.value.ConfigurationResponse?
                  && var answer := r.value.value;
                  && answer.header == SignalingHeader(ConfRsp, command.header.identifier, 6)
                  && answer.sourceCid == command.header.identifier && answer.flags == 0
                  && answer.confResult == ConfSuccess && answer.options == [])
            && (command.Unknown? ==> q == p && r == Ok(None))
  {
  }

  /** A disconnection request removes one channel with the named remote CID on that link, if there is one. */
  lemma DisconnectionRequestEffect(p: Proc, h: SignalingHeader, dst: u16, src: u16, connHandle: u16)
    returns (removed: Option<u16>)
    requires Coherent(p)
    ensures var (q, answer) := HandleDisconnectionRequest(p, h, dst, src, connHandle);
            && answer == DisconnectionResponse(SignalingHeader(DiscRsp, h.identifier, 4), src, dst)
            && ManagerOk(q.manager) && q.manager.nextLocalCid == p.manager.nextLocalCid
            && q.pending == p.pending && q.nextId == p.nextId
            && (removed.Some? ==>
                  && removed.value in Chans(p)
                  && Chans(p)[removed.value].remoteCid == Some(src) && Chans(p)[removed.value].connHandle == connHandle
                  && Chans(q) == Chans(p) - {removed.value})
            && (removed.None? ==>
                  && q == p
                  && forall cid :: cid in Chans(p) ==>
                                      Chans(p)[cid].remoteCid != Some(src) || Chans(p)[cid].connHandle != connHandle)
  {
    var chs := p.manager.channels;
    var i := FindByRemoteCidFirst(chs, src, connHandle);
    if i < |chs| {
      AsMapAt(chs, i);
      assert Chans(p)[chs[i].key] == chs[i].value;
      assert ChannelOk(chs[i].key, chs[i].value);
      RemoveAsMap(chs, chs[i].key);
      removed := Some(chs[i].key);
    } else {
      removed := None;
      forall cid | cid in Chans(p)
        ensures Chans(p)[cid].remoteCid != Some(src) || Chans(p)[cid].connHandle != connHandle
      {
        HasIsIn(chs, cid);
        assert !HasRemote(chs[IndexOf(chs, cid)].value, src, connHandle);
      }
    }
  }

  // ----- The state invariant -----

  lemma CoherentInitially()
    ensures Coherent(NEW_PROC) && Chans(NEW_PROC) == map[]
  {
    assert Keys<u16, L2capChannel>([]) == {};
  }

  lemma AnswersKeepChannelsOk(m: map<u16, L2capChannel>, cid: u16, command: SignalingCommand)
    requires ChannelsOk(m) && IsResponse(command)
    ensures ChannelsOk(AfterAnswer(m, cid, command))
  {
    if cid in m {
      assert ChannelOk(cid, m[cid]);
    }
  }

  lemma CoherentAfterResponse(p: Proc, command: SignalingCommand, remoteAddr: Address, connHandle: u16)
    requires Coherent(p) && IsResponse(command)
    ensures Coherent(HandleCommand(p, command, remoteAddr, connHandle).0)
  {
    ResponseEffect(p, command, remoteAddr, connHandle);
    var i := AnsweredIndex(p, command);
    if i < |p.pending| {
      AnswersKeepChannelsOk(Chans(p), p.pending[i].localCid.value, command);
    }
  }

  lemma CoherentAfterReceive(p: Proc, command: SignalingCommand, remoteAddr: Address, connHandle: u16)
    requires Coherent(p)
    ensures Coherent(HandleCommand(p, command, remoteAddr, connHandle).0)
  {
    match command {
      case ConnectionRequest(h, psm, src) => ConnectionRequestEffect(p, h, psm, src, remoteAddr, connHandle);
      case DisconnectionRequest(h, dst, src) =>
        var removed := DisconnectionRequestEffect(p, h, dst, src, connHandle);
      case ConfigurationRequest(_, _, _, _) =>
      case Unknown(_, _) =>
      case _ => CoherentAfterResponse(p, command, remoteAddr, connHandle);
    }
  }

  lemma WaitingOk(m: map<u16, L2capChannel>, cid: u16, psm: u16, remoteAddr: Address, connHandle: u16)
    requires ChannelsOk(m) && DYNAMIC_START <= cid
    ensures ChannelsOk(m[cid := Waiting(cid, psm, remoteAddr, connHandle)])
  {
    assert ChannelOk(cid, Waiting(cid, psm, remoteAddr, connHandle));
  }

  lemma CoherentAfterConnect(p: Proc, psm: u16, remoteAddr: Address, connHandle: u16)
    requires Coherent(p)
    ensures Coherent(Connect(p, psm, remoteAddr, connHandle).0)
  {
    ConnectEffect(p, psm, remoteAddr, connHandle);
    WaitingOk(Chans(p), AllocatedCid(p.manager), psm, remoteAddr, connHandle);
  }

  lemma CoherentAfterConfigure(p: Proc, cid: u16, options: ConfigurationOptions)
    requires Coherent(p)
    ensures Coherent(ConfigureChannel(p, cid, options).0)
  {
    ConfigureEffect(p, cid, options);
  }

  lemma CoherentAfterDisconnect(p: Proc, cid: u16)
    requires Coherent(p)
    ensures Coherent(Disconnect(p, cid).0)
  {
    DisconnectEffect(p, cid);
  }

  lemma CoherentStep(p: Proc, op: Op)
    requires Coherent(p)
    ensures Coherent(Apply(p, op))
  {
    match op {
      case OpConnect(psm, addr, h) => CoherentAfterConnect(p, psm, addr, h);
      case OpConfigure(cid, options) => CoherentAfterConfigure(p, cid, options);
      case OpDisconnect(cid) => CoherentAfterDisconnect(p, cid);
      case OpReceive(command, addr, h) => CoherentAfterReceive(p, command, addr, h);
    }
  }

  ghost predicate NoneOpen(m: map<u16, L2capChannel>) {
    forall cid :: cid in m ==> !m[cid].state.Open?
  }

  lemma CoherentNoneOpen(m: map<u16, L2capChannel>)
    requires ChannelsOk(m)
    ensures NoneOpen(m)
  {
    forall cid | cid in m ensures !m[cid].state.Open? {
      assert ChannelOk(cid, m[cid]);
    }
  }

  /**
   Over every run, each key is its channel's dynamic local CID, the state agrees
   with the remote CID, every pending request names a local CID and one of the
   three request codes; and no channel is ever open, since no operation advances
   the remote configuration.
   */
  lemma {:induction false} RunsStayCoherent(p: Proc, ops: seq<Op>)
    requires Coherent(p)
    ensures Coherent(Run(p, ops)) && NoneOpen(Chans(Run(p, ops)))
    decreases |ops|
  {
    if ops == [] {
      CoherentNoneOpen(Chans(p));
    } else {
      CoherentStep(p, ops[0]);
      RunsStayCoherent(Apply(p, ops[0]), ops[1..]);
    }
  }
}
