/** When the `in_use` flag of an endpoint tells whether a live stream uses it. */
module A2dpEndpoints {
  import opened Wrappers
  import opened Words
  import opened IndexMap
  import opened A2dp
  import opened A2dpRuns

  /** Endpoints are numbered from 1 in order, so an identifier finds one endpoint. */
  ghost predicate Numbered(p: Profile) {
    && |p.avdtp.endpoints| <= MAX_STREAM_ENDPOINTS
    && (|p.avdtp.endpoints| < MAX_STREAM_ENDPOINTS ==> p.nextSeid == |p.avdtp.endpoints| + 1)
    && forall i :: 0 <= i < |p.avdtp.endpoints| ==> p.avdtp.endpoints[i].seid == i + 1
  }

  lemma InsertKeepsEndpoints(a: Avdtp, localSeid: u8, remoteSeid: u8, addr: Address, connHandle: u16)
    ensures CreateAvdtpStream(a, localSeid, remoteSeid, addr, connHandle).1.endpoints == a.endpoints
  {
  }

  lemma AttachKeepsEndpoints(p: Profile, addr: Address, handle: u16, codec: Codec)
    requires Has(p.connections, addr)
    ensures AttachStream(p, addr, handle, codec).1.avdtp.endpoints == p.avdtp.endpoints
    ensures AttachStream(p, addr, handle, codec).1.nextSeid == p.nextSeid
  {
  }

  lemma CreateKeepsIdentifiers(p: Profile, addr: Address, localSeid: u8, remoteSeid: u8, codec: Codec)
    requires Numbered(p)
    ensures Numbered(CreateStream(p, addr, localSeid, remoteSeid, codec).1)
  {
    var at := FindEndpoint(p.avdtp.endpoints, localSeid);
    if Has(p.connections, addr) && at < |p.avdtp.endpoints| && Offers(p.avdtp.endpoints[at], codec) {
      ConfigureExactly(p.avdtp.endpoints[at], codec);
      var a, connHandle := Prepared(p, localSeid, codec), Get(p.connections, addr).connHandle;
      InsertKeepsEndpoints(a, localSeid, remoteSeid, addr, connHandle);
      var (r, created) := CreateAvdtpStream(a, localSeid, remoteSeid, addr, connHandle);
      if r.Ok? {
        AttachKeepsEndpoints(p.(avdtp := created), addr, r.value, codec);
      }
    } else if at < |p.avdtp.endpoints| {
      ConfigureExactly(p.avdtp.endpoints[at], codec);
    }
  }

  lemma CloseKeepsIdentifiers(p: Profile, h: u16)
    requires Numbered(p)
    ensures Numbered(CloseStream(p, h).1)
  {
  }

  lemma StepStaysNumbered(p: Profile, role: Role, op: Op)
    requires Numbered(p)
    ensures Numbered(Apply(p, role, op))
  {
    match op {
      case Open(addr, localSeid, remoteSeid, codec) => CreateKeepsIdentifiers(p, addr, localSeid, remoteSeid, codec);
      case Close(handle) => CloseKeepsIdentifiers(p, handle);
      case _ =>
    }
  }

  lemma {:induction false} EndpointsStayNumbered(p: Profile, role: Role, ops: seq<Op>)
    requires Numbered(p)
    ensures Numbered(Run(p, role, ops))
    decreases |ops|
  {
    if ops != [] {
      StepStaysNumbered(p, role, ops[0]);
      EndpointsStayNumbered(Apply(p, role, ops[0]), role, ops[1..]);
    }
  }

  // ----- The tie between flags and streams -----

  ghost predicate Names(streams: StreamMap, seid: u8) {
    exists h :: h in streams && streams[h].localSeid == seid
  }

  ghost predicate Offered(eps: Endpoints, seid: u8) {
    exists i :: 0 <= i < |eps| && eps[i].seid == seid
  }

  /** An endpoint is in use exactly when a live stream names it, and every live stream names an endpoint. */
  ghost predicate TiedBy(eps: Endpoints, streams: StreamMap) {
    && (forall i :: 0 <= i < |eps| ==> (eps[i].inUse <==> Names(streams, eps[i].seid)))
    && forall h :: h in streams ==> Offered(eps, streams[h].localSeid)
  }

  ghost predicate Tied(p: Profile) {
    TiedBy(p.avdtp.endpoints, AsMap(p.avdtp.streams))
  }

  /** Another live stream names the endpoint of stream h. */
  ghost predicate Shared(streams: StreamMap, h: u16)
    requires h in streams
  {
    exists g :: g in streams && g != h && streams[g].localSeid == streams[h].localSeid
  }

  /** Every stream towards addr shares its endpoint with a stream towards another address. */
  ghost predicate SharedElsewhere(streams: StreamMap, addr: Address) {
    forall h :: h in streams && streams[h].remoteAddr == addr ==>
                  exists g :: g in streams && streams[g].remoteAddr != addr
                    && streams[g].localSeid == streams[h].localSeid
  }

  /** What keeps the flags right, checked before the operation. */
  ghost predicate KeepsTie(p: Profile, op: Op) {
    var streams := AsMap(p.avdtp.streams);
    match op
    case Disconnect(addr) => SharedElsewhere(streams, addr)
    case Close(handle) => handle in streams ==> !Shared(streams, handle)
    case Open(addr, localSeid, _, codec) =>
      Creatable(p, addr, localSeid, codec) ==>
        && (Full(p) ==> p.avdtp.endpoints[FindEndpoint(p.avdtp.endpoints, localSeid)].inUse)
        && (p.avdtp.nextHandle in streams ==>
              streams[p.avdtp.nextHandle].localSeid == localSeid || Shared(streams, p.avdtp.nextHandle))
    case _ => true
  }

  lemma EndpointAt(p: Profile, seid: u8)
    requires Numbered(p)
    ensures FindEndpoint(p.avdtp.endpoints, seid)
            == if 1 <= seid <= |p.avdtp.endpoints| then seid - 1 else |p.avdtp.endpoints|
  {
    FoundAt(p.avdtp.endpoints, 1, seid);
  }

  lemma {:induction false} FoundAt(eps: Endpoints, first: nat, seid: u8)
    requires forall i :: 0 <= i < |eps| ==> eps[i].seid == first + i
    ensures FindEndpoint(eps, seid) == if first <= seid < first + |eps| then seid - first else |eps|
    decreases |eps|
  {
    if eps != [] {
      FoundAt(eps[1..], first + 1, seid);
    }
  }

  // ----- On endpoints and the stream map -----

  lemma RemovalTied(eps: Endpoints, streams: StreamMap, less: StreamMap, addr: Address)
    requires TiedBy(eps, streams)
    requires forall h :: h in less <==> h in streams && streams[h].remoteAddr != addr
    requires forall h :: h in less ==> less[h] == streams[h]
    ensures TiedBy(eps, less) <==> SharedElsewhere(streams, addr)
  {
    if SharedElsewhere(streams, addr) {
      forall i | 0 <= i < |eps| ensures eps[i].inUse <==> Names(less, eps[i].seid) {
        if Names(streams, eps[i].seid) {
          var h :| h in streams && streams[h].localSeid == eps[i].seid;
          assert h in less || exists g :: g in less && less[g].localSeid == eps[i].seid;
        }
      }
    }
    if TiedBy(eps, less) {
      forall h | h in streams && streams[h].remoteAddr == addr
        ensures exists g :: g in streams && streams[g].remoteAddr != addr
                            && streams[g].localSeid == streams[h].localSeid
      {
        var i :| 0 <= i < |eps| && eps[i].seid == streams[h].localSeid;
        assert Names(streams, eps[i].seid);
        var g :| g in less && less[g].localSeid == eps[i].seid;
      }
    }
  }

  ghost predicate DistinctSeids(eps: Endpoints) {
    forall i, j :: 0 <= i < j < |eps| ==> eps[i].seid != eps[j].seid
  }

  lemma CloseTied(eps: Endpoints, streams: StreamMap, h: u16, at: nat)
    requires TiedBy(eps, streams) && DistinctSeids(eps) && h in streams
    requires at < |eps| && eps[at].seid == streams[h].localSeid
    ensures TiedBy(eps[at := eps[at].Reset()], streams - {h}) <==> !Shared(streams, h)
  {
    var after, less := eps[at := eps[at].Reset()], streams - {h};
    if Shared(streams, h) {
      var g :| g in streams && g != h && streams[g].localSeid == streams[h].localSeid;
      assert g in less && less[g].localSeid == after[at].seid;
      assert Names(less, after[at].seid) && !after[at].inUse;
    } else {
      forall i | 0 <= i < |after| ensures after[i].inUse <==> Names(less, after[i].seid) {
        if i != at && Names(streams, eps[i].seid) {
          var g :| g in streams && streams[g].localSeid == eps[i].seid;
          assert g in less;
        }
      }
      forall g | g in less ensures Offered(after, less[g].localSeid) {
        var i :| 0 <= i < |eps| && eps[i].seid == streams[g].localSeid;
        assert after[i].seid == less[g].localSeid;
      }
    }
  }

  /** The endpoint at position `at` goes into use while the streams stay. */
  lemma ConfigureTied(eps: Endpoints, streams: StreamMap, at: nat, ep: StreamEndpoint)
    requires TiedBy(eps, streams) && at < |eps| && ep.seid == eps[at].seid && ep.inUse
    ensures TiedBy(eps[at := ep], streams) <==> eps[at].inUse
  {
    var after := eps[at := ep];
    if eps[at].inUse {
      forall h | h in streams ensures Offered(after, streams[h].localSeid) {
        var i :| 0 <= i < |eps| && eps[i].seid == streams[h].localSeid;
        assert after[i].seid == streams[h].localSeid;
      }
    } else {
      assert after[at].inUse && !Names(streams, after[at].seid);
    }
  }

  /** The stream replaced at h, if there was one, does not leave its endpoint in use without a stream. */
  ghost predicate LeavesTie(streams: StreamMap, h: u16, seid: u8) {
    h in streams ==> streams[h].localSeid == seid || Shared(streams, h)
  }

  /** The endpoint goes into use for a stream stored at h. */
  lemma OpenTied(eps: Endpoints, streams: StreamMap, at: nat, ep: StreamEndpoint, h: u16, s: AvdtpStream)
    requires TiedBy(eps, streams) && DistinctSeids(eps)
    requires at < |eps| && ep.seid == eps[at].seid == s.localSeid && ep.inUse
    ensures TiedBy(eps[at := ep], streams[h := s]) <==> LeavesTie(streams, h, s.localSeid)
  {
    var after, more := eps[at := ep], streams[h := s];
    assert more[h].localSeid == after[at].seid;
    if LeavesTie(streams, h, s.localSeid) {
      forall i | 0 <= i < |after| ensures after[i].inUse <==> Names(more, after[i].seid) {
        if i != at && Names(streams, eps[i].seid) {
          var g :| g in streams && streams[g].localSeid == eps[i].seid;
          var other := if g == h
                       then (var x :| x in streams && x != h && streams[x].localSeid == streams[h].localSeid; x) else g;
          assert other in more && more[other].localSeid == eps[i].seid;
        }
      }
      forall g | g in more ensures Offered(after, more[g].localSeid) {
        if g == h {
          assert after[at].seid == more[g].localSeid;
        } else {
          var i :| 0 <= i < |eps| && eps[i].seid == streams[g].localSeid;
          assert after[i].seid == more[g].localSeid;
        }
      }
    } else {
      var i :| 0 <= i < |eps| && eps[i].seid == streams[h].localSeid;
      assert i != at && after[i] == eps[i];
      assert Names(streams, eps[i].seid);
      assert !Names(more, after[i].seid);
    }
  }

  lemma AddTied(eps: Endpoints, streams: StreamMap, ep: StreamEndpoint)
    requires TiedBy(eps, streams) && !ep.inUse && !Offered(eps, ep.seid)
    ensures TiedBy(eps + [ep], streams)
  {
    var after := eps + [ep];
    forall h | h in streams ensures Offered(after, streams[h].localSeid) && streams[h].localSeid != ep.seid {
      var i :| 0 <= i < |eps| && eps[i].seid == streams[h].localSeid;
      assert after[i].seid == streams[h].localSeid;
    }
  }

  lemma RestateTied(eps: Endpoints, streams: StreamMap, h: u16, s: AvdtpStream)
    requires TiedBy(eps, streams) && h in streams && s.localSeid == streams[h].localSeid
    ensures TiedBy(eps, streams[h := s])
  {
    var after := streams[h := s];
    forall seid ensures Names(after, seid) <==> Names(streams, seid) {
      if Names(streams, seid) {
        var g :| g in streams && streams[g].localSeid == seid;
        assert g in after && after[g].localSeid == seid;
      }
      if Names(after, seid) {
        var g :| g in after && after[g].localSeid == seid;
        assert g in streams && streams[g].localSeid == seid;
      }
    }
  }

  // ----- Per operation -----

  lemma NumberedSeids(p: Profile)
    requires Numbered(p)
    ensures DistinctSeids(p.avdtp.endpoints)
    ensures |p.avdtp.endpoints| < MAX_STREAM_ENDPOINTS ==> !Offered(p.avdtp.endpoints, p.nextSeid)
  {
  }

  /**
   Removing a connection keeps the flags right exactly when each of its streams
   shares its endpoint with one elsewhere.
   */
  lemma DisconnectTiedExactly(p: Profile, addr: Address)
    requires Sound(p) && Tied(p)
    ensures Tied(RemoveConnection(p, addr).1) <==> SharedElsewhere(AsMap(p.avdtp.streams), addr)
  {
    var conns, streams := AsMap(p.connections), AsMap(p.avdtp.streams);
    var after := RemoveConnection(p, addr).1;
    DisconnectSound(p, addr);
    if addr in conns {
      DisconnectKeepsStreams(p, addr);
      RemovalTied(p.avdtp.endpoints, streams, AsMap(after.avdtp.streams), addr);
    } else {
      forall h | h in streams ensures streams[h].remoteAddr != addr {
        assert Listed(conns, streams[h].remoteAddr, h);
      }
    }
  }

  lemma DisconnectKeepsStreams(p: Profile, addr: Address)
    requires Sound(p) && addr in AsMap(p.connections)
    ensures var after := RemoveConnection(p, addr).1;
            && after.avdtp.endpoints == p.avdtp.endpoints
            && forall h :: h in AsMap(after.avdtp.streams) ==>
                 h in AsMap(p.avdtp.streams) && AsMap(after.avdtp.streams)[h] == AsMap(p.avdtp.streams)[h]
  {
    HasIsIn(p.connections, addr);
    RemoveAllAsMap(p.avdtp.streams, AsMap(p.connections)[addr].streams);
  }

  /** Closing a live stream keeps the flags right exactly when no other live stream uses its endpoint. */
  lemma CloseTiedExactly(p: Profile, h: u16)
    requires Sound(p) && Numbered(p) && Tied(p) && h in AsMap(p.avdtp.streams)
    ensures Tied(CloseStream(p, h).1) <==> !Shared(AsMap(p.avdtp.streams), h)
  {
    var streams := AsMap(p.avdtp.streams);
    var seid := streams[h].localSeid;
    CloseSound(p, h);
    NumberedSeids(p);
    EndpointAt(p, seid);
    assert Offered(p.avdtp.endpoints, seid);
    HasIsIn(p.avdtp.streams, h);
    CloseTied(p.avdtp.endpoints, streams, h, FindEndpoint(p.avdtp.endpoints, seid));
  }

  /**
   Creating a stream keeps the flags right exactly unless it is refused for want of
   room with its endpoint unused so far, or replaces a live stream that was alone
   on another endpoint.
   */
  lemma OpenTiedExactly(p: Profile, addr: Address, localSeid: u8, remoteSeid: u8, codec: Codec)
    requires Sound(p) && Numbered(p) && Tied(p)
    ensures Tied(CreateStream(p, addr, localSeid, remoteSeid, codec).1)
            <==> KeepsTie(p, Open(addr, localSeid, remoteSeid, codec))
  {
    if Creatable(p, addr, localSeid, codec) {
      var eps, streams, h := p.avdtp.endpoints, AsMap(p.avdtp.streams), p.avdtp.nextHandle;
      var at := FindEndpoint(eps, localSeid);
      var ep := UsedWith(eps[at], codec);
      CreateEffect(p, addr, localSeid, remoteSeid, codec);
      CreatedEndpoints(p, addr, localSeid, remoteSeid, codec);
      NumberedSeids(p);
      if Full(p) {
        ConfigureTied(eps, streams, at, ep);
      } else {
        OpenTied(eps, streams, at, ep, h,
                 NewStream(h, localSeid, remoteSeid, addr, AsMap(p.connections)[addr].connHandle, codec));
      }
    } else {
      NotCreatable(p, addr, localSeid, remoteSeid, codec);
    }
  }

  lemma StartTied(p: Profile, h: u16)
    requires Sound(p) && Tied(p)
    ensures Tied(StartStream(p, h).1) && Tied(SuspendStream(p, h).1)
  {
    var streams := AsMap(p.avdtp.streams);
    StartSound(p, h);
    SuspendSound(p, h);
    if h in streams {
      RestateTied(p.avdtp.endpoints, streams, h, streams[h].(state := Streaming));
      RestateTied(p.avdtp.endpoints, streams, h, streams[h].(state := Suspended));
    }
  }

  lemma AddEndpointTied(p: Profile, role: Role, parameters: seq<u8>)
    requires Numbered(p) && Tied(p)
    ensures Tied(AddSbcEndpoint(p, role, parameters).1)
  {
    NumberedSeids(p);
    if |p.avdtp.endpoints| < MAX_STREAM_ENDPOINTS {
      AddTied(p.avdtp.endpoints, AsMap(p.avdtp.streams),
              StreamEndpoint(p.nextSeid, role, false, [Sbc(parameters)], None));
    }
  }

  lemma ConnectTied(p: Profile, addr: Address, cid: u16, connHandle: u16)
    requires Sound(p) && Tied(p)
    ensures Tied(CreateConnection(p, addr, cid, connHandle).1)
  {
    ConnectSound(p, addr, cid, connHandle);
  }

  lemma CloseGuard(p: Profile, h: u16)
    ensures KeepsTie(p, Close(h)) <==> (h in AsMap(p.avdtp.streams) ==> !Shared(AsMap(p.avdtp.streams), h))
  {
  }

  lemma CloseNothing(p: Profile, h: u16)
    requires Sound(p) && Tied(p) && h !in AsMap(p.avdtp.streams)
    ensures Tied(CloseStream(p, h).1)
  {
    CloseSound(p, h);
  }

  lemma CloseAnyTied(p: Profile, h: u16)
    requires Sound(p) && Numbered(p) && Tied(p)
    ensures Tied(CloseStream(p, h).1) <==> KeepsTie(p, Close(h))
  {
    CloseGuard(p, h);
    if h in AsMap(p.avdtp.streams) {
      CloseTiedExactly(p, h);
    } else {
      CloseNothing(p, h);
    }
  }

  /** One operation keeps the flags right exactly when its guard holds. */
  lemma StepTiedExactly(p: Profile, role: Role, op: Op)
    requires Sound(p) && Numbered(p) && Tied(p)
    ensures Tied(Apply(p, role, op)) <==> KeepsTie(p, op)
  {
    match op {
      case AddEndpoint(parameters) => AddEndpointTied(p, role, parameters);
      case Connect(addr, cid, connHandle) => ConnectTied(p, addr, cid, connHandle);
      case Disconnect(addr) => DisconnectTiedExactly(p, addr);
      case Open(addr, localSeid, remoteSeid, codec) => OpenTiedExactly(p, addr, localSeid, remoteSeid, codec);
      case Start(handle) => StartTied(p, handle);
      case Suspend(handle) => StartTied(p, handle);
      case Close(handle) => CloseAnyTied(p, handle);
    }
  }

  // ----- What the endpoints look like afterwards -----

  /**
   A new endpoint goes to the end of the list, unused, for SBC only; an identifier is
   drawn even when there is no room.
   */
  lemma EndpointAdded(p: Profile, role: Role, parameters: seq<u8>)
    ensures var (r, after) := AddSbcEndpoint(p, role, parameters);
            && r == (if |p.avdtp.endpoints| < 4 then Ok(p.nextSeid) else Err(ConfigurationFailed))
            && after.nextSeid == (if p.nextSeid == 255 then 0 else p.nextSeid + 1)
            && after.connections == p.connections && after.avdtp.streams == p.avdtp.streams
            && after.avdtp.nextHandle == p.avdtp.nextHandle
            && after.avdtp.endpoints
               == if r.Ok? then p.avdtp.endpoints + [StreamEndpoint(p.nextSeid, role, false, [Sbc(parameters)], None)]
                  else p.avdtp.endpoints
  {
  }

  /** Resetting `at` changes that endpoint only: it is no longer in use and has no codec. */
  ghost predicate Resets(eps: Endpoints, after: Endpoints, at: nat)
    requires at < |eps|
  {
    && |after| == |eps|
    && !after[at].inUse && after[at].configuration == None
    && after[at].seid == eps[at].seid && after[at].role == eps[at].role
    && after[at].capabilities == eps[at].capabilities
    && forall j :: 0 <= j < |eps| && j != at ==> after[j] == eps[j]
  }

  /** Closing a live stream resets the first endpoint with the stream's local identifier. */
  lemma CloseResets(p: Profile, h: u16, at: nat)
    requires Sound(p) && h in AsMap(p.avdtp.streams)
    requires FirstWith(p.avdtp.endpoints, AsMap(p.avdtp.streams)[h].localSeid, at)
    ensures Resets(p.avdtp.endpoints, CloseStream(p, h).1.avdtp.endpoints, at)
  {
    CloseEndpoints(p, h);
    FindsFirst(p.avdtp.endpoints, AsMap(p.avdtp.streams)[h].localSeid, at);
  }

  // ----- Over runs -----

  ghost predicate TieRun(p: Profile, role: Role, ops: seq<Op>)
    decreases |ops|
  {
    ops != [] ==> KeepsTie(p, ops[0]) && TieRun(Apply(p, role, ops[0]), role, ops[1..])
  }

  /** The flags are right in every state of the run. */
  ghost predicate AlwaysTied(p: Profile, role: Role, ops: seq<Op>)
    decreases |ops|
  {
    Tied(p) && (ops != [] ==> AlwaysTied(Apply(p, role, ops[0]), role, ops[1..]))
  }

  /**
   Over every run in which handles do not wrap onto live ones, the flags stay right
   exactly as long as the guards hold.
   */
  lemma {:induction false} RunsStayTiedExactly(p: Profile, role: Role, ops: seq<Op>)
    requires Sound(p) && Numbered(p) && Tied(p) && TimelyRun(p, role, ops)
    ensures AlwaysTied(p, role, ops) <==> TieRun(p, role, ops)
    decreases |ops|
  {
    if ops != [] {
      var q := Apply(p, role, ops[0]);
      StepTiedExactly(p, role, ops[0]);
      StepSoundExactly(p, role, ops[0]);
      StepStaysNumbered(p, role, ops[0]);
      if Tied(q) {
        RunsStayTiedExactly(q, role, ops[1..]);
      }
    }
  }

  lemma StartTiedAndSound()
    ensures Sound(EMPTY) && Numbered(EMPTY) && Tied(EMPTY)
  {
  }

  // ----- Runs that break the tie -----

  const CODEC := Sbc([])

  /** The streams 1 to n, all on endpoint 1 and towards addr. */
  ghost predicate FirstStreams(streams: StreamMap, addr: Address, n: nat) {
    && |streams| == n && (forall h: u16 :: h in streams <==> 1 <= h <= n)
    && forall h :: h in streams ==> streams[h].localSeid == 1 && streams[h].remoteAddr == addr
  }

  /** One endpoint for the codec, in use or not. */
  ghost predicate OneEndpoint(eps: Endpoints, used: bool) {
    |eps| == 1 && eps[0].seid == 1 && eps[0].capabilities == [CODEC] && eps[0].inUse == used
  }

  /** A profile with one endpoint and one connection, after n streams were opened between them. */
  ghost predicate Opened(p: Profile, addr: Address, n: nat) {
    && Sound(p) && Numbered(p) && OneEndpoint(p.avdtp.endpoints, n > 0)
    && addr in AsMap(p.connections) && p.avdtp.nextHandle == n + 1 && FirstStreams(AsMap(p.avdtp.streams), addr, n)
  }

  lemma OpenNone(role: Role, addr: Address)
    ensures Opened(Apply(Apply(EMPTY, role, AddEndpoint([])), role, Connect(addr, 0x40, 1)), addr, 0)
  {
    var p := Apply(EMPTY, role, AddEndpoint([]));
    assert Sound(p);
    ConnectSound(p, addr, 0x40, 1);
    StepStaysNumbered(p, role, Connect(addr, 0x40, 1));
  }

  lemma OneEndpointServes(p: Profile, addr: Address, used: bool)
    requires Numbered(p) && OneEndpoint(p.avdtp.endpoints, used) && addr in AsMap(p.connections)
    ensures Creatable(p, addr, 1, CODEC) && OneEndpoint(Prepared(p, 1, CODEC).endpoints, true)
  {
    EndpointAt(p, 1);
    assert SameType(p.avdtp.endpoints[0].capabilities[0], CODEC);
  }

  lemma FirstStreamsMore(streams: StreamMap, addr: Address, n: nat, s: AvdtpStream)
    requires FirstStreams(streams, addr, n) && n + 1 < 0x1_0000 && s.localSeid == 1 && s.remoteAddr == addr
    ensures FirstStreams(streams[n + 1 := s], addr, n + 1)
  {
  }

  lemma NotFull(p: Profile, addr: Address, n: nat)
    requires Sound(p) && FirstStreams(AsMap(p.avdtp.streams), addr, n) && n < MAX_ACTIVE_STREAMS
    ensures !Full(p)
  {
    AsMapSize(p.avdtp.streams);
  }

  lemma NoWrap(h: u16)
    requires h < 0xFFFF
    ensures NextHandle(h) == h + 1
  {
  }

  lemma MoreStreams(p: Profile, addr: Address, n: nat)
    requires Sound(p) && Creatable(p, addr, 1, CODEC) && FirstStreams(AsMap(p.avdtp.streams), addr, n)
    requires p.avdtp.nextHandle == n + 1 && n < MAX_ACTIVE_STREAMS
    ensures var after := CreateStream(p, addr, 1, 2, CODEC).1;
            && FirstStreams(AsMap(after.avdtp.streams), addr, n + 1)
            && after.avdtp.nextHandle == n + 2 && addr in AsMap(after.connections)
  {
    NotFull(p, addr, n);
    NoWrap(p.avdtp.nextHandle);
    CreateEffect(p, addr, 1, 2, CODEC);
    FirstStreamsMore(AsMap(p.avdtp.streams), addr, n,
                     NewStream(n + 1, 1, 2, addr, AsMap(p.connections)[addr].connHandle, CODEC));
  }

  lemma UsedEndpoint(p: Profile, addr: Address, used: bool)
    requires Sound(p) && Numbered(p) && OneEndpoint(p.avdtp.endpoints, used) && addr in AsMap(p.connections)
    ensures OneEndpoint(CreateStream(p, addr, 1, 2, CODEC).1.avdtp.endpoints, true)
  {
    OneEndpointServes(p, addr, used);
    CreatedEndpoints(p, addr, 1, 2, CODEC);
  }

  lemma MoreIsSound(p: Profile, addr: Address, n: nat)
    requires Sound(p) && Numbered(p) && FirstStreams(AsMap(p.avdtp.streams), addr, n) && p.avdtp.nextHandle == n + 1
    ensures var after := CreateStream(p, addr, 1, 2, CODEC).1; Sound(after) && Numbered(after)
  {
    CreateSoundExactly(p, addr, 1, 2, CODEC);
    CreateKeepsIdentifiers(p, addr, 1, 2, CODEC);
  }

  lemma OpenedFrom(q: Profile, addr: Address, n: nat)
    requires Sound(q) && Numbered(q) && OneEndpoint(q.avdtp.endpoints, true) && n > 0
    requires addr in AsMap(q.connections) && q.avdtp.nextHandle == n + 1
    requires FirstStreams(AsMap(q.avdtp.streams), addr, n)
    ensures Opened(q, addr, n)
  {
  }

  lemma OpenCreates(p: Profile, role: Role, addr: Address, q: Profile)
    requires q == Apply(p, role, Open(addr, 1, 2, CODEC))
    ensures q == CreateStream(p, addr, 1, 2, CODEC).1
  {
  }

  lemma OpenOne(p: Profile, role: Role, addr: Address, n: nat, q: Profile)
    requires Opened(p, addr, n) && n < MAX_ACTIVE_STREAMS && q == Apply(p, role, Open(addr, 1, 2, CODEC))
    ensures Opened(q, addr, n + 1)
  {
    OpenCreates(p, role, addr, q);
    OneEndpointServes(p, addr, n > 0);
    MoreStreams(p, addr, n);
    UsedEndpoint(p, addr, n > 0);
    MoreIsSound(p, addr, n);
    OpenedFrom(q, addr, n + 1);
  }

  lemma {:induction false} RunAppend(p: Profile, role: Role, ops: seq<Op>, op: Op)
    ensures Run(p, role, ops + [op]) == Apply(Run(p, role, ops), role, op)
    decreases |ops|
  {
    var all := ops + [op];
    if ops == [] {
      assert all[0] == op && all[1..] == [];
      assert Run(Apply(p, role, op), role, []) == Apply(p, role, op);
    } else {
      assert all[0] == ops[0] && all[1..] == ops[1..] + [op];
      RunAppend(Apply(p, role, ops[0]), role, ops[1..], op);
    }
  }

  lemma OpenRun(role: Role, addr: Address, n: nat) returns (ops: seq<Op>)
    requires n <= MAX_ACTIVE_STREAMS
    ensures Opened(Run(EMPTY, role, ops), addr, n)
    decreases n
  {
    if n == 0 {
      ops := [] + [AddEndpoint([])] + [Connect(addr, 0x40, 1)];
      RunAppend(EMPTY, role, [], AddEndpoint([]));
      RunAppend(EMPTY, role, [] + [AddEndpoint([])], Connect(addr, 0x40, 1));
      OpenNone(role, addr);
    } else {
      var before := OpenRun(role, addr, n - 1);
      ops := before + [Open(addr, 1, 2, CODEC)];
      RunAppend(EMPTY, role, before, Open(addr, 1, 2, CODEC));
      OpenOne(Run(EMPTY, role, before), role, addr, n - 1, Run(EMPTY, role, ops));
    }
  }

  /** A run after which an endpoint is in use although no stream is live: its connection was removed. */
  lemma InUseWithoutStream(role: Role, addr: Address) returns (ops: seq<Op>)
    ensures var p := Run(EMPTY, role, ops);
            AsMap(p.avdtp.streams) == map[] && |p.avdtp.endpoints| == 1 && p.avdtp.endpoints[0].inUse
  {
    var before := OpenRun(role, addr, 1);
    var p := Run(EMPTY, role, before);
    ops := before + [Disconnect(addr)];
    RunAppend(EMPTY, role, before, Disconnect(addr));
    DisconnectSound(p, addr);
    DisconnectKeepsStreams(p, addr);
  }

  lemma CloseEndpoints(p: Profile, h: u16)
    requires Sound(p) && h in AsMap(p.avdtp.streams)
    ensures CloseStream(p, h).1.avdtp.endpoints == ResetEndpoint(p.avdtp.endpoints, AsMap(p.avdtp.streams)[h].localSeid)
  {
    HasIsIn(p.avdtp.streams, h);
  }

  /** A run after which a live stream uses an endpoint that is not in use: a second stream on it was closed. */
  lemma StreamWithoutInUse(role: Role, addr: Address) returns (ops: seq<Op>)
    ensures var p := Run(EMPTY, role, ops);
            && 2 in AsMap(p.avdtp.streams) && |p.avdtp.endpoints| == 1
            && AsMap(p.avdtp.streams)[2].localSeid == p.avdtp.endpoints[0].seid && !p.avdtp.endpoints[0].inUse
  {
    var before := OpenRun(role, addr, 2);
    var p := Run(EMPTY, role, before);
    ops := before + [Close(1)];
    RunAppend(EMPTY, role, before, Close(1));
    CloseSound(p, 1);
    CloseEndpoints(p, 1);
    EndpointAt(p, 1);
  }
}
