/** The stream map and the stream lists stay inverse to each other over every run. */
module A2dpRuns {
  import opened Wrappers
  import opened Words
  import opened IndexMap
  import opened A2dp

  type StreamMap = map<u16, AvdtpStream>
  type ConnectionMap = map<Address, A2dpConnection>

  ghost predicate Once(list: seq<u16>) {
    forall i, j :: 0 <= i < j < |list| ==> list[i] != list[j]
  }

  /** A live stream carries its key and a codec and is configured, streaming or suspended. */
  ghost predicate Live(h: u16, s: AvdtpStream) {
    s.handle == h && s.codec.Some? && (s.state.Configured? || s.state.Streaming? || s.state.Suspended?)
  }

  /** The stream h belongs to the connection a. */
  ghost predicate Listed(conns: ConnectionMap, a: Address, h: u16) {
    a in conns && h in conns[a].streams
  }

  /** Lists and map name the same streams: h is live towards a exactly when a's list holds it, and then once. */
  ghost predicate Linked(conns: ConnectionMap, streams: StreamMap) {
    && (forall a :: a in conns ==> conns[a].remoteAddr == a && Once(conns[a].streams))
    && (forall h :: h in streams ==> Live(h, streams[h]))
    && forall a, h :: Listed(conns, a, h) <==> h in streams && streams[h].remoteAddr == a
  }

  ghost predicate Sound(p: Profile) {
    && Distinct(p.connections) && |p.connections| <= MAX_A2DP_CONNECTIONS
    && Distinct(p.avdtp.streams) && |p.avdtp.streams| <= MAX_ACTIVE_STREAMS
    && Linked(AsMap(p.connections), AsMap(p.avdtp.streams))
  }

  /** In a sound profile a handle is live exactly when it stands once in the list of its stream's connection. */
  lemma LiveExactlyWhenListed(p: Profile, h: u16)
    requires Sound(p)
    ensures var conns, streams := AsMap(p.connections), AsMap(p.avdtp.streams);
            && (h in streams <==> exists a :: a in conns && h in conns[a].streams)
            && (h in streams ==>
                  && streams[h].remoteAddr in conns
                  && exists i :: 0 <= i < |conns[streams[h].remoteAddr].streams|
                                 && conns[streams[h].remoteAddr].streams[i] == h
                                 && forall j :: 0 <= j < |conns[streams[h].remoteAddr].streams| && j != i
                                                ==> conns[streams[h].remoteAddr].streams[j] != h)
            && (forall a :: a in conns && h in conns[a].streams ==> h in streams && streams[h].remoteAddr == a)
  {
    var conns, streams := AsMap(p.connections), AsMap(p.avdtp.streams);
    if h in streams {
      var a := streams[h].remoteAddr;
      assert Listed(conns, a, h);
      var i :| 0 <= i < |conns[a].streams| && conns[a].streams[i] == h;
      assert forall j :: 0 <= j < |conns[a].streams| && j != i ==> conns[a].streams[j] != h;
    }
    forall a | a in conns && h in conns[a].streams ensures h in streams && streams[h].remoteAddr == a {
      assert Listed(conns, a, h);
    }
  }

  // ----- Lists -----

  lemma OnceCons(h: u16, list: seq<u16>)
    requires Once(list) && h !in list
    ensures Once([h] + list)
  {
  }

  lemma {:induction false} WithoutHolds(list: seq<u16>, h: u16)
    requires Once(list)
    ensures Once(Without(list, h))
    ensures forall x :: x in Without(list, h) <==> x in list && x != h
    decreases |list|
  {
    if list != [] {
      assert forall x :: x in list <==> x == list[0] || x in list[1..];
      assert list[0] !in list[1..] && Once(list[1..]);
      if list[0] != h {
        WithoutHolds(list[1..], h);
        OnceCons(list[0], Without(list[1..], h));
      }
    }
  }

  lemma {:induction false} OnceCounts(list: seq<u16>)
    requires Once(list)
    ensures |Elements(list)| == |list|
    decreases |list|
  {
    if list != [] {
      OnceCounts(list[1..]);
      assert Elements(list) == Elements(list[1..]) + {list[0]};
    }
  }

  /** No list is longer than the stream map, so there is always room for the two streams there can be. */
  lemma ListsAreShort(p: Profile, a: Address)
    requires Sound(p) && a in AsMap(p.connections)
    ensures |AsMap(p.connections)[a].streams| <= |p.avdtp.streams|
  {
    var list := AsMap(p.connections)[a].streams;
    forall h | h in list ensures h in AsMap(p.avdtp.streams) {
      assert Listed(AsMap(p.connections), a, h);
    }
    OnceCounts(list);
    AsMapSize(p.avdtp.streams);
    CardinalityOfSubset(Elements(list), AsMap(p.avdtp.streams).Keys);
  }

  // ----- Map steps -----

  ghost function WithStream(conns: ConnectionMap, a: Address, h: u16): ConnectionMap
    requires a in conns
  {
    conns[a := conns[a].(streams := conns[a].streams + [h])]
  }

  ghost function WithoutStream(conns: ConnectionMap, a: Address, h: u16): ConnectionMap
    requires a in conns
  {
    conns[a := conns[a].RemoveStream(h)]
  }

  lemma LinkedCreate(conns: ConnectionMap, streams: StreamMap, a: Address, h: u16, s: AvdtpStream)
    requires Linked(conns, streams) && a in conns && h !in streams && Live(h, s) && s.remoteAddr == a
    ensures Linked(WithStream(conns, a, h), streams[h := s])
  {
    assert !Listed(conns, a, h);
    var after := WithStream(conns, a, h);
    forall b, x ensures Listed(after, b, x) <==> Listed(conns, b, x) || (b == a && x == h) {
    }
  }

  lemma LinkedClose(conns: ConnectionMap, streams: StreamMap, h: u16)
    requires Linked(conns, streams) && h in streams
    ensures streams[h].remoteAddr in conns
    ensures Linked(WithoutStream(conns, streams[h].remoteAddr, h), streams - {h})
  {
    var a := streams[h].remoteAddr;
    assert Listed(conns, a, h);
    WithoutHolds(conns[a].streams, h);
    var after := WithoutStream(conns, a, h);
    forall b, x ensures Listed(after, b, x) <==> Listed(conns, b, x) && x != h {
      assert Listed(conns, b, h) ==> b == a;
    }
  }

  lemma LinkedRestate(conns: ConnectionMap, streams: StreamMap, h: u16, s: AvdtpStream)
    requires Linked(conns, streams) && h in streams && Live(h, s) && s.remoteAddr == streams[h].remoteAddr
    ensures Linked(conns, streams[h := s])
  {
  }

  lemma LinkedConnect(conns: ConnectionMap, streams: StreamMap, a: Address, c: A2dpConnection)
    requires Linked(conns, streams) && a !in conns && c.remoteAddr == a && c.streams == []
    ensures Linked(conns[a := c], streams)
  {
    var after := conns[a := c];
    forall b, x ensures Listed(after, b, x) <==> x in streams && streams[x].remoteAddr == b {
      assert Listed(after, b, x) <==> Listed(conns, b, x);
    }
  }

  lemma LinkedDisconnect(conns: ConnectionMap, streams: StreamMap, a: Address)
    requires Linked(conns, streams) && a in conns
    ensures Linked(conns - {a}, streams - Elements(conns[a].streams))
  {
    forall b, x ensures Listed(conns - {a}, b, x) <==> Listed(conns, b, x) && b != a {
    }
    forall x ensures x in Elements(conns[a].streams) <==> Listed(conns, a, x) {
    }
  }

  // ----- What each operation does to a sound profile -----

  lemma ConnectSound(p: Profile, addr: Address, cid: u16, connHandle: u16)
    requires Sound(p)
    ensures var (r, after) := CreateConnection(p, addr, cid, connHandle);
            && Sound(after) && after.avdtp == p.avdtp && (r.Err? ==> r == Err(ConfigurationFailed) && after == p)
            && (r.Ok? <==> addr !in AsMap(p.connections) && |p.connections| < MAX_A2DP_CONNECTIONS)
            && (r.Ok? ==> AsMap(after.connections)
                          == AsMap(p.connections)[addr := A2dpConnection(addr, cid, connHandle, Connected, [])])
  {
    var c := A2dpConnection(addr, cid, connHandle, Connected, []);
    HasIsIn(p.connections, addr);
    InsertAsMap(p.connections, addr, c, MAX_A2DP_CONNECTIONS);
    if addr !in AsMap(p.connections) {
      LinkedConnect(AsMap(p.connections), AsMap(p.avdtp.streams), addr, c);
    }
  }

  /** Removing a connection removes exactly its streams. */
  lemma DisconnectSound(p: Profile, addr: Address)
    requires Sound(p)
    ensures var (r, after) := RemoveConnection(p, addr);
            && Sound(after) && after.avdtp.nextHandle == p.avdtp.nextHandle
            && r == (if addr in AsMap(p.connections) then Some(AsMap(p.connections)[addr]) else None)
            && (r.None? ==> after == p)
            && (r.Some? ==>
                  && AsMap(after.connections) == AsMap(p.connections) - {addr}
                  && forall h :: h in AsMap(after.avdtp.streams) <==>
                       h in AsMap(p.avdtp.streams) && AsMap(p.avdtp.streams)[h].remoteAddr != addr)
  {
    HasIsIn(p.connections, addr);
    if Has(p.connections, addr) {
      var conns, streams := AsMap(p.connections), AsMap(p.avdtp.streams);
      RemoveAsMap(p.connections, addr);
      RemoveAllAsMap(p.avdtp.streams, conns[addr].streams);
      LinkedDisconnect(conns, streams, addr);
      forall h ensures h in Elements(conns[addr].streams) <==> h in streams && streams[h].remoteAddr == addr {
        assert h in Elements(conns[addr].streams) <==> Listed(conns, addr, h);
      }
    }
  }

  lemma RestateSound(p: Profile, h: u16, s: AvdtpStream)
    requires Sound(p) && Has(p.avdtp.streams, h) && Live(h, s)
    requires s.remoteAddr == Get(p.avdtp.streams, h).remoteAddr
    ensures Sound(p.(avdtp := p.avdtp.(streams := Put(p.avdtp.streams, h, s))))
    ensures AsMap(Put(p.avdtp.streams, h, s)) == AsMap(p.avdtp.streams)[h := s]
  {
    HasIsIn(p.avdtp.streams, h);
    PutAsMap(p.avdtp.streams, h, s);
    LinkedRestate(AsMap(p.connections), AsMap(p.avdtp.streams), h, s);
  }

  lemma StartSound(p: Profile, h: u16)
    requires Sound(p)
    ensures var (r, after) := StartStream(p, h);
            var streams := AsMap(p.avdtp.streams);
            && Sound(after) && after.avdtp.nextHandle == p.avdtp.nextHandle && (r.Err? ==> after == p)
            && r == (if h !in streams then Err(InvalidEndpoint)
                     else if streams[h].state.Streaming? then Err(StreamNotReady) else Ok(()))
            && (r.Ok? ==> AsMap(after.avdtp.streams) == streams[h := streams[h].(state := Streaming)])
  {
    HasIsIn(p.avdtp.streams, h);
    if Has(p.avdtp.streams, h) {
      var s := Get(p.avdtp.streams, h);
      if s.Start().Ok? {
        RestateSound(p, h, s.Start().value);
      }
    }
  }

  lemma SuspendSound(p: Profile, h: u16)
    requires Sound(p)
    ensures var (r, after) := SuspendStream(p, h);
            var streams := AsMap(p.avdtp.streams);
            && Sound(after) && after.avdtp.nextHandle == p.avdtp.nextHandle && (r.Err? ==> after == p)
            && r == (if h !in streams then Err(InvalidEndpoint)
                     else if streams[h].state.Streaming? then Ok(()) else Err(StreamNotReady))
            && (r.Ok? ==> AsMap(after.avdtp.streams) == streams[h := streams[h].(state := Suspended)])
  {
    HasIsIn(p.avdtp.streams, h);
    if Has(p.avdtp.streams, h) {
      var s := Get(p.avdtp.streams, h);
      if s.Suspend().Ok? {
        RestateSound(p, h, s.Suspend().value);
      }
    }
  }

  /** Closing removes the stream from the map and from its connection's list, and from nowhere else. */
  lemma CloseSound(p: Profile, h: u16)
    requires Sound(p)
    ensures var (r, after) := CloseStream(p, h);
            var conns, streams := AsMap(p.connections), AsMap(p.avdtp.streams);
            && Sound(after) && after.avdtp.nextHandle == p.avdtp.nextHandle && (r.Err? ==> after == p)
            && r == (if h in streams then Ok(()) else Err(InvalidEndpoint))
            && (r.Ok? ==>
                  && AsMap(after.avdtp.streams) == streams - {h}
                  && streams[h].remoteAddr in conns
                  && AsMap(after.connections) == WithoutStream(conns, streams[h].remoteAddr, h))
  {
    HasIsIn(p.avdtp.streams, h);
    if Has(p.avdtp.streams, h) {
      var conns, streams := AsMap(p.connections), AsMap(p.avdtp.streams);
      LinkedClose(conns, streams, h);
      var a := streams[h].remoteAddr;
      HasIsIn(p.connections, a);
      PutAsMap(p.connections, a, conns[a].RemoveStream(h));
      RemoveAsMap(p.avdtp.streams, h);
    }
  }

  /** SBC has a constructor of its own; every other codec names its type. */
  predicate SameType(c: Codec, d: Codec) {
    match c
    case Sbc(_) => d.Sbc? || d.kind == SbcType
    case Other(kind, _) => if d.Sbc? then kind == SbcType else kind == d.kind
  }

  /** One of the endpoint's capabilities has the codec's type. */
  ghost predicate Offers(ep: StreamEndpoint, codec: Codec) {
    exists i :: 0 <= i < |ep.capabilities| && SameType(ep.capabilities[i], codec)
  }

  /** The endpoint in use with a codec. */
  function UsedWith(ep: StreamEndpoint, codec: Codec): StreamEndpoint {
    StreamEndpoint(ep.seid, ep.role, true, ep.capabilities, Some(codec))
  }

  lemma ConfigureExactly(ep: StreamEndpoint, codec: Codec)
    ensures ep.Configure(codec) == if Offers(ep, codec) then Ok(UsedWith(ep, codec)) else Err(UnsupportedCodec)
  {
    forall i | 0 <= i < |ep.capabilities|
      ensures ep.capabilities[i].Type() == codec.Type() <==> SameType(ep.capabilities[i], codec)
    {
    }
  }

  /** All the checks before a stream is inserted pass. */
  ghost predicate Creatable(p: Profile, addr: Address, localSeid: u8, codec: Codec) {
    var at := FindEndpoint(p.avdtp.endpoints, localSeid);
    && addr in AsMap(p.connections) && at < |p.avdtp.endpoints|
    && Offers(p.avdtp.endpoints[at], codec)
  }

  function NewStream(h: u16, localSeid: u8, remoteSeid: u8, addr: Address, connHandle: u16, codec: Codec): AvdtpStream {
    AvdtpStream(h, localSeid, remoteSeid, addr, connHandle, Configured, Some(codec))
  }

  lemma FindUnchanged(eps: Endpoints, seid: u8, at: nat, ep: StreamEndpoint)
    requires at < |eps| && ep.seid == eps[at].seid
    ensures FindEndpoint(eps[at := ep], seid) == FindEndpoint(eps, seid)
    decreases |eps|
  {
    if eps[0].seid != seid && at > 0 {
      assert eps[at := ep][1..] == eps[1..][at - 1 := ep];
      FindUnchanged(eps[1..], seid, at - 1, ep);
    } else if eps[0].seid != seid {
      assert eps[at := ep][1..] == eps[1..];
    }
  }

  lemma AttachEffect(p: Profile, addr: Address, h: u16, codec: Codec)
    requires Distinct(p.connections) && Distinct(p.avdtp.streams)
    requires Has(p.connections, addr) && Has(p.avdtp.streams, h)
    requires |AsMap(p.connections)[addr].streams| < MAX_CONNECTION_STREAMS
    ensures h in AsMap(p.avdtp.streams) && addr in AsMap(p.connections)
    ensures var (r, after) := AttachStream(p, addr, h, codec);
            && r == Ok(h) && after.avdtp.nextHandle == p.avdtp.nextHandle
            && Distinct(after.connections) && |after.connections| == |p.connections|
            && Distinct(after.avdtp.streams) && |after.avdtp.streams| == |p.avdtp.streams|
            && AsMap(after.connections) == WithStream(AsMap(p.connections), addr, h)
            && AsMap(after.avdtp.streams) == AsMap(p.avdtp.streams)[h := AsMap(p.avdtp.streams)[h].SetCodec(codec)]
  {
    HasIsIn(p.connections, addr);
    HasIsIn(p.avdtp.streams, h);
    PutAsMap(p.avdtp.streams, h, Get(p.avdtp.streams, h).SetCodec(codec));
    var c := Get(p.connections, addr);
    PutAsMap(p.connections, addr, c.(streams := c.streams + [h]));
  }

  ghost predicate Full(p: Profile) {
    p.avdtp.nextHandle !in AsMap(p.avdtp.streams) && |p.avdtp.streams| == MAX_ACTIVE_STREAMS
  }

  /** Inserting the new stream: a handle is drawn, and a third stream is refused. */
  lemma InsertEffect(a: Avdtp, localSeid: u8, remoteSeid: u8, addr: Address, connHandle: u16)
    requires Distinct(a.streams) && |a.streams| <= MAX_ACTIVE_STREAMS
    requires FindEndpoint(a.endpoints, localSeid) < |a.endpoints|
    ensures var (r, after) := CreateAvdtpStream(a, localSeid, remoteSeid, addr, connHandle);
            var refused := a.nextHandle !in AsMap(a.streams) && |a.streams| == MAX_ACTIVE_STREAMS;
            && after.nextHandle == NextHandle(a.nextHandle) && after.endpoints == a.endpoints
            && r == (if refused then Err(ConfigurationFailed) else Ok(a.nextHandle))
            && (refused ==> after.streams == a.streams)
            && (!refused ==>
                  && Distinct(after.streams) && |after.streams| <= MAX_ACTIVE_STREAMS
                  && Has(after.streams, a.nextHandle)
                  && AsMap(after.streams) == AsMap(a.streams)[a.nextHandle :=
                       AvdtpStream(a.nextHandle, localSeid, remoteSeid, addr, connHandle, Connected, None)])
  {
    var s := AvdtpStream(a.nextHandle, localSeid, remoteSeid, addr, connHandle, Connected, None);
    InsertAsMap(a.streams, a.nextHandle, s, MAX_ACTIVE_STREAMS);
    var (r, after) := CreateAvdtpStream(a, localSeid, remoteSeid, addr, connHandle);
    if r.Ok? {
      HasIsIn(after.streams, a.nextHandle);
    }
  }

  lemma SetTwice(m: StreamMap, h: u16, s: AvdtpStream, t: AvdtpStream)
    ensures m[h := s][h := t] == m[h := t] && m[h := s][h] == s
  {
  }

  /** AVDTP with the local endpoint configured. */
  function Prepared(p: Profile, localSeid: u8, codec: Codec): Avdtp
    requires var at := FindEndpoint(p.avdtp.endpoints, localSeid);
             at < |p.avdtp.endpoints|
  {
    var at := FindEndpoint(p.avdtp.endpoints, localSeid);
    p.avdtp.(endpoints := p.avdtp.endpoints[at := UsedWith(p.avdtp.endpoints[at], codec)])
  }

  /** Past its checks a creation inserts and then attaches. */
  lemma CreateSplits(p: Profile, addr: Address, localSeid: u8, remoteSeid: u8, codec: Codec)
    requires Has(p.connections, addr) && Distinct(p.connections) && Creatable(p, addr, localSeid, codec)
    ensures var a := Prepared(p, localSeid, codec);
            && a.streams == p.avdtp.streams && a.nextHandle == p.avdtp.nextHandle
            && FindEndpoint(a.endpoints, localSeid) < |a.endpoints|
            && var (r, created) := CreateAvdtpStream(a, localSeid, remoteSeid, addr,
                                                     AsMap(p.connections)[addr].connHandle);
            CreateStream(p, addr, localSeid, remoteSeid, codec)
            == match r
               case Err(e) => (Err(e), p.(avdtp := created))
               case Ok(handle) => AttachStream(p.(avdtp := created), addr, handle, codec)
  {
    HasIsIn(p.connections, addr);
    var at := FindEndpoint(p.avdtp.endpoints, localSeid);
    ConfigureExactly(p.avdtp.endpoints[at], codec);
    FindUnchanged(p.avdtp.endpoints, localSeid, at, UsedWith(p.avdtp.endpoints[at], codec));
  }

  /**
   A creation that passes its checks draws a handle, and either is refused for want
   of room or lists the stream it stores.
   */
  lemma CreateEffect(p: Profile, addr: Address, localSeid: u8, remoteSeid: u8, codec: Codec)
    requires Sound(p) && Creatable(p, addr, localSeid, codec)
    ensures var (r, after) := CreateStream(p, addr, localSeid, remoteSeid, codec);
            var conns, streams, h := AsMap(p.connections), AsMap(p.avdtp.streams), p.avdtp.nextHandle;
            && after.avdtp.nextHandle == NextHandle(h)
            && (Full(p) ==> r == Err(ConfigurationFailed)
                            && after.connections == p.connections && after.avdtp.streams == p.avdtp.streams)
            && (!Full(p) ==>
                  && r == Ok(h)
                  && Distinct(after.connections) && |after.connections| <= MAX_A2DP_CONNECTIONS
                  && Distinct(after.avdtp.streams) && |after.avdtp.streams| <= MAX_ACTIVE_STREAMS
                  && AsMap(after.connections) == WithStream(conns, addr, h)
                  && AsMap(after.avdtp.streams)
                     == streams[h := NewStream(h, localSeid, remoteSeid, addr, conns[addr].connHandle, codec)])
  {
    HasIsIn(p.connections, addr);
    ListsAreShort(p, addr);
    CreateSplits(p, addr, localSeid, remoteSeid, codec);
    var a := Prepared(p, localSeid, codec);
    var connHandle := AsMap(p.connections)[addr].connHandle;
    InsertEffect(a, localSeid, remoteSeid, addr, connHandle);
    var (r, created) := CreateAvdtpStream(a, localSeid, remoteSeid, addr, connHandle);
    if r.Ok? {
      AttachEffect(p.(avdtp := created), addr, r.value, codec);
      var inserted := AvdtpStream(p.avdtp.nextHandle, localSeid, remoteSeid, addr, connHandle, Connected, None);
      SetTwice(AsMap(p.avdtp.streams), p.avdtp.nextHandle, inserted, inserted.SetCodec(codec));
    }
  }

  lemma NotCreatable(p: Profile, addr: Address, localSeid: u8, remoteSeid: u8, codec: Codec)
    requires Sound(p) && !Creatable(p, addr, localSeid, codec)
    ensures CreateStream(p, addr, localSeid, remoteSeid, codec).0.Err?
    ensures CreateStream(p, addr, localSeid, remoteSeid, codec).1 == p
  {
    HasIsIn(p.connections, addr);
    var at := FindEndpoint(p.avdtp.endpoints, localSeid);
    if at < |p.avdtp.endpoints| {
      ConfigureExactly(p.avdtp.endpoints[at], codec);
    }
  }

  /** Position `at` holds the first endpoint with this identifier. */
  ghost predicate FirstWith(eps: Endpoints, seid: u8, at: nat) {
    at < |eps| && eps[at].seid == seid && forall j :: 0 <= j < at ==> eps[j].seid != seid
  }

  lemma {:induction false} FindsFirst(eps: Endpoints, seid: u8, at: nat)
    requires FirstWith(eps, seid, at)
    ensures FindEndpoint(eps, seid) == at
  {
    if at > 0 {
      FindsFirst(eps[1..], seid, at - 1);
    }
  }

  /** Configuring `at` changes that endpoint only, and only its flag and its codec. */
  ghost predicate PutsToUse(eps: Endpoints, after: Endpoints, at: nat, codec: Codec)
    requires at < |eps|
  {
    && |after| == |eps|
    && after[at].inUse && after[at].configuration == Some(codec)
    && after[at].seid == eps[at].seid && after[at].role == eps[at].role
    && after[at].capabilities == eps[at].capabilities
    && forall j :: 0 <= j < |eps| && j != at ==> after[j] == eps[j]
  }

  /**
   A creation for a known address and endpoint is refused for its codec, changing
   nothing, if and only if no capability of the endpoint has the codec's type; in
   every other case it leaves the endpoint in use with the codec, also when it fails.
   */
  lemma CodecIsChecked(p: Profile, addr: Address, localSeid: u8, remoteSeid: u8, codec: Codec, at: nat)
    requires Sound(p) && addr in AsMap(p.connections) && FirstWith(p.avdtp.endpoints, localSeid, at)
    ensures var (r, after) := CreateStream(p, addr, localSeid, remoteSeid, codec);
            var offered := exists c :: c in p.avdtp.endpoints[at].capabilities && SameType(c, codec);
            && (r == Err(UnsupportedCodec) <==> !offered)
            && (!offered ==> after == p)
            && (offered ==> PutsToUse(p.avdtp.endpoints, after.avdtp.endpoints, at, codec))
  {
    var ep := p.avdtp.endpoints[at];
    FindsFirst(p.avdtp.endpoints, localSeid, at);
    HasIsIn(p.connections, addr);
    ConfigureExactly(ep, codec);
    if Offers(ep, codec) {
      CreateEffect(p, addr, localSeid, remoteSeid, codec);
      CreatedEndpoints(p, addr, localSeid, remoteSeid, codec);
    }
  }

  lemma CreatedEndpoints(p: Profile, addr: Address, localSeid: u8, remoteSeid: u8, codec: Codec)
    requires Sound(p) && Creatable(p, addr, localSeid, codec)
    ensures CreateStream(p, addr, localSeid, remoteSeid, codec).1.avdtp.endpoints
            == Prepared(p, localSeid, codec).endpoints
  {
    HasIsIn(p.connections, addr);
    CreateSplits(p, addr, localSeid, remoteSeid, codec);
  }

  /** An unknown address and an unknown endpoint are refused in this order, and change nothing. */
  lemma UnknownsAreRefused(p: Profile, addr: Address, localSeid: u8, remoteSeid: u8, codec: Codec)
    requires Sound(p)
    ensures var created := CreateStream(p, addr, localSeid, remoteSeid, codec);
            && (addr !in AsMap(p.connections) ==> created == (Err(L2capError), p))
            && (addr in AsMap(p.connections) && (forall ep :: ep in p.avdtp.endpoints ==> ep.seid != localSeid) ==>
                  created == (Err(InvalidEndpoint), p))
  {
    HasIsIn(p.connections, addr);
  }

  lemma LinkedBreaks(conns: ConnectionMap, streams: StreamMap, a: Address, h: u16, s: AvdtpStream)
    requires Linked(conns, streams) && a in conns && h in streams && s.remoteAddr == a
    ensures !Linked(WithStream(conns, a, h), streams[h := s])
  {
    var b := streams[h].remoteAddr;
    var after := WithStream(conns, a, h);
    assert Listed(conns, b, h);
    if a == b {
      var i :| 0 <= i < |conns[a].streams| && conns[a].streams[i] == h;
      assert after[a].streams[i] == after[a].streams[|conns[a].streams|];
    } else {
      assert Listed(after, b, h);
    }
  }

  /** Creating a stream keeps the profile sound exactly unless its checks pass and the handle it draws is live. */
  lemma CreateSoundExactly(p: Profile, addr: Address, localSeid: u8, remoteSeid: u8, codec: Codec)
    requires Sound(p)
    ensures Sound(CreateStream(p, addr, localSeid, remoteSeid, codec).1)
            <==> !(Creatable(p, addr, localSeid, codec) && p.avdtp.nextHandle in AsMap(p.avdtp.streams))
  {
    if Creatable(p, addr, localSeid, codec) {
      CreateEffect(p, addr, localSeid, remoteSeid, codec);
      var conns, streams, h := AsMap(p.connections), AsMap(p.avdtp.streams), p.avdtp.nextHandle;
      var s := NewStream(h, localSeid, remoteSeid, addr, conns[addr].connHandle, codec);
      if h in streams {
        LinkedBreaks(conns, streams, addr, h, s);
      } else if !Full(p) {
        LinkedCreate(conns, streams, addr, h, s);
      }
    } else {
      NotCreatable(p, addr, localSeid, remoteSeid, codec);
    }
  }

  // ----- Runs -----

  datatype Op =
    | AddEndpoint(parameters: seq<u8>)
    | Connect(addr: Address, cid: u16, connHandle: u16)
    | Disconnect(addr: Address)
    | Open(addr: Address, localSeid: u8, remoteSeid: u8, codec: Codec)
    | Start(handle: u16)
    | Suspend(handle: u16)
    | Close(handle: u16)

  function Apply(p: Profile, role: Role, op: Op): Profile {
    match op
    case AddEndpoint(parameters) => AddSbcEndpoint(p, role, parameters).1
    case Connect(addr, cid, connHandle) => CreateConnection(p, addr, cid, connHandle).1
    case Disconnect(addr) => RemoveConnection(p, addr).1
    case Open(addr, localSeid, remoteSeid, codec) => CreateStream(p, addr, localSeid, remoteSeid, codec).1
    case Start(handle) => StartStream(p, handle).1
    case Suspend(handle) => SuspendStream(p, handle).1
    case Close(handle) => CloseStream(p, handle).1
  }

  function Run(p: Profile, role: Role, ops: seq<Op>): Profile
    decreases |ops|
  {
    if ops == [] then p else Run(Apply(p, role, ops[0]), role, ops[1..])
  }

  /** The operation does not draw a handle that is live. */
  ghost predicate Timely(p: Profile, op: Op) {
    op.Open? && Creatable(p, op.addr, op.localSeid, op.codec) ==> p.avdtp.nextHandle !in AsMap(p.avdtp.streams)
  }

  ghost predicate TimelyRun(p: Profile, role: Role, ops: seq<Op>)
    decreases |ops|
  {
    ops != [] ==> Timely(p, ops[0]) && TimelyRun(Apply(p, role, ops[0]), role, ops[1..])
  }

  /** One operation keeps a sound profile sound exactly when it does not draw a live handle. */
  lemma StepSoundExactly(p: Profile, role: Role, op: Op)
    requires Sound(p)
    ensures Sound(Apply(p, role, op)) <==> Timely(p, op)
  {
    match op {
      case AddEndpoint(_) =>
      case Connect(addr, cid, connHandle) => ConnectSound(p, addr, cid, connHandle);
      case Disconnect(addr) => DisconnectSound(p, addr);
      case Open(addr, localSeid, remoteSeid, codec) => CreateSoundExactly(p, addr, localSeid, remoteSeid, codec);
      case Start(handle) => StartSound(p, handle);
      case Suspend(handle) => SuspendSound(p, handle);
      case Close(handle) => CloseSound(p, handle);
    }
  }

  /** The stream map and the stream lists stay inverse over every run in which handles do not wrap onto live ones. */
  lemma {:induction false} RunsStaySound(p: Profile, role: Role, ops: seq<Op>)
    requires Sound(p) && TimelyRun(p, role, ops)
    ensures Sound(Run(p, role, ops))
    decreases |ops|
  {
    if ops != [] {
      StepSoundExactly(p, role, ops[0]);
      RunsStaySound(Apply(p, role, ops[0]), role, ops[1..]);
    }
  }

  const EMPTY := Profile(Avdtp([], [], 1), [], 1)

  // ----- One cycle of handles -----

  function HandleAt(n: nat): u16 {
    (1 + n) % 0x1_0000
  }

  ghost predicate AmongFirst(h: u16, n: nat) {
    exists j: nat :: j < n && h == HandleAt(j)
  }

  ghost predicate Drawn(p: Profile, n: nat) {
    p.avdtp.nextHandle == HandleAt(n) && forall h :: h in AsMap(p.avdtp.streams) ==> AmongFirst(h, n)
  }

  lemma NextDraw(n: nat)
    ensures HandleAt(n + 1) == NextHandle(HandleAt(n))
    ensures AmongFirst(HandleAt(n), n + 1)
    ensures forall h :: AmongFirst(h, n) ==> AmongFirst(h, n + 1)
  {
    forall h | AmongFirst(h, n) ensures AmongFirst(h, n + 1) {
      var j: nat :| j < n && h == HandleAt(j);
      assert j < n + 1;
    }
  }

  lemma NextIsFree(p: Profile, n: nat)
    requires Drawn(p, n) && n < 0x1_0000
    ensures p.avdtp.nextHandle !in AsMap(p.avdtp.streams)
  {
    forall j: nat | j < n ensures HandleAt(j) != HandleAt(n) {
    }
  }

  lemma OpenDraws(p: Profile, op: Op, n: nat) returns (k: nat)
    requires Sound(p) && Drawn(p, n) && op.Open?
    ensures n <= k <= n + 1 && Drawn(CreateStream(p, op.addr, op.localSeid, op.remoteSeid, op.codec).1, k)
  {
    NextDraw(n);
    if Creatable(p, op.addr, op.localSeid, op.codec) {
      CreateEffect(p, op.addr, op.localSeid, op.remoteSeid, op.codec);
      k := n + 1;
    } else {
      NotCreatable(p, op.addr, op.localSeid, op.remoteSeid, op.codec);
      k := n;
    }
  }

  lemma OthersDrawNothing(p: Profile, role: Role, op: Op, n: nat)
    requires Sound(p) && Drawn(p, n) && !op.Open?
    ensures Drawn(Apply(p, role, op), n)
  {
    match op {
      case AddEndpoint(_) =>
      case Connect(addr, cid, connHandle) => ConnectSound(p, addr, cid, connHandle);
      case Disconnect(addr) => DisconnectSound(p, addr);
      case Start(handle) => StartSound(p, handle);
      case Suspend(handle) => SuspendSound(p, handle);
      case Close(handle) => CloseSound(p, handle);
    }
  }

  function Opens(ops: seq<Op>): nat {
    if ops == [] then 0 else (if ops[0].Open? then 1 else 0) + Opens(ops[1..])
  }

  lemma {:induction false} OneCycleIsTimely(p: Profile, role: Role, ops: seq<Op>, n: nat)
    requires Sound(p) && Drawn(p, n) && n + Opens(ops) <= 0x1_0000
    ensures TimelyRun(p, role, ops)
    decreases |ops|
  {
    if ops != [] {
      var op := ops[0];
      var k := n;
      if op.Open? {
        NextIsFree(p, n);
        k := OpenDraws(p, op, n);
      } else {
        OthersDrawNothing(p, role, op, n);
      }
      StepSoundExactly(p, role, op);
      OneCycleIsTimely(Apply(p, role, op), role, ops[1..], k);
    }
  }

  /** Up to 65536 stream creations after start-up, in any order with everything else, the indexes are inverse. */
  lemma SoundThroughOneCycle(role: Role, ops: seq<Op>)
    requires Opens(ops) <= 0x1_0000
    ensures Sound(Run(EMPTY, role, ops))
  {
    assert Sound(EMPTY) && Drawn(EMPTY, 0);
    OneCycleIsTimely(EMPTY, role, ops, 0);
    RunsStaySound(EMPTY, role, ops);
  }
}
