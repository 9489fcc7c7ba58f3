/** Two signalling processors joined by reliable FIFO links, with every interleaving of calls and deliveries. */
module Duplex {
  import opened Wrappers
  import opened Words
  import opened IndexMap
  import opened Channel
  import opened Packet
  import opened Signaling
  import opened Processor
  import opened ProcessorRuns
  import opened PendingRuns
  import opened Agreement

  /** One side: its processor, and the address and ACL handle under which it knows the peer. */
  datatype Endpoint = Endpoint(proc: Proc, peer: Address, handle: u16)

  /** ab carries commands from a to b, ba from b to a. */
  datatype System = System(a: Endpoint, b: Endpoint, ab: Queue, ba: Queue)

  datatype Action =
    | DoConnect(psm: u16)
    | DoConfigure(localCid: u16, options: ConfigurationOptions)
    | DoDisconnect(localCid: u16)
    | DoReceive

  datatype Event = AtA(action: Action) | AtB(action: Action)

  function Swap(s: System): System {
    System(s.b, s.a, s.ba, s.ab)
  }

  /** Side a's processor becomes p, and m is sent, if there is one. */
  function Sent(s: System, p: Proc, m: Option<SignalingCommand>): System {
    s.(a := s.a.(proc := p), ab := if m.Some? then s.ab + [m.value] else s.ab)
  }

  function Built(r: Result<SignalingCommand, L2capError>): Option<SignalingCommand> {
    if r.Ok? then Some(r.value) else None
  }

  function Replied(r: Reply): Option<SignalingCommand> {
    if r.Ok? then r.value else None
  }

  /** One action of side a; a received reply is sent back on the link. */
  function StepA(s: System, action: Action): System {
    match action
    case DoConnect(psm) =>
      var (p, r) := Connect(s.a.proc, psm, s.a.peer, s.a.handle);
      Sent(s, p, if r.Ok? then Some(r.value.1) else None)
    case DoConfigure(cid, options) =>
      var (p, r) := ConfigureChannel(s.a.proc, cid, options);
      Sent(s, p, Built(r))
    case DoDisconnect(cid) =>
      var (p, r) := Disconnect(s.a.proc, cid);
      Sent(s, p, Built(r))
    case DoReceive =>
      if s.ba == [] then s
      else
        var (p, r) := HandleCommand(s.a.proc, s.ba[0], s.a.peer, s.a.handle);
        Sent(s.(ba := s.ba[1..]), p, Replied(r))
  }

  function Step(s: System, e: Event): System {
    match e
    case AtA(action) => StepA(s, action)
    case AtB(action) => Swap(StepA(Swap(s), action))
  }

  /** No outstanding request of this kind carries the identifier drawn next. */
  ghost predicate FreshKey(p: Proc, code: SignalingCode) {
    forall i :: 0 <= i < |p.pending| && p.pending[i].code == code ==> p.pending[i].identifier != p.nextId
  }

  /** No outstanding connection or disconnection request names the CID the allocator is about to give out. */
  ghost predicate FreeCid(p: Proc) {
    forall i :: 0 <= i < |p.pending| && !p.pending[i].code.ConfReq? ==>
                  p.pending[i].localCid != Some(AllocatedCid(p.manager))
  }

  /** What a caller can check before an action of side a; only actions that send a request or open a channel need it. */
  ghost predicate TimelyA(s: System, action: Action) {
    match action
    case DoConnect(psm) =>
      Connect(s.a.proc, psm, s.a.peer, s.a.handle).1.Ok? ==> FreshKey(s.a.proc, ConnReq) && FreeCid(s.a.proc)
    case DoConfigure(_, _) => true
    case DoDisconnect(cid) => Disconnect(s.a.proc, cid).1.Ok? ==> FreshKey(s.a.proc, DiscReq)
    case DoReceive =>
      s.ba != [] && s.ba[0].ConnectionRequest? && s.ba[0].psm == AVDTP_PSM && !Full(s.a.proc) ==> FreeCid(s.a.proc)
  }

  ghost predicate Timely(s: System, e: Event) {
    match e
    case AtA(action) => TimelyA(s, action)
    case AtB(action) => TimelyA(Swap(s), action)
  }

  function RunSystem(s: System, events: seq<Event>): System
    decreases |events|
  {
    if events == [] then s else RunSystem(Step(s, events[0]), events[1..])
  }

  ghost predicate TimelyRun(s: System, events: seq<Event>)
    decreases |events|
  {
    events == [] || (Timely(s, events[0]) && TimelyRun(Step(s, events[0]), events[1..]))
  }

  function NewSystem(peerOfA: Address, handleA: u16, peerOfB: Address, handleB: u16): System {
    System(Endpoint(NEW_PROC, peerOfA, handleA), Endpoint(NEW_PROC, peerOfB, handleB), [], [])
  }

  // ----- The view of a processor -----

  ghost function RemoteOf(m: map<u16, L2capChannel>): map<u16, Option<u16>> {
    map cid | cid in m :: m[cid].remoteCid
  }

  ghost function AskedOf(pending: seq<PendingRequest>): Asked {
    set i | 0 <= i < |pending| && !pending[i].code.ConfReq? :: pending[i]
  }

  ghost function View(p: Proc): Party {
    Party(RemoteOf(Chans(p)), AskedOf(p.pending))
  }

  lemma RemoteOfUpdate(m: map<u16, L2capChannel>, cid: u16, c: L2capChannel)
    ensures RemoteOf(m[cid := c]) == RemoteOf(m)[cid := c.remoteCid]
    ensures cid in m && c.remoteCid == m[cid].remoteCid ==> RemoteOf(m[cid := c]) == RemoteOf(m)
  {
  }

  lemma RemoteOfRemoval(m: map<u16, L2capChannel>, cid: u16)
    ensures RemoteOf(m - {cid}) == RemoteOf(m) - {cid}
  {
  }

  lemma AskedOfPush(pending: seq<PendingRequest>, r: PendingRequest)
    ensures AskedOf(pending + [r]) == AskedOf(pending) + if r.code.ConfReq? then {} else {r}
  {
    var q := pending + [r];
    var more := AskedOf(pending) + if r.code.ConfReq? then {} else {r};
    forall s ensures s in AskedOf(q) <==> s in more {
      if s in AskedOf(pending) {
        var i :| 0 <= i < |pending| && !pending[i].code.ConfReq? && pending[i] == s;
        assert q[i] == s;
      }
      assert q[|pending|] == r;
    }
  }

  /** Outstanding connection and disconnection requests of one kind differ in their identifiers. */
  ghost predicate DistinctKeys(pending: seq<PendingRequest>) {
    forall i, j :: 0 <= i < j < |pending| && !pending[i].code.ConfReq? && pending[i].code == pending[j].code ==>
                     pending[i].identifier != pending[j].identifier
  }

  lemma DistinctKeysRemoval(pending: seq<PendingRequest>, i: nat)
    requires DistinctKeys(pending) && i < |pending|
    ensures DistinctKeys(SwapRemove(pending, i))
  {
    var q := SwapRemove(pending, i);
    forall k | 0 <= k < |q| ensures q[k] == pending[if k == i then |pending| - 1 else k] {
    }
  }

  lemma AskedOfRemoval(pending: seq<PendingRequest>, i: nat)
    requires DistinctKeys(pending) && i < |pending|
    ensures AskedOf(SwapRemove(pending, i)) == AskedOf(pending) - {pending[i]}
  {
    var q := SwapRemove(pending, i);
    forall s ensures s in AskedOf(q) <==> s in AskedOf(pending) - {pending[i]} {
      if s in AskedOf(pending) && s != pending[i] {
        var k :| 0 <= k < |pending| && !pending[k].code.ConfReq? && pending[k] == s;
        assert q[if k == |pending| - 1 then i else k] == s;
      }
      if s in AskedOf(q) {
        var k :| 0 <= k < |q| && !q[k].code.ConfReq? && q[k] == s;
        assert s == pending[if k == i then |pending| - 1 else k];
      }
    }
  }

  ghost predicate OnLink(m: map<u16, L2capChannel>, handle: u16) {
    forall cid :: cid in m ==> m[cid].connHandle == handle
  }

  ghost predicate EndOk(e: Endpoint) {
    Coherent(e.proc) && DistinctKeys(e.proc.pending) && OnLink(Chans(e.proc), e.handle)
  }

  ghost predicate Proper(q: Queue) {
    forall i :: 0 <= i < |q| ==> IsRequest(q[i]) || IsResponse(q[i])
  }

  ghost predicate Joined(s: System) {
    && EndOk(s.a) && EndOk(s.b) && Proper(s.ab) && Proper(s.ba)
    && Both(View(s.a.proc), View(s.b.proc), s.ab, s.ba)
  }

  // ----- Every action keeps the invariant -----

  /** What an action of side a has to establish. */
  lemma Rejoin(s: System, p: Proc, m: Option<SignalingCommand>, ba: Queue)
    requires Joined(s) && EndOk(s.a.(proc := p)) && Proper(ba)
    requires m.Some? ==> IsRequest(m.value) || IsResponse(m.value)
    requires Both(View(p), View(s.b.proc), if m.Some? then s.ab + [m.value] else s.ab, ba)
    ensures Joined(Sent(s.(ba := ba), p, m))
  {
  }

  /** The parts of the invariant a step starts from. */
  lemma Parted(s: System)
    requires Joined(s)
    ensures EndOk(s.a) && EndOk(s.b) && Both(View(s.a.proc), View(s.b.proc), s.ab, s.ba)
    ensures s.ba != [] ==> Proper(s.ba[1..]) && (IsRequest(s.ba[0]) || IsResponse(s.ba[0]))
    ensures s.(ba := s.ba) == s && Proper(s.ba)
  {
  }

  lemma Received(s: System)
    requires s.ba != []
    ensures var (p, r) := HandleCommand(s.a.proc, s.ba[0], s.a.peer, s.a.handle);
            StepA(s, DoReceive) == Sent(s.(ba := s.ba[1..]), p, Replied(r))
  {
  }

  lemma FreshView(p: Proc, req: PendingRequest)
    requires req.identifier == p.nextId && !req.code.ConfReq?
    ensures FreshKey(p, req.code) ==> FreshFor(View(p).asked, req)
    ensures FreeCid(p) ==> Unnamed(View(p).asked, AllocatedCid(p.manager))
  {
  }

  lemma DistinctPush(p: Proc, r: PendingRequest)
    requires DistinctKeys(p.pending) && r.identifier == p.nextId && (r.code.ConfReq? || FreshKey(p, r.code))
    ensures DistinctKeys(p.pending + [r])
  {
  }

  /** A connect whose request was sent, on the view. */
  lemma DialView(e: Endpoint, psm: u16)
    requires EndOk(e) && FreshKey(e.proc, ConnReq) && FreeCid(e.proc) && Connect(e.proc, psm, e.peer, e.handle).1.Ok?
    ensures var (q, r) := Connect(e.proc, psm, e.peer, e.handle);
            var x, cid := View(e.proc), AllocatedCid(e.proc.manager);
            var req := PendingRequest(e.proc.nextId, Some(cid), ConnReq);
            && EndOk(e.(proc := q)) && Dials(x, req, cid, r.value.1) && View(q) == Dialled(x, cid, req)
            && IsRequest(r.value.1)
  {
    var p := e.proc;
    var cid := AllocatedCid(p.manager);
    var req := PendingRequest(p.nextId, Some(cid), ConnReq);
    ConnectEffect(p, psm, e.peer, e.handle);
    CoherentStep(p, OpConnect(psm, e.peer, e.handle));
    FreshView(p, req);
    RemoteOfUpdate(Chans(p), cid, Waiting(cid, psm, e.peer, e.handle));
    AskedOfPush(p.pending, req);
    DistinctPush(p, req);
  }

  /** A connect that could not send leaves a waiting channel behind, or nothing on a full map. */
  lemma FailedDialView(e: Endpoint, psm: u16)
    requires EndOk(e) && Connect(e.proc, psm, e.peer, e.handle).1.Err?
    ensures var q, x := Connect(e.proc, psm, e.peer, e.handle).0, View(e.proc);
            var cid := AllocatedCid(e.proc.manager);
            && EndOk(e.(proc := q)) && cid !in x.remote
            && View(q) == if Full(e.proc) then x else x.(remote := x.remote[cid := None])
  {
    var p := e.proc;
    var cid := AllocatedCid(p.manager);
    ConnectEffect(p, psm, e.peer, e.handle);
    CoherentStep(p, OpConnect(psm, e.peer, e.handle));
    RemoteOfUpdate(Chans(p), cid, Waiting(cid, psm, e.peer, e.handle));
  }

  lemma ConnectJoined(s: System, psm: u16)
    requires Joined(s) && TimelyA(s, DoConnect(psm))
    ensures Joined(StepA(s, DoConnect(psm)))
  {
    var (p, r) := Connect(s.a.proc, psm, s.a.peer, s.a.handle);
    var x, y, cid := View(s.a.proc), View(s.b.proc), AllocatedCid(s.a.proc.manager);
    Parted(s);
    if r.Ok? {
      DialView(s.a, psm);
      SendConnect(x, y, s.ab, s.ba, PendingRequest(s.a.proc.nextId, Some(cid), ConnReq), cid, r.value.1);
      Rejoin(s, p, Some(r.value.1), s.ba);
    } else {
      FailedDialView(s.a, psm);
      LeftBehind(x, y, s.ab, s.ba, cid);
      Rejoin(s, p, None, s.ba);
    }
  }

  /** A call that changes one channel and not its remote CID, as seen on the view. */
  lemma RestatedView(e: Endpoint, q: Proc, cid: u16)
    requires EndOk(e) && Coherent(q) && cid in Chans(e.proc) && cid in Chans(q)
    requires Chans(q) == Chans(e.proc)[cid := Chans(q)[cid]]
    requires Chans(q)[cid].remoteCid == Chans(e.proc)[cid].remoteCid
    requires Chans(q)[cid].connHandle == Chans(e.proc)[cid].connHandle
    ensures RemoteOf(Chans(q)) == RemoteOf(Chans(e.proc)) && OnLink(Chans(q), e.handle)
  {
    RemoteOfUpdate(Chans(e.proc), cid, Chans(q)[cid]);
  }

  /** Configuring changes no remote CID. */
  lemma ConfigureRemotes(e: Endpoint, cid: u16, options: ConfigurationOptions)
    requires EndOk(e)
    ensures var q := ConfigureChannel(e.proc, cid, options).0;
            RemoteOf(Chans(q)) == RemoteOf(Chans(e.proc)) && OnLink(Chans(q), e.handle)
  {
    var q := ConfigureChannel(e.proc, cid, options).0;
    ConfigureEffect(e.proc, cid, options);
    CoherentAfterConfigure(e.proc, cid, options);
    if cid in Chans(e.proc) && Chans(e.proc)[cid].remoteCid.Some? {
      RestatedView(e, q, cid);
    }
  }

  /** Its request, if there is one, is not among those the view counts. */
  lemma ConfigureAsked(e: Endpoint, cid: u16, options: ConfigurationOptions)
    requires EndOk(e)
    ensures var (q, r) := ConfigureChannel(e.proc, cid, options);
            && AskedOf(q.pending) == AskedOf(e.proc.pending) && DistinctKeys(q.pending)
            && (r.Ok? ==> r.value.ConfigurationRequest?)
  {
    var p, req := e.proc, PendingRequest(e.proc.nextId, Some(cid), ConfReq);
    ConfigureEffect(p, cid, options);
    AskedOfPush(p.pending, req);
    DistinctPush(p, req);
  }

  /** Configuring does not show on the view. */
  lemma ConfigureView(e: Endpoint, cid: u16, options: ConfigurationOptions)
    requires EndOk(e)
    ensures var (q, r) := ConfigureChannel(e.proc, cid, options);
            EndOk(e.(proc := q)) && View(q) == View(e.proc) && (r.Ok? ==> r.value.ConfigurationRequest?)
  {
    ConfigureRemotes(e, cid, options);
    ConfigureAsked(e, cid, options);
    CoherentAfterConfigure(e.proc, cid, options);
  }

  lemma ConfigureJoined(s: System, cid: u16, options: ConfigurationOptions)
    requires Joined(s)
    ensures Joined(StepA(s, DoConfigure(cid, options)))
  {
    var (p, r) := ConfigureChannel(s.a.proc, cid, options);
    Parted(s);
    ConfigureView(s.a, cid, options);
    if r.Ok? {
      PushInert(View(s.a.proc), View(s.b.proc), s.ab, s.ba, r.value);
    }
    Rejoin(s, p, Built(r), s.ba);
  }

  /** A disconnect of a channel that has its remote CID, as seen on the view. */
  lemma HangUpView(e: Endpoint, cid: u16)
    requires EndOk(e) && cid in Chans(e.proc) && Chans(e.proc)[cid].remoteCid.Some?
    ensures var q := Disconnect(e.proc, cid).0;
            RemoteOf(Chans(q)) == RemoteOf(Chans(e.proc)) && OnLink(Chans(q), e.handle)
  {
    var q := Disconnect(e.proc, cid).0;
    DisconnectEffect(e.proc, cid);
    CoherentAfterDisconnect(e.proc, cid);
    RestatedView(e, q, cid);
  }

  /** The request of a disconnect that was sent. */
  lemma HangUpAsked(e: Endpoint, cid: u16)
    requires EndOk(e) && Disconnect(e.proc, cid).1.Ok? && FreshKey(e.proc, DiscReq)
    ensures var (q, r) := Disconnect(e.proc, cid);
            var x, req := View(e.proc), PendingRequest(e.proc.nextId, Some(cid), DiscReq);
            && cid in Chans(e.proc) && Chans(e.proc)[cid].remoteCid.Some?
            && HangsUp(x, req, cid, r.value) && AskedOf(q.pending) == x.asked + {req} && DistinctKeys(q.pending)
            && IsRequest(r.value)
  {
    var p, req := e.proc, PendingRequest(e.proc.nextId, Some(cid), DiscReq);
    DisconnectEffect(p, cid);
    FreshView(p, req);
    AskedOfPush(p.pending, req);
    DistinctPush(p, req);
  }

  /** A disconnect that was not sent leaves requests and remote CIDs as they were. */
  lemma HangUpRefused(e: Endpoint, cid: u16)
    requires EndOk(e) && Disconnect(e.proc, cid).1.Err?
    ensures var q := Disconnect(e.proc, cid).0; EndOk(e.(proc := q)) && View(q) == View(e.proc)
  {
    DisconnectEffect(e.proc, cid);
    CoherentAfterDisconnect(e.proc, cid);
    if cid in Chans(e.proc) && Chans(e.proc)[cid].remoteCid.Some? {
      HangUpView(e, cid);
    }
  }

  lemma DisconnectView(e: Endpoint, cid: u16)
    requires EndOk(e) && (Disconnect(e.proc, cid).1.Ok? ==> FreshKey(e.proc, DiscReq))
    ensures var (q, r) := Disconnect(e.proc, cid);
            var x, req := View(e.proc), PendingRequest(e.proc.nextId, Some(cid), DiscReq);
            && EndOk(e.(proc := q))
            && (r.Ok? ==> HangsUp(x, req, cid, r.value) && View(q) == Ask(x, req) && IsRequest(r.value))
            && (r.Err? ==> View(q) == x)
  {
    if Disconnect(e.proc, cid).1.Ok? {
      HangUpAsked(e, cid);
      HangUpView(e, cid);
      CoherentAfterDisconnect(e.proc, cid);
    } else {
      HangUpRefused(e, cid);
    }
  }

  lemma DisconnectJoined(s: System, cid: u16)
    requires Joined(s) && TimelyA(s, DoDisconnect(cid))
    ensures Joined(StepA(s, DoDisconnect(cid)))
  {
    var (p, r) := Disconnect(s.a.proc, cid);
    Parted(s);
    DisconnectView(s.a, cid);
    if r.Ok? {
      SendDisconnect(View(s.a.proc), View(s.b.proc), s.ab, s.ba,
                     PendingRequest(s.a.proc.nextId, Some(cid), DiscReq), cid, r.value);
    }
    Rejoin(s, p, Built(r), s.ba);
  }

  /** A connection request on a full map changes nothing and is not answered. */
  lemma DroppedView(e: Endpoint, m: SignalingCommand)
    requires EndOk(e) && m.ConnectionRequest? && m.psm == AVDTP_PSM && Full(e.proc)
    ensures var (q, r) := HandleCommand(e.proc, m, e.peer, e.handle);
            EndOk(e.(proc := q)) && View(q) == View(e.proc) && r.Err?
  {
    ConnectionRequestEffect(e.proc, m.header, m.psm, m.sourceCid, e.peer, e.handle);
    CoherentAfterReceive(e.proc, m, e.peer, e.handle);
  }

  function Acceptance(m: SignalingCommand, cid: u16): SignalingCommand
    requires m.ConnectionRequest?
  {
    ConnectionResponse(SignalingHeader(ConnRsp, m.header.identifier, 8), cid, m.sourceCid, ConnSuccess, 0)
  }

  /** An accepted connection request opens one channel, on the view. */
  lemma OpenView(e: Endpoint, m: SignalingCommand)
    requires EndOk(e) && m.ConnectionRequest? && m.psm == AVDTP_PSM && !Full(e.proc)
    ensures var (q, r) := HandleCommand(e.proc, m, e.peer, e.handle);
            var cid := AllocatedCid(e.proc.manager);
            && EndOk(e.(proc := q)) && cid !in View(e.proc).remote
            && r == Ok(Some(Acceptance(m, cid))) && View(q) == Opened(View(e.proc), cid, m.sourceCid)
  {
    var cid := AllocatedCid(e.proc.manager);
    ConnectionRequestEffect(e.proc, m.header, m.psm, m.sourceCid, e.peer, e.handle);
    CoherentAfterReceive(e.proc, m, e.peer, e.handle);
    RemoteOfUpdate(Chans(e.proc), cid, Incoming(cid, m.sourceCid, m.psm, e.peer, e.handle));
  }

  /** A refused connection request changes nothing. */
  lemma RefusedView(e: Endpoint, m: SignalingCommand)
    requires EndOk(e) && m.ConnectionRequest? && m.psm != AVDTP_PSM
    ensures var (q, r) := HandleCommand(e.proc, m, e.peer, e.handle);
            && EndOk(e.(proc := q)) && View(q) == View(e.proc)
            && r.Ok? && r.value.Some? && r.value.value.ConnectionResponse? && !r.value.value.result.ConnSuccess?
            && r.value.value.sourceCid == m.sourceCid && r.value.value.header.identifier == m.header.identifier
  {
  }

  lemma RefusalSent(s: System, p: Proc, m: SignalingCommand)
    requires Joined(s) && s.ba != [] && EndOk(s.a.(proc := p)) && View(p) == View(s.a.proc)
    requires m.ConnectionResponse? && !m.result.ConnSuccess? && s.ba[0].ConnectionRequest?
    requires m.sourceCid == s.ba[0].sourceCid && m.header.identifier == s.ba[0].header.identifier
    ensures Joined(Sent(s.(ba := s.ba[1..]), p, Some(m)))
  {
    var x, y := View(s.a.proc), View(s.b.proc);
    Parted(s);
    HeadTracked(y, x, s.ba, s.ab);
    ReceiveRefused(x, y, s.ab, s.ba, m);
    Rejoin(s, p, Some(m), s.ba[1..]);
  }

  lemma RejectJoined(s: System)
    requires Joined(s) && s.ba != [] && s.ba[0].ConnectionRequest? && s.ba[0].psm != AVDTP_PSM
    ensures Joined(StepA(s, DoReceive))
  {
    var (p, r) := HandleCommand(s.a.proc, s.ba[0], s.a.peer, s.a.handle);
    RefusedView(s.a, s.ba[0]);
    RefusalSent(s, p, r.value.value);
    Received(s);
  }

  /** The head of a queue belongs to an outstanding exchange of its sender or its receiver. */
  lemma HeadTracked(x: Party, y: Party, q: Queue, r: Queue)
    requires Both(x, y, q, r)
    ensures q != [] && Asking(q[0]) ==> Tracked(x.asked, q[0])
    ensures r != [] && Answering(r[0]) ==> Tracked(x.asked, r[0])
  {
  }

  lemma AcceptJoined(s: System)
    requires Joined(s) && TimelyA(s, DoReceive)
    requires s.ba != [] && s.ba[0].ConnectionRequest? && s.ba[0].psm == AVDTP_PSM
    ensures Joined(StepA(s, DoReceive))
  {
    var x, y, cid := View(s.a.proc), View(s.b.proc), AllocatedCid(s.a.proc.manager);
    var (p, r) := HandleCommand(s.a.proc, s.ba[0], s.a.peer, s.a.handle);
    Parted(s);
    if Full(s.a.proc) {
      DroppedView(s.a, s.ba[0]);
      ReceiveDropped(x, y, s.ab, s.ba);
    } else {
      OpenView(s.a, s.ba[0]);
      FreshView(s.a.proc, PendingRequest(s.a.proc.nextId, None, ConnReq));
      ReceiveConnect(x, y, s.ab, s.ba, cid, Acceptance(s.ba[0], cid));
    }
    Rejoin(s, p, Replied(r), s.ba[1..]);
    Received(s);
  }

  lemma ReceiveConfigureJoined(s: System)
    requires Joined(s) && s.ba != [] && s.ba[0].ConfigurationRequest?
    ensures Joined(StepA(s, DoReceive))
  {
    var x, y, m := View(s.a.proc), View(s.b.proc), HandleConfigurationRequest(s.ba[0].header);
    Parted(s);
    PopInert(x, y, s.ab, s.ba);
    PushInert(x, y, s.ab, s.ba[1..], m);
    Rejoin(s, s.a.proc, Some(m), s.ba[1..]);
  }

  /** A disconnection request drops the channel of that remote CID, on the view. */
  lemma DropView(e: Endpoint, m: SignalingCommand)
    requires EndOk(e) && m.DisconnectionRequest? && UniqueRemotes(View(e.proc))
    ensures var (q, r) := HandleCommand(e.proc, m, e.peer, e.handle);
            && EndOk(e.(proc := q)) && Drops(View(e.proc), m.sourceCid, View(q))
            && r == Ok(Some(DisconnectionResponse(SignalingHeader(DiscRsp, m.header.identifier, 4),
                                                  m.sourceCid, m.destinationCid)))
  {
    var p := e.proc;
    var removed := DisconnectionRequestEffect(p, m.header, m.destinationCid, m.sourceCid, e.handle);
    CoherentAfterReceive(p, m, e.peer, e.handle);
    if removed.Some? {
      RemoteOfRemoval(Chans(p), removed.value);
      assert removed.value in RemoteOf(Chans(p));
    }
  }

  lemma ReceiveDisconnectJoined(s: System)
    requires Joined(s) && s.ba != [] && s.ba[0].DisconnectionRequest?
    ensures Joined(StepA(s, DoReceive))
  {
    var (p, r) := HandleCommand(s.a.proc, s.ba[0], s.a.peer, s.a.handle);
    Parted(s);
    DropView(s.a, s.ba[0]);
    ReceiveDisconnect(View(s.a.proc), View(s.b.proc), s.ab, s.ba, View(p), r.value.value);
    Rejoin(s, p, Replied(r), s.ba[1..]);
    Received(s);
  }

  /** The pending request that an answer was sent for. */
  ghost predicate SentFor(req: PendingRequest, m: SignalingCommand) {
    && req.localCid.Some? && req.identifier == m.header.identifier
    && match m
       case ConnectionResponse(_, _, src, _, _) => req.code.ConnReq? && req.localCid.value == src
       case DisconnectionResponse(_, dst, _) => req.code.DiscReq? && req.localCid.value == dst
       case _ => false
  }

  /** An answer in flight finds exactly the outstanding request it was sent for. */
  lemma AnswerFound(p: Proc, m: SignalingCommand) returns (req: PendingRequest)
    requires DistinctKeys(p.pending) && Answering(m) && Tracked(AskedOf(p.pending), m)
    ensures AnsweredIndex(p, m) < |p.pending| && p.pending[AnsweredIndex(p, m)] == req
    ensures req in AskedOf(p.pending) && SentFor(req, m)
  {
    req := PendingRequest(m.header.identifier, Some(if m.ConnectionResponse? then m.sourceCid else m.destinationCid),
                          Kind(m));
    assert Asks(AskedOf(p.pending), m.header.identifier, req.localCid.value, req.code);
    var k :| 0 <= k < |p.pending| && !p.pending[k].code.ConfReq? && p.pending[k] == req;
    FindPendingFirst(p.pending, m.header.identifier, req.code, k);
  }

  /** The channel map of the view after an answer to `cid`. */
  ghost function AnsweredRemote(m: map<u16, Option<u16>>, cid: u16, command: SignalingCommand): map<u16, Option<u16>>
    requires IsResponse(command)
  {
    match command
    case ConnectionResponse(_, dst, _, result, _) => if cid in m && result.ConnSuccess? then m[cid := Some(dst)] else m
    case ConfigurationResponse(_, _, _, _, _) => m
    case DisconnectionResponse(_, _, _) => m - {cid}
  }

  lemma AnswerView(m: map<u16, L2capChannel>, cid: u16, command: SignalingCommand)
    requires IsResponse(command)
    ensures RemoteOf(AfterAnswer(m, cid, command)) == AnsweredRemote(RemoteOf(m), cid, command)
  {
    if cid in m {
      match command {
        case ConnectionResponse(_, dst, _, result, _) =>
          RemoteOfUpdate(m, cid, Settled(m[cid], dst, result.ConnSuccess?));
        case ConfigurationResponse(_, _, _, result, _) => RemoteOfUpdate(m, cid, Agreed(m[cid], result.ConfSuccess?));
        case DisconnectionResponse(_, _, _) => RemoteOfRemoval(m, cid);
      }
    } else {
      assert RemoteOf(m) - {cid} == RemoteOf(m);
    }
  }

  lemma LinkAfterAnswer(m: map<u16, L2capChannel>, cid: u16, command: SignalingCommand, handle: u16)
    requires IsResponse(command) && OnLink(m, handle)
    ensures OnLink(AfterAnswer(m, cid, command), handle)
  {
  }

  /** The view once the answer m to its request was taken. */
  ghost function AfterTaken(x: Party, req: PendingRequest, m: SignalingCommand): Party
    requires IsResponse(m) && req.localCid.Some?
  {
    Party(AnsweredRemote(x.remote, req.localCid.value, m), x.asked - {req})
  }

  lemma ResponseView(e: Endpoint, m: SignalingCommand) returns (req: PendingRequest)
    requires EndOk(e) && Answering(m) && Tracked(View(e.proc).asked, m)
    ensures req in View(e.proc).asked && SentFor(req, m)
    ensures var (q, r) := HandleCommand(e.proc, m, e.peer, e.handle);
            var cid := req.localCid.value;
            && EndOk(e.(proc := q)) && r == Ok(None)
            && Chans(q) == AfterAnswer(Chans(e.proc), cid, m)
            && View(q) == AfterTaken(View(e.proc), req, m)
  {
    req := AnswerFound(e.proc, m);
    var i := AnsweredIndex(e.proc, m);
    ResponseEffect(e.proc, m, e.peer, e.handle);
    CoherentAfterResponse(e.proc, m, e.peer, e.handle);
    DistinctKeysRemoval(e.proc.pending, i);
    AskedOfRemoval(e.proc.pending, i);
    AnswerView(Chans(e.proc), req.localCid.value, m);
    LinkAfterAnswer(Chans(e.proc), req.localCid.value, m, e.handle);
  }

  /** An answer to a configuration request, found or not, does not show on the view. */
  lemma ConfiguredView(e: Endpoint, m: SignalingCommand)
    requires EndOk(e) && m.ConfigurationResponse?
    ensures var (q, r) := HandleCommand(e.proc, m, e.peer, e.handle);
            EndOk(e.(proc := q)) && View(q) == View(e.proc) && (r.Ok? ==> r.value.None?)
  {
    var i := AnsweredIndex(e.proc, m);
    ResponseEffect(e.proc, m, e.peer, e.handle);
    CoherentAfterResponse(e.proc, m, e.peer, e.handle);
    if i < |e.proc.pending| {
      var cid := e.proc.pending[i].localCid.value;
      DistinctKeysRemoval(e.proc.pending, i);
      AskedOfRemoval(e.proc.pending, i);
      AnswerView(Chans(e.proc), cid, m);
      LinkAfterAnswer(Chans(e.proc), cid, m, e.handle);
    }
  }

  lemma ReceiveConfiguredJoined(s: System)
    requires Joined(s) && s.ba != [] && s.ba[0].ConfigurationResponse?
    ensures Joined(StepA(s, DoReceive))
  {
    var (p, r) := HandleCommand(s.a.proc, s.ba[0], s.a.peer, s.a.handle);
    Parted(s);
    ConfiguredView(s.a, s.ba[0]);
    PopInert(View(s.a.proc), View(s.b.proc), s.ab, s.ba);
    Rejoin(s, p, Replied(r), s.ba[1..]);
    Received(s);
  }

  lemma AnswerBoth(x: Party, y: Party, q: Queue, r: Queue, req: PendingRequest)
    requires Both(x, y, q, r) && Answer(x, r, req) && SentFor(req, r[0])
    ensures Both(AfterTaken(x, req, r[0]), y, q, r[1..])
  {
    var cid := req.localCid.value;
    match r[0] {
      case ConnectionResponse(_, dst, _, result, _) =>
        if result.ConnSuccess? {
          WaitingChannel(x, y, q, r, req);
          AnswerConnected(x, y, q, r, req, cid);
        } else {
          AnswerRefused(x, y, q, r, req);
        }
      case DisconnectionResponse(_, _, _) =>
        AnswerDisconnected(x, y, q, r, req, cid);
    }
  }

  lemma WaitingChannel(x: Party, y: Party, q: Queue, r: Queue, req: PendingRequest)
    requires Both(x, y, q, r) && req in x.asked && req.code.ConnReq?
    ensures req.localCid.Some? && req.localCid.value in x.remote && x.remote[req.localCid.value].None?
  {
    assert SoleOwner(x, req);
  }

  lemma AnswerTaken(s: System, p: Proc, r: Reply, req: PendingRequest)
    requires Joined(s) && s.ba != [] && Answering(s.ba[0]) && EndOk(s.a.(proc := p)) && r == Ok(None)
    requires req in View(s.a.proc).asked && SentFor(req, s.ba[0])
    requires View(p) == AfterTaken(View(s.a.proc), req, s.ba[0])
    ensures Joined(Sent(s.(ba := s.ba[1..]), p, Replied(r)))
  {
    Parted(s);
    AnswerBoth(View(s.a.proc), View(s.b.proc), s.ab, s.ba, req);
    Rejoin(s, p, None, s.ba[1..]);
  }

  lemma AnswerTracked(s: System)
    requires Joined(s) && s.ba != [] && Answering(s.ba[0])
    ensures EndOk(s.a) && Tracked(View(s.a.proc).asked, s.ba[0])
  {
    Parted(s);
    HeadTracked(View(s.a.proc), View(s.b.proc), s.ab, s.ba);
  }

  /** What the answer at the head does to its receiver, on the view. */
  lemma HeadAnswerView(s: System) returns (req: PendingRequest)
    requires Joined(s) && s.ba != [] && Answering(s.ba[0])
    ensures req in View(s.a.proc).asked && SentFor(req, s.ba[0])
    ensures var (p, r) := HandleCommand(s.a.proc, s.ba[0], s.a.peer, s.a.handle);
            EndOk(s.a.(proc := p)) && r == Ok(None) && View(p) == AfterTaken(View(s.a.proc), req, s.ba[0])
  {
    AnswerTracked(s);
    req := ResponseView(s.a, s.ba[0]);
  }

  lemma ReceiveAnswerJoined(s: System)
    requires Joined(s) && s.ba != [] && Answering(s.ba[0])
    ensures Joined(StepA(s, DoReceive))
  {
    var req := HeadAnswerView(s);
    var (p, r) := HandleCommand(s.a.proc, s.ba[0], s.a.peer, s.a.handle);
    AnswerTaken(s, p, r, req);
    Received(s);
  }

  lemma ReceiveJoined(s: System)
    requires Joined(s) && TimelyA(s, DoReceive) && s.ba != []
    ensures Joined(StepA(s, DoReceive))
  {
    Parted(s);
    match s.ba[0] {
      case ConnectionRequest(_, psm, _) =>
        if psm == AVDTP_PSM {
          AcceptJoined(s);
        } else {
          RejectJoined(s);
        }
      case ConfigurationRequest(_, _, _, _) => ReceiveConfigureJoined(s);
      case DisconnectionRequest(_, _, _) => ReceiveDisconnectJoined(s);
      case ConfigurationResponse(_, _, _, _, _) => ReceiveConfiguredJoined(s);
      case _ => ReceiveAnswerJoined(s);
    }
  }

  lemma JoinedStepA(s: System, action: Action)
    requires Joined(s) && TimelyA(s, action)
    ensures Joined(StepA(s, action))
  {
    match action {
      case DoConnect(psm) => ConnectJoined(s, psm);
      case DoConfigure(cid, options) => ConfigureJoined(s, cid, options);
      case DoDisconnect(cid) => DisconnectJoined(s, cid);
      case DoReceive =>
        if s.ba != [] {
          ReceiveJoined(s);
        }
    }
  }

  lemma JoinedStep(s: System, e: Event)
    requires Joined(s) && Timely(s, e)
    ensures Joined(Step(s, e))
  {
    match e {
      case AtA(action) => JoinedStepA(s, action);
      case AtB(action) => JoinedStepA(Swap(s), action);
    }
  }

  lemma JoinedInitially(peerOfA: Address, handleA: u16, peerOfB: Address, handleB: u16)
    ensures Joined(NewSystem(peerOfA, handleA, peerOfB, handleB))
  {
    CoherentInitially();
  }

  lemma {:induction false} RunsStayJoined(s: System, events: seq<Event>)
    requires Joined(s) && TimelyRun(s, events)
    ensures Joined(RunSystem(s, events))
    decreases |events|
  {
    if events != [] {
      JoinedStep(s, events[0]);
      RunsStayJoined(Step(s, events[0]), events[1..]);
    }
  }

  // ----- The theorems -----

  /**
   Channel `cid` of `e` refers to the peer's channel b: then b refers back to it;
   or the acceptance that announces it is on its way to the peer; or the answer to
   its own disconnection is on its way back.
   */
  ghost predicate Agrees(e: Endpoint, peer: Endpoint, out: Queue, back: Queue, cid: u16)
    requires cid in Chans(e.proc) && Chans(e.proc)[cid].remoteCid.Some?
  {
    var b := Chans(e.proc)[cid].remoteCid.value;
    || (b in Chans(peer.proc) && Chans(peer.proc)[b].remoteCid == Some(cid))
    || Announced(out, cid, b)
    || Released(back, |back|, cid)
  }

  ghost predicate AllAgree(e: Endpoint, peer: Endpoint, out: Queue, back: Queue) {
    forall cid :: cid in Chans(e.proc) && Chans(e.proc)[cid].remoteCid.Some? ==> Agrees(e, peer, out, back, cid)
  }

  lemma JoinedAgrees(s: System)
    requires Joined(s)
    ensures AllAgree(s.a, s.b, s.ab, s.ba)
  {
    var x, y := View(s.a.proc), View(s.b.proc);
    forall cid | cid in Chans(s.a.proc) && Chans(s.a.proc)[cid].remoteCid.Some?
      ensures Agrees(s.a, s.b, s.ab, s.ba, cid)
    {
      assert cid in x.remote && Paired(y, s.ab, s.ba, cid, x.remote[cid].value);
    }
  }

  /** In every state that a timely run of two new processors reaches, the two sides agree on every channel. */
  lemma TwoPartyAgreement(peerOfA: Address, handleA: u16, peerOfB: Address, handleB: u16, events: seq<Event>)
    requires TimelyRun(NewSystem(peerOfA, handleA, peerOfB, handleB), events)
    ensures var s := RunSystem(NewSystem(peerOfA, handleA, peerOfB, handleB), events);
            AllAgree(s.a, s.b, s.ab, s.ba) && AllAgree(s.b, s.a, s.ba, s.ab)
  {
    JoinedInitially(peerOfA, handleA, peerOfB, handleB);
    RunsStayJoined(NewSystem(peerOfA, handleA, peerOfB, handleB), events);
    var s := RunSystem(NewSystem(peerOfA, handleA, peerOfB, handleB), events);
    JoinedAgrees(s);
    JoinedAgrees(Swap(s));
  }

  /** Once nothing is in flight, the connected channels of the two sides are matched one to one. */
  lemma QuietMeansMatched(s: System, a: u16, b: u16)
    requires Joined(s) && s.ab == [] && s.ba == []
    ensures (a in Chans(s.a.proc) && Chans(s.a.proc)[a].remoteCid == Some(b))
            <==> (b in Chans(s.b.proc) && Chans(s.b.proc)[b].remoteCid == Some(a))
  {
    JoinedAgrees(s);
    JoinedAgrees(Swap(s));
    assert a in Chans(s.a.proc) && Chans(s.a.proc)[a].remoteCid == Some(b) ==> Agrees(s.a, s.b, s.ab, s.ba, a);
    assert b in Chans(s.b.proc) && Chans(s.b.proc)[b].remoteCid == Some(a) ==> Agrees(s.b, s.a, s.ba, s.ab, b);
  }

  // ----- Timeliness is exactly what the invariant needs -----

  lemma PushedKeyFresh(p: Proc, q: Proc, r: PendingRequest)
    requires q.pending == p.pending + [r] && r.identifier == p.nextId && !r.code.ConfReq? && DistinctKeys(q.pending)
    ensures FreshKey(p, r.code)
  {
    forall i | 0 <= i < |p.pending| && p.pending[i].code == r.code ensures p.pending[i].identifier != p.nextId {
      assert q.pending[i] == p.pending[i] && q.pending[|p.pending|] == r;
    }
  }

  lemma PushedCidFree(p: Proc, q: Proc, r: PendingRequest)
    requires q.pending == p.pending + [r] && r.localCid == Some(AllocatedCid(p.manager)) && r.code == ConnReq
    requires DistinctKeys(q.pending) && Waits(View(q))
    ensures FreeCid(p)
  {
    assert q.pending[|p.pending|] == r && r in AskedOf(q.pending);
    assert SoleOwner(View(q), r);
    forall i | 0 <= i < |p.pending| && !p.pending[i].code.ConfReq? ensures p.pending[i].localCid != r.localCid {
      assert q.pending[i] == p.pending[i] && p.pending[i] in AskedOf(q.pending);
      assert p.pending[i].code == r.code ==> q.pending[i].identifier != r.identifier;
    }
  }

  /** An acceptance that reuses the CID of an outstanding disconnection breaks the order of the messages about it. */
  lemma AcceptanceClashes(x: Party, q: Queue, r: Queue, s: PendingRequest, m: SignalingCommand)
    requires Ids(x, q, r) && s in x.asked && s.localCid.Some? && s.localCid.value !in x.remote
    requires r != [] && !Answering(r[0]) && Intro(m, s.localCid.value) && !s.code.ConfReq?
    requires s.code.ConnReq? || s.code.DiscReq?
    ensures !(InOrder(q + [m]) && Unmentioned(q + [m], r[1..]))
  {
    var p, t := q + [m], r[1..];
    assert s.code.ConnReq? ==> SoleOwner(x, s);
    if i :| 0 <= i < |q| && AsksFor(q[i], s) {
      assert p[i] == q[i] && p[|q|] == m;
      assert Intro(p[|q|], p[i].sourceCid);
    } else {
      var j :| 0 <= j < |r| && AnswersTo(r[j], s);
      assert t[j - 1] == r[j] && p[|q|] == m;
      assert Intro(p[|q|], t[j - 1].destinationCid);
    }
  }

  lemma UnfreeRequest(e: Endpoint) returns (r: PendingRequest)
    requires EndOk(e) && !FreeCid(e.proc)
    ensures r in View(e.proc).asked && r.localCid == Some(AllocatedCid(e.proc.manager)) && !r.code.ConfReq?
    ensures r.code.ConnReq? || r.code.DiscReq?
  {
    var p := e.proc;
    var i :| 0 <= i < |p.pending| && !p.pending[i].code.ConfReq?
        && p.pending[i].localCid == Some(AllocatedCid(p.manager));
    r := p.pending[i];
    assert RequestOk(r);
  }

  lemma SentApart(s: System, p: Proc, m: SignalingCommand, ba: Queue)
    requires Joined(Sent(s.(ba := ba), p, Some(m)))
    ensures InOrder(s.ab + [m]) && Unmentioned(s.ab + [m], ba)
  {
  }

  lemma ReuseClashes(s: System, p: Proc, cid: u16)
    requires Joined(s) && s.ba != [] && s.ba[0].ConnectionRequest?
    requires !FreeCid(s.a.proc) && cid == AllocatedCid(s.a.proc.manager) && cid !in View(s.a.proc).remote
    ensures !Joined(Sent(s.(ba := s.ba[1..]), p, Some(Acceptance(s.ba[0], cid))))
  {
    Parted(s);
    var named := UnfreeRequest(s.a);
    AcceptanceClashes(View(s.a.proc), s.ab, s.ba, named, Acceptance(s.ba[0], cid));
    if Joined(Sent(s.(ba := s.ba[1..]), p, Some(Acceptance(s.ba[0], cid)))) {
      SentApart(s, p, Acceptance(s.ba[0], cid), s.ba[1..]);
    }
  }

  lemma AcceptNeedsFreeCid(s: System)
    requires Joined(s) && !TimelyA(s, DoReceive)
    ensures !Joined(StepA(s, DoReceive))
  {
    Parted(s);
    OpenView(s.a, s.ba[0]);
    Received(s);
    ReuseClashes(s, HandleCommand(s.a.proc, s.ba[0], s.a.peer, s.a.handle).0, AllocatedCid(s.a.proc.manager));
  }

  lemma SentDistinct(s: System, p: Proc, m: Option<SignalingCommand>)
    requires Joined(Sent(s, p, m))
    ensures DistinctKeys(p.pending) && Waits(View(p))
  {
  }

  lemma ConnectNeedsTimely(s: System, psm: u16)
    requires Coherent(s.a.proc) && Joined(StepA(s, DoConnect(psm)))
    ensures TimelyA(s, DoConnect(psm))
  {
    var p := s.a.proc;
    var (q, r) := Connect(p, psm, s.a.peer, s.a.handle);
    ConnectEffect(p, psm, s.a.peer, s.a.handle);
    SentDistinct(s, q, if r.Ok? then Some(r.value.1) else None);
    if r.Ok? {
      PushedKeyFresh(p, q, q.pending[|p.pending|]);
      PushedCidFree(p, q, q.pending[|p.pending|]);
    }
  }

  lemma DisconnectNeedsTimely(s: System, cid: u16)
    requires Coherent(s.a.proc) && Joined(StepA(s, DoDisconnect(cid)))
    ensures TimelyA(s, DoDisconnect(cid))
  {
    var p := s.a.proc;
    var (q, r) := Disconnect(p, cid);
    DisconnectEffect(p, cid);
    SentDistinct(s, q, Built(r));
    if r.Ok? {
      PushedKeyFresh(p, q, q.pending[|p.pending|]);
    }
  }

  lemma CallNeedsTimely(s: System, action: Action)
    requires Joined(s) && !action.DoReceive? && Joined(StepA(s, action))
    ensures TimelyA(s, action)
  {
    match action {
      case DoConnect(psm) => ConnectNeedsTimely(s, psm);
      case DoConfigure(_, _) =>
      case DoDisconnect(cid) => DisconnectNeedsTimely(s, cid);
    }
  }

  /** An action keeps the two-party invariant if and only if it is timely. */
  lemma StepKeepsJoinedExactly(s: System, e: Event)
    requires Joined(s)
    ensures Joined(Step(s, e)) <==> Timely(s, e)
  {
    var (t, action) := if e.AtA? then (s, e.action) else (Swap(s), e.action);
    if TimelyA(t, action) {
      JoinedStepA(t, action);
    } else if action.DoReceive? {
      AcceptNeedsFreeCid(t);
    } else if Joined(StepA(t, action)) {
      CallNeedsTimely(t, action);
    }
  }

  /** m's source CID names a channel without remote CID, and that channel alone is updated. */
  ghost predicate UpdatesItsSource(before: map<u16, L2capChannel>, after: map<u16, L2capChannel>, m: SignalingCommand)
    requires m.ConnectionResponse?
  {
    && m.sourceCid in before && before[m.sourceCid].remoteCid.None?
    && var c := before[m.sourceCid];
    && after == before[m.sourceCid := if m.result == ConnSuccess
                                      then c.(remoteCid := Some(m.destinationCid), state := Config)
                                      else c.(state := Closed)]
  }

  /**
   A delivered connection response finds its request, and updates exactly the
   channel that its source CID names, which was waiting for it; nothing is sent.
   */
  lemma ResponseUpdatesItsSource(s: System)
    requires Joined(s) && s.ba != [] && s.ba[0].ConnectionResponse?
    ensures UpdatesItsSource(Chans(s.a.proc), Chans(StepA(s, DoReceive).a.proc), s.ba[0])
    ensures StepA(s, DoReceive).ab == s.ab
  {
    AnswerTracked(s);
    SourceWaits(s);
    ResponseToSource(s.a, s.ba[0]);
  }

  lemma SourceWaits(s: System)
    requires Joined(s) && s.ba != [] && s.ba[0].ConnectionResponse?
    ensures WaitsAt(View(s.a.proc), s.ba[0].sourceCid)
  {
    Parted(s);
    WaitingSources(View(s.a.proc), View(s.b.proc), s.ab, s.ba);
  }

  ghost predicate WaitsAt(x: Party, cid: u16) {
    cid in x.remote && x.remote[cid].None?
  }

  lemma WaitingSources(x: Party, y: Party, q: Queue, r: Queue)
    requires Both(x, y, q, r) && r != [] && r[0].ConnectionResponse?
    ensures WaitsAt(x, r[0].sourceCid)
  {
    HeadTracked(x, y, q, r);
    WaitingChannel(x, y, q, r, PendingRequest(r[0].header.identifier, Some(r[0].sourceCid), ConnReq));
  }

  lemma ResponseToSource(e: Endpoint, m: SignalingCommand)
    requires EndOk(e) && m.ConnectionResponse? && Tracked(View(e.proc).asked, m)
    requires WaitsAt(View(e.proc), m.sourceCid)
    ensures var (q, r) := HandleCommand(e.proc, m, e.peer, e.handle);
            r == Ok(None) && UpdatesItsSource(Chans(e.proc), Chans(q), m)
  {
    var req := ResponseView(e, m);
  }
}
