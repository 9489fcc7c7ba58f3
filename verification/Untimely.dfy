/** What an untimely action leads to: runs that end with nothing in flight and channels that do not match. */
module Untimely {
  import opened Wrappers
  import opened Words
  import opened IndexMap
  import opened Channel
  import opened Packet
  import opened Signaling
  import opened Processor
  import opened ProcessorRuns
  import opened PendingRuns
  import opened Agreement
  import opened Duplex
  import opened Counting
  import opened Reuse

  // ----- What one side does -----

  lemma StaysCoherent(s: System, action: Action)
    requires Coherent(s.a.proc)
    ensures Coherent(StepA(s, action).a.proc)
  {
    StepPerformsOp(s, action);
    match OpOf(s, action) {
      case None =>
      case Some(op) => CoherentStep(s.a.proc, op);
    }
  }

  /** Everything but the acting processor and the two queues stays. */
  ghost predicate Frame(s: System, t: System) {
    t.b == s.b && t.a.peer == s.a.peer && t.a.handle == s.a.handle
  }

  lemma ActConnect(s: System, psm: u16)
    requires Coherent(s.a.proc) && !Full(s.a.proc) && |s.a.proc.pending| < MAX_PENDING_REQUESTS
    ensures var t, p, cid := StepA(s, DoConnect(psm)), s.a.proc, AllocatedCid(s.a.proc.manager);
            && Frame(s, t) && Coherent(t.a.proc) && t.ba == s.ba && cid !in Chans(p)
            && t.ab == s.ab + [ConnectionRequest(SignalingHeader(ConnReq, p.nextId, 4), psm, cid)]
            && t.a.proc.pending == p.pending + [PendingRequest(p.nextId, Some(cid), ConnReq)]
            && t.a.proc.nextId == NextId(p.nextId)
            && t.a.proc.manager.nextLocalCid == Allocate(p.manager).0.nextLocalCid
            && Chans(t.a.proc) == Chans(p)[cid := Waiting(cid, psm, s.a.peer, s.a.handle)]
  {
    ConnectEffect(s.a.proc, psm, s.a.peer, s.a.handle);
    StaysCoherent(s, DoConnect(psm));
  }

  lemma ActFailingConnect(s: System, psm: u16)
    requires Coherent(s.a.proc) && Full(s.a.proc)
    ensures var t, p := StepA(s, DoConnect(psm)), s.a.proc;
            && Frame(s, t) && Coherent(t.a.proc) && t.ab == s.ab && t.ba == s.ba
            && t.a.proc.pending == p.pending && Chans(t.a.proc) == Chans(p)
            && t.a.proc.manager.nextLocalCid == Allocate(p.manager).0.nextLocalCid
  {
    ConnectEffect(s.a.proc, psm, s.a.peer, s.a.handle);
    StaysCoherent(s, DoConnect(psm));
  }

  lemma ActDisconnect(s: System, cid: u16)
    requires Coherent(s.a.proc) && cid in Chans(s.a.proc) && Chans(s.a.proc)[cid].remoteCid.Some?
    requires |s.a.proc.pending| < MAX_PENDING_REQUESTS
    ensures var t, p := StepA(s, DoDisconnect(cid)), s.a.proc;
            && Frame(s, t) && Coherent(t.a.proc) && t.ba == s.ba
            && t.ab == s.ab
               + [DisconnectionRequest(SignalingHeader(DiscReq, p.nextId, 4), Chans(p)[cid].remoteCid.value, cid)]
            && t.a.proc.pending == p.pending + [PendingRequest(p.nextId, Some(cid), DiscReq)]
            && t.a.proc.nextId == NextId(p.nextId)
            && t.a.proc.manager.nextLocalCid == p.manager.nextLocalCid
            && Chans(t.a.proc) == Chans(p)[cid := Chans(p)[cid].(state := WaitDisconnect)]
  {
    DisconnectEffect(s.a.proc, cid);
    StaysCoherent(s, DoDisconnect(cid));
  }

  /** The channel cid is the only one with that remote CID on the link. */
  ghost predicate OnlyPeerOf(e: Endpoint, cid: u16, remote: u16) {
    && cid in Chans(e.proc) && HasRemote(Chans(e.proc)[cid], remote, e.handle)
    && forall other :: other in Chans(e.proc) && other != cid ==> Chans(e.proc)[other].remoteCid != Some(remote)
  }

  lemma ActReceiveDisconnect(s: System, cid: u16)
    requires Coherent(s.a.proc) && s.ba != [] && s.ba[0].DisconnectionRequest?
    requires OnlyPeerOf(s.a, cid, s.ba[0].sourceCid)
    ensures var t, p, m := StepA(s, DoReceive), s.a.proc, s.ba[0];
            && Frame(s, t) && Coherent(t.a.proc) && t.ba == s.ba[1..]
            && t.ab == s.ab + [DisconnectionResponse(SignalingHeader(DiscRsp, m.header.identifier, 4), m.sourceCid,
                                                     m.destinationCid)]
            && t.a.proc.pending == p.pending && t.a.proc.nextId == p.nextId
            && t.a.proc.manager.nextLocalCid == p.manager.nextLocalCid
            && Chans(t.a.proc) == Chans(p) - {cid}
  {
    var m := s.ba[0];
    var removed := DisconnectionRequestEffect(s.a.proc, m.header, m.destinationCid, m.sourceCid, s.a.handle);
    StaysCoherent(s, DoReceive);
  }

  lemma ActReceiveConnect(s: System)
    requires Coherent(s.a.proc) && s.ba != [] && s.ba[0].ConnectionRequest?
    requires s.ba[0].psm == AVDTP_PSM ==> !Full(s.a.proc)
    ensures var t, p, m, cid := StepA(s, DoReceive), s.a.proc, s.ba[0], AllocatedCid(s.a.proc.manager);
            var accepted := m.psm == AVDTP_PSM;
            && Frame(s, t) && Coherent(t.a.proc) && t.ba == s.ba[1..] && cid !in Chans(p)
            && t.ab == s.ab + [ConnectionResponse(SignalingHeader(ConnRsp, m.header.identifier, 8),
                                                  if accepted then cid else 0, m.sourceCid,
                                                  if accepted then ConnSuccess else PsmNotSupported, 0)]
            && t.a.proc.pending == p.pending && t.a.proc.nextId == p.nextId
            && Chans(t.a.proc)
               == (if accepted then Chans(p)[cid := Incoming(cid, m.sourceCid, m.psm, s.a.peer, s.a.handle)]
                   else Chans(p))
  {
    var m := s.ba[0];
    ConnectionRequestEffect(s.a.proc, m.header, m.psm, m.sourceCid, s.a.peer, s.a.handle);
    StaysCoherent(s, DoReceive);
  }

  /** The response at the head answers the pending entry i. */
  lemma ActReceiveAnswer(s: System, i: nat)
    requires Coherent(s.a.proc) && s.ba != [] && IsResponse(s.ba[0])
    requires i < |s.a.proc.pending| && i == AnsweredIndex(s.a.proc, s.ba[0])
    ensures var t, p, m := StepA(s, DoReceive), s.a.proc, s.ba[0];
            && Frame(s, t) && Coherent(t.a.proc) && t.ba == s.ba[1..] && t.ab == s.ab
            && t.a.proc.pending == SwapRemove(p.pending, i) && t.a.proc.nextId == p.nextId
            && t.a.proc.manager.nextLocalCid == p.manager.nextLocalCid
            && p.pending[i].localCid.Some?
            && Chans(t.a.proc) == AfterAnswer(Chans(p), p.pending[i].localCid.value, m)
  {
    ResponseEffect(s.a.proc, s.ba[0], s.a.peer, s.a.handle);
    StaysCoherent(s, DoReceive);
  }

  /** A disconnection request drops at most one channel, and is always answered. */
  lemma ActReceiveAnyDisconnect(s: System)
    requires Coherent(s.a.proc) && s.ba != [] && s.ba[0].DisconnectionRequest?
    ensures var t, p, m := StepA(s, DoReceive), s.a.proc, s.ba[0];
            && Frame(s, t) && Coherent(t.a.proc) && t.ba == s.ba[1..] && t.a.proc.pending == p.pending
            && t.ab == s.ab + [DisconnectionResponse(SignalingHeader(DiscRsp, m.header.identifier, 4),
                                                     m.sourceCid, m.destinationCid)]
            && Chans(t.a.proc).Keys <= Chans(p).Keys
            && (forall cid :: cid in Chans(p) && Chans(p)[cid].remoteCid.None? ==>
                                cid in Chans(t.a.proc) && Chans(t.a.proc)[cid] == Chans(p)[cid])
  {
    var m := s.ba[0];
    var removed := DisconnectionRequestEffect(s.a.proc, m.header, m.destinationCid, m.sourceCid, s.a.handle);
    StaysCoherent(s, DoReceive);
  }

  /** An answer opens no channel, whatever it finds. */
  lemma ActReceiveAnyAnswer(s: System)
    requires Coherent(s.a.proc) && s.ba != [] && IsResponse(s.ba[0])
    ensures var t := StepA(s, DoReceive);
            && Frame(s, t) && Coherent(t.a.proc) && t.ba == s.ba[1..] && t.ab == s.ab
            && Chans(t.a.proc).Keys <= Chans(s.a.proc).Keys
  {
    ResponseEffect(s.a.proc, s.ba[0], s.a.peer, s.a.handle);
    StaysCoherent(s, DoReceive);
  }

  lemma FullIsEight(p: Proc)
    requires Coherent(p)
    ensures Full(p) <==> |Chans(p)| == MAX_L2CAP_CHANNELS
    ensures |Chans(p)| <= MAX_L2CAP_CHANNELS
  {
    AsMapSize(p.manager.channels);
  }

  lemma StaysRoomy(p: Proc, q: Proc)
    requires Coherent(p) && Coherent(q) && Chans(q).Keys <= Chans(p).Keys && !Full(p)
    ensures !Full(q)
  {
    FullIsEight(p);
    FullIsEight(q);
    CardinalityOfSubset(Chans(q).Keys, Chans(p).Keys);
    assert |Chans(q).Keys| == |Chans(q)| && |Chans(p).Keys| == |Chans(p)|;
  }

  /** The channel c of side b refers to a CID side a does not have, and nothing is in flight. */
  ghost predicate Unmatched(s: System, c: u16) {
    && s.ab == [] && s.ba == []
    && c in Chans(s.b.proc) && Chans(s.b.proc)[c].remoteCid.Some?
    && Chans(s.b.proc)[c].remoteCid.value !in Chans(s.a.proc)
  }

  lemma UnmatchedDisagrees(s: System, c: u16)
    requires Unmatched(s, c)
    ensures !AllAgree(s.b, s.a, s.ba, s.ab)
  {
    assert !Agrees(s.b, s.a, s.ba, s.ab, c);
  }

  /** The outstanding disconnection d is the one an answer to it finds. */
  lemma AnswerFinds(pending: seq<PendingRequest>, more: seq<PendingRequest>, d: PendingRequest) returns (i: nat)
    requires DistinctKeys(pending) && d in pending && !d.code.ConfReq? && pending <= more
    ensures i == FindPending(more, d.identifier, d.code) && i < |pending| && more[i] == d
  {
    var k :| 0 <= k < |pending| && pending[k] == d;
    i := FindPending(more, d.identifier, d.code);
    FindPendingFirst(more, d.identifier, d.code, k);
    assert more[..|pending|] == pending;
    assert more[i] == pending[i];
  }

  // ----- A CID that an outstanding disconnection names, taken by a connect -----

  /** d is outstanding at side a, about a CID it has no channel for. */
  ghost predicate Stale(s: System, d: PendingRequest, cid: u16) {
    && Coherent(s.a.proc) && Coherent(s.b.proc) && DistinctKeys(s.a.proc.pending)
    && d in s.a.proc.pending && d.code.DiscReq? && d.localCid == Some(cid)
  }

  /** A new request is out about the CID of d; the answer to d is still ahead. */
  ghost predicate Overtaken(s: System, d: PendingRequest, cid: u16) {
    && Coherent(s.a.proc) && Coherent(s.b.proc) && !Full(s.b.proc)
    && |s.ab| == 1 && s.ab[0].ConnectionRequest? && s.ab[0].psm == AVDTP_PSM && s.ab[0].sourceCid == cid
    && |s.ba| == 1 && AnswersTo(s.ba[0], d)
    && d.localCid == Some(cid) && FindPending(s.a.proc.pending, d.identifier, DiscReq) < |s.a.proc.pending|
    && s.a.proc.pending[FindPending(s.a.proc.pending, d.identifier, DiscReq)] == d
  }

  lemma OvertakenUnmatched(s: System, d: PendingRequest, cid: u16)
    requires Overtaken(s, d, cid)
    ensures Unmatched(Step(Step(Step(s, AtB(DoReceive)), AtA(DoReceive)), AtA(DoReceive)),
                      AllocatedCid(s.b.proc.manager))
  {
    ActReceiveConnect(Swap(s));
    var t := Step(s, AtB(DoReceive));
    assert t.ba[0] == s.ba[0];
    var i := FindPending(s.a.proc.pending, d.identifier, DiscReq);
    assert AnsweredIndex(t.a.proc, t.ba[0]) == i;
    ActReceiveAnswer(t, i);
    var u := Step(t, AtA(DoReceive));
    assert u.ba == [t.ba[1]];
    ActReceiveAnyAnswer(u);
  }

  /** The request of d is delivered: its answer is on the way back. */
  lemma RequestDelivered(s: System, d: PendingRequest)
    requires Coherent(s.b.proc) && !Full(s.b.proc) && s.ab != [] && AsksFor(s.ab[0], d) && s.ba == []
    ensures var t := Step(s, AtB(DoReceive));
            && t.a == s.a && t.ab == s.ab[1..] && |t.ba| == 1 && AnswersTo(t.ba[0], d)
            && Coherent(t.b.proc) && !Full(t.b.proc)
  {
    ActReceiveAnyDisconnect(Swap(s));
    StaysRoomy(s.b.proc, Step(s, AtB(DoReceive)).b.proc);
  }

  ghost predicate ConnectReuses(s: System, d: PendingRequest) {
    && Stale(s, d, AllocatedCid(s.a.proc.manager)) && !Full(s.b.proc)
    && Connect(s.a.proc, AVDTP_PSM, s.a.peer, s.a.handle).1.Ok?
  }

  lemma SentRoom(p: Proc, psm: u16, addr: Address, h: u16)
    requires Coherent(p) && Connect(p, psm, addr, h).1.Ok?
    ensures !Full(p) && |p.pending| < MAX_PENDING_REQUESTS
  {
    ConnectEffect(p, psm, addr, h);
  }

  /** The connect is out; the exchange of d is where it was. */
  lemma Retaken(s: System, d: PendingRequest)
    requires ConnectReuses(s, d)
    ensures var t, cid := Step(s, AtA(DoConnect(AVDTP_PSM))), AllocatedCid(s.a.proc.manager);
            && t.b == s.b && t.ba == s.ba && Coherent(t.a.proc)
            && |t.ab| == |s.ab| + 1 && s.ab <= t.ab
            && t.ab[|s.ab|].ConnectionRequest? && t.ab[|s.ab|].psm == AVDTP_PSM && t.ab[|s.ab|].sourceCid == cid
            && FindPending(t.a.proc.pending, d.identifier, DiscReq) < |t.a.proc.pending|
            && t.a.proc.pending[FindPending(t.a.proc.pending, d.identifier, DiscReq)] == d
  {
    SentRoom(s.a.proc, AVDTP_PSM, s.a.peer, s.a.handle);
    ActConnect(s, AVDTP_PSM);
    var i := AnswerFinds(s.a.proc.pending, Step(s, AtA(DoConnect(AVDTP_PSM))).a.proc.pending, d);
  }

  const CONNECT := AtA(DoConnect(AVDTP_PSM))

  /** The answer to d is the only message in flight. */
  lemma ConnectBeforeAnswer(s: System, d: PendingRequest)
    requires ConnectReuses(s, d) && s.ab == [] && |s.ba| == 1 && AnswersTo(s.ba[0], d)
    ensures var t := Step(s, CONNECT);
            Unmatched(Step(Step(Step(t, AtB(DoReceive)), AtA(DoReceive)), AtA(DoReceive)),
                      AllocatedCid(t.b.proc.manager))
  {
    Retaken(s, d);
    OvertakenUnmatched(Step(s, CONNECT), d, AllocatedCid(s.a.proc.manager));
  }

  /** The request of d is the only message in flight. */
  lemma ConnectBeforeRequest(s: System, d: PendingRequest)
    requires ConnectReuses(s, d) && |s.ab| == 1 && AsksFor(s.ab[0], d) && s.ba == []
    ensures var t := Step(Step(s, CONNECT), AtB(DoReceive));
            Unmatched(Step(Step(Step(t, AtB(DoReceive)), AtA(DoReceive)), AtA(DoReceive)),
                      AllocatedCid(t.b.proc.manager))
  {
    Retaken(s, d);
    var t := Step(s, CONNECT);
    RequestDelivered(t, d);
    assert t.ab[1..] == [t.ab[1]];
    OvertakenUnmatched(Step(t, AtB(DoReceive)), d, AllocatedCid(s.a.proc.manager));
  }

  lemma RunThree(s: System, e: Event, f: Event, g: Event)
    ensures RunSystem(s, [e, f, g]) == Step(Step(Step(s, e), f), g)
  {
    assert [e, f, g][1..] == [f, g] && [f, g][1..] == [g] && [g][1..] == [];
    var u := Step(Step(s, e), f);
    assert RunSystem(u, [g]) == RunSystem(Step(u, g), []);
    assert RunSystem(Step(s, e), [f, g]) == RunSystem(u, [g]);
  }

  lemma RunMore(s: System, e: Event, events: seq<Event>)
    ensures RunSystem(s, [e] + events) == RunSystem(Step(s, e), events)
  {
    assert ([e] + events)[1..] == events;
  }

  /** Exactly one message is in flight, and it belongs to the disconnection d of side a. */
  ghost predicate OnlyInFlight(s: System, d: PendingRequest) {
    || (s.ab == [] && |s.ba| == 1 && AnswersTo(s.ba[0], d))
    || (|s.ab| == 1 && AsksFor(s.ab[0], d) && s.ba == [])
  }

  /** In a joined system, one message in flight and a disconnection outstanding means this message. */
  lemma OneInFlight(s: System, d: PendingRequest)
    requires Joined(s) && d in View(s.a.proc).asked && d.code.DiscReq? && |s.ab| + |s.ba| == 1
    ensures OnlyInFlight(s, d)
  {
    Parted(s);
    assert InFlight(d, s.ab, s.ba);
  }

  lemma StaleRequest(s: System) returns (d: PendingRequest)
    requires Joined(s) && !FreeCid(s.a.proc)
    ensures Stale(s, d, AllocatedCid(s.a.proc.manager)) && d in View(s.a.proc).asked
  {
    Parted(s);
    d := UnfreeRequest(s.a);
    NextCidFree(s.a.proc.manager);
    assert d.code.ConnReq? ==> SoleOwner(View(s.a.proc), d);
  }

  /**
   A connect that takes the CID of an outstanding disconnection: in every joined
   system with nothing else in flight, and room at the peer, it leads to a state
   with nothing in flight in which a channel of the peer is unmatched.
   */
  lemma ConnectReuseUnmatches(s: System) returns (events: seq<Event>)
    requires Joined(s) && !FreeCid(s.a.proc) && |s.ab| + |s.ba| == 1 && !Full(s.b.proc)
    requires Connect(s.a.proc, AVDTP_PSM, s.a.peer, s.a.handle).1.Ok?
    ensures var t := RunSystem(s, [CONNECT] + events);
            t.ab == [] && t.ba == [] && !AllAgree(t.b, t.a, t.ba, t.ab)
  {
    var d := StaleRequest(s);
    OneInFlight(s, d);
    var t := Step(s, CONNECT);
    var last := [AtB(DoReceive), AtA(DoReceive), AtA(DoReceive)];
    if s.ab == [] {
      ConnectBeforeAnswer(s, d);
      events := last;
    } else {
      ConnectBeforeRequest(s, d);
      RunMore(t, AtB(DoReceive), last);
      events := [AtB(DoReceive)] + last;
      t := Step(t, AtB(DoReceive));
    }
    RunMore(s, CONNECT, events);
    RunThree(t, AtB(DoReceive), AtA(DoReceive), AtA(DoReceive));
    UnmatchedDisagrees(RunSystem(t, last), AllocatedCid(t.b.proc.manager));
  }

  // ----- A CID that an outstanding disconnection names, given to an accepted connection -----

  /** Side p waits for the answer to the connection request with this identifier, about its channel c. */
  ghost predicate WaitsFor(p: Proc, id: u8, c: u16) {
    && Coherent(p) && DistinctKeys(p.pending) && PendingRequest(id, Some(c), ConnReq) in p.pending
    && c in Chans(p) && Chans(p)[c].remoteCid.None?
  }

  /** Side a gave the CID of d to the channel c of side b; the answer to d and the acceptance have crossed. */
  ghost predicate Granted(s: System, d: PendingRequest, cid: u16, c: u16) {
    && Stale(s, d, cid)
    && |s.ab| == 1 && Accepts(s.ab[0], cid, c) && WaitsFor(s.b.proc, s.ab[0].header.identifier, c)
    && |s.ba| == 1 && AnswersTo(s.ba[0], d)
  }

  lemma GrantTaken(s: System, d: PendingRequest, cid: u16, c: u16)
    requires Granted(s, d, cid, c)
    ensures var t := Step(s, AtA(DoReceive));
            t.b == s.b && t.ab == s.ab && t.ba == [] && cid !in Chans(t.a.proc)
  {
    var i := AnswerFinds(s.a.proc.pending, s.a.proc.pending, d);
    assert i == AnsweredIndex(s.a.proc, s.ba[0]);
    ActReceiveAnswer(s, i);
  }

  lemma GrantHeard(s: System, cid: u16, c: u16)
    requires |s.ab| == 1 && Accepts(s.ab[0], cid, c) && WaitsFor(s.b.proc, s.ab[0].header.identifier, c)
    ensures var t := Step(s, AtB(DoReceive));
            t.a == s.a && t.ba == s.ba && t.ab == [] && c in Chans(t.b.proc)
              && Chans(t.b.proc)[c].remoteCid == Some(cid)
  {
    var i := AnswerFinds(s.b.proc.pending, s.b.proc.pending,
                         PendingRequest(s.ab[0].header.identifier, Some(c), ConnReq));
    assert i == AnsweredIndex(s.b.proc, s.ab[0]);
    ActReceiveAnswer(Swap(s), i);
  }

  lemma GrantedUnmatched(s: System, d: PendingRequest, cid: u16, c: u16)
    requires Granted(s, d, cid, c)
    ensures Unmatched(Step(Step(s, AtA(DoReceive)), AtB(DoReceive)), c)
  {
    GrantTaken(s, d, cid, c);
    GrantHeard(Step(s, AtA(DoReceive)), cid, c);
  }

  /** The request at the head of ba is about to be accepted with the CID of d. */
  ghost predicate AcceptReuses(s: System, d: PendingRequest) {
    && Stale(s, d, AllocatedCid(s.a.proc.manager)) && !Full(s.a.proc)
    && s.ba != [] && s.ba[0].ConnectionRequest? && s.ba[0].psm == AVDTP_PSM
    && WaitsFor(s.b.proc, s.ba[0].header.identifier, s.ba[0].sourceCid)
  }

  lemma Grant(s: System, d: PendingRequest)
    requires AcceptReuses(s, d)
    ensures var t, cid := Step(s, AtA(DoReceive)), AllocatedCid(s.a.proc.manager);
            && t.b == s.b && t.ba == s.ba[1..] && Stale(t, d, cid)
            && |t.ab| == |s.ab| + 1 && s.ab <= t.ab && Accepts(t.ab[|s.ab|], cid, s.ba[0].sourceCid)
            && t.ab[|s.ab|].header.identifier == s.ba[0].header.identifier
  {
    ActReceiveConnect(s);
  }

  /** The answer to d follows the request, and nothing else is in flight. */
  lemma AcceptBeforeAnswer(s: System, d: PendingRequest)
    requires AcceptReuses(s, d) && s.ab == [] && |s.ba| == 2 && AnswersTo(s.ba[1], d)
    ensures var t := Step(s, AtA(DoReceive));
            Unmatched(Step(Step(t, AtA(DoReceive)), AtB(DoReceive)), s.ba[0].sourceCid)
  {
    Grant(s, d);
    GrantedUnmatched(Step(s, AtA(DoReceive)), d, AllocatedCid(s.a.proc.manager), s.ba[0].sourceCid);
  }

  /** Delivering the request of d to side b leaves what waits for a remote CID. */
  lemma WaitsThroughDisconnect(s: System, d: PendingRequest, id: u8, c: u16)
    requires s.ab != [] && AsksFor(s.ab[0], d) && s.ba == [] && WaitsFor(s.b.proc, id, c)
    ensures var t := Step(s, AtB(DoReceive));
            && t.a == s.a && t.ab == s.ab[1..] && |t.ba| == 1 && AnswersTo(t.ba[0], d) && WaitsFor(t.b.proc, id, c)
  {
    ActReceiveAnyDisconnect(Swap(s));
  }

  /** The request of d is on its way, and nothing else but the connection request is in flight. */
  lemma AcceptBeforeRequest(s: System, d: PendingRequest)
    requires AcceptReuses(s, d) && |s.ab| == 1 && AsksFor(s.ab[0], d) && |s.ba| == 1
    ensures var t := Step(Step(s, AtA(DoReceive)), AtB(DoReceive));
            Unmatched(Step(Step(t, AtA(DoReceive)), AtB(DoReceive)), s.ba[0].sourceCid)
  {
    Grant(s, d);
    var t := Step(s, AtA(DoReceive));
    WaitsThroughDisconnect(t, d, s.ba[0].header.identifier, s.ba[0].sourceCid);
    assert t.ab[1..] == [t.ab[1]];
    GrantedUnmatched(Step(t, AtB(DoReceive)), d, AllocatedCid(s.a.proc.manager), s.ba[0].sourceCid);
  }

  /** A connection request in flight is awaited by its sender, on a channel without remote CID. */
  lemma RequesterWaits(s: System)
    requires Joined(s) && s.ba != [] && s.ba[0].ConnectionRequest?
    ensures WaitsFor(s.b.proc, s.ba[0].header.identifier, s.ba[0].sourceCid)
  {
    Parted(s);
    HeadTracked(View(s.b.proc), View(s.a.proc), s.ba, s.ab);
    WaitingChannel(View(s.b.proc), View(s.a.proc), s.ba, s.ab,
                   PendingRequest(s.ba[0].header.identifier, Some(s.ba[0].sourceCid), ConnReq));
  }

  /** Besides the connection request at the head of ba, one message is in flight, and it belongs to d. */
  ghost predicate OneBesides(s: System, d: PendingRequest) {
    || (s.ab == [] && |s.ba| == 2 && AnswersTo(s.ba[1], d))
    || (|s.ab| == 1 && AsksFor(s.ab[0], d) && |s.ba| == 1)
  }

  lemma OneInFlightBesides(s: System, d: PendingRequest)
    requires Joined(s) && d in View(s.a.proc).asked && d.code.DiscReq? && |s.ab| + |s.ba| == 2
    requires s.ba != [] && s.ba[0].ConnectionRequest?
    ensures OneBesides(s, d)
  {
    Parted(s);
    assert InFlight(d, s.ab, s.ba);
  }

  lemma RunTwo(s: System, e: Event, f: Event)
    ensures RunSystem(s, [e, f]) == Step(Step(s, e), f)
  {
    assert [e, f][1..] == [f] && [f][1..] == [];
    assert RunSystem(Step(s, e), [f]) == RunSystem(Step(Step(s, e), f), []);
  }

  /**
   An acceptance that takes the CID of an outstanding disconnection: in every
   joined system with nothing else in flight it leads to a state with nothing in
   flight in which the requester's channel is unmatched.
   */
  lemma AcceptReuseUnmatches(s: System) returns (events: seq<Event>)
    requires Joined(s) && !Timely(s, AtA(DoReceive)) && |s.ab| + |s.ba| == 2
    ensures var t := RunSystem(s, [AtA(DoReceive)] + events);
            t.ab == [] && t.ba == [] && !AllAgree(t.b, t.a, t.ba, t.ab)
  {
    var d := StaleRequest(s);
    RequesterWaits(s);
    OneInFlightBesides(s, d);
    var t := Step(s, AtA(DoReceive));
    var last := [AtA(DoReceive), AtB(DoReceive)];
    if s.ab == [] {
      AcceptBeforeAnswer(s, d);
      events := last;
    } else {
      AcceptBeforeRequest(s, d);
      RunMore(t, AtB(DoReceive), last);
      events := [AtB(DoReceive)] + last;
      t := Step(t, AtB(DoReceive));
    }
    RunMore(s, AtA(DoReceive), events);
    RunTwo(t, AtA(DoReceive), AtB(DoReceive));
    UnmatchedDisagrees(RunSystem(t, last), s.ba[0].sourceCid);
  }

  // ----- An identifier that an outstanding connection request carries, drawn again -----

  ghost predicate Quiet(s: System) {
    s.ab == [] && s.ba == []
  }

  ghost predicate InAgreement(s: System) {
    AllAgree(s.a, s.b, s.ab, s.ba) && AllAgree(s.b, s.a, s.ba, s.ab)
  }

  lemma NoDisconnections(s: System)
    requires Joined(s) && Quiet(s)
    ensures forall d :: d in View(s.a.proc).asked ==> !d.code.DiscReq?
  {
    Parted(s);
    forall d | d in View(s.a.proc).asked ensures !d.code.DiscReq? {
      assert !InFlight(d, s.ab, s.ba);
    }
  }

  /** With nothing in flight no outstanding request names the CID allocated next. */
  lemma QuietCidFree(s: System)
    requires Joined(s) && Quiet(s)
    ensures FreeCid(s.a.proc)
  {
    NoDisconnections(s);
    if !FreeCid(s.a.proc) {
      var d := StaleRequest(s);
    }
  }

  function Exchanged(s: System): System {
    Step(Step(Step(s, CONNECT), AtB(DoReceive)), AtA(DoReceive))
  }

  ghost predicate CanConnect(s: System) {
    && Coherent(s.a.proc) && Coherent(s.b.proc) && Quiet(s)
    && !Full(s.b.proc) && Connect(s.a.proc, AVDTP_PSM, s.a.peer, s.a.handle).1.Ok?
  }

  /** The request was sent and accepted. */
  lemma Offered(s: System)
    requires CanConnect(s)
    ensures var t, p := Step(Step(s, CONNECT), AtB(DoReceive)), s.a.proc;
            var cid, b := AllocatedCid(p.manager), AllocatedCid(s.b.proc.manager);
            && t.ab == [] && |t.ba| == 1 && Accepts(t.ba[0], b, cid) && t.ba[0].header.identifier == p.nextId
            && Coherent(t.a.proc) && cid !in Chans(p)
            && t.a.proc.pending == p.pending + [PendingRequest(p.nextId, Some(cid), ConnReq)]
            && Chans(t.a.proc) == Chans(p)[cid := Waiting(cid, AVDTP_PSM, s.a.peer, s.a.handle)]
            && b in Chans(t.b.proc) && Chans(t.b.proc)[b].remoteCid == Some(cid)
  {
    SentRoom(s.a.proc, AVDTP_PSM, s.a.peer, s.a.handle);
    ActConnect(s, AVDTP_PSM);
    ActReceiveConnect(Swap(Step(s, CONNECT)));
  }

  /** The acceptance of cid is taken by another channel: side b's channel c, which refers to cid, is not matched. */
  lemma AnswerElsewhere(t: System, k: nat, cid: u16, c: u16)
    requires Coherent(t.a.proc) && t.ab == [] && |t.ba| == 1 && t.ba[0].ConnectionResponse?
    requires k < |t.a.proc.pending| && k == AnsweredIndex(t.a.proc, t.ba[0])
    requires t.a.proc.pending[k].localCid != Some(cid)
    requires cid in Chans(t.a.proc) && Chans(t.a.proc)[cid].remoteCid.None?
    requires c in Chans(t.b.proc) && Chans(t.b.proc)[c].remoteCid == Some(cid)
    ensures !InAgreement(Step(t, AtA(DoReceive)))
  {
    ActReceiveAnswer(t, k);
    var u := Step(t, AtA(DoReceive));
    assert !Agrees(u.b, u.a, u.ba, u.ab, c);
  }

  /** The answer finds the older request: the new channel is left without a remote CID. */
  lemma AnswerToOlder(s: System, i: nat)
    requires CanConnect(s) && i < |s.a.proc.pending| && s.a.proc.pending[i].code.ConnReq?
    requires s.a.proc.pending[i].identifier == s.a.proc.nextId
    requires forall k :: 0 <= k < |s.a.proc.pending| && s.a.proc.pending[k].code.ConnReq? ==>
                           s.a.proc.pending[k].localCid.Some? && s.a.proc.pending[k].localCid.value in Chans(s.a.proc)
    ensures !InAgreement(Exchanged(s))
  {
    var t, p := Step(Step(s, CONNECT), AtB(DoReceive)), s.a.proc;
    Offered(s);
    var k := FindPending(t.a.proc.pending, p.nextId, ConnReq);
    FindPendingFirst(t.a.proc.pending, p.nextId, ConnReq, i);
    assert t.a.proc.pending[k] == p.pending[k];
    AnswerElsewhere(t, k, AllocatedCid(p.manager), AllocatedCid(s.b.proc.manager));
  }

  lemma OlderRequestUnmatches(s: System)
    requires Joined(s) && CanConnect(s) && !FreshKey(s.a.proc, ConnReq)
    ensures !InAgreement(Exchanged(s))
  {
    var p := s.a.proc;
    Parted(s);
    var i :| 0 <= i < |p.pending| && p.pending[i].code == ConnReq && p.pending[i].identifier == p.nextId;
    forall k | 0 <= k < |p.pending| && p.pending[k].code.ConnReq?
      ensures p.pending[k].localCid.Some? && p.pending[k].localCid.value in Chans(p)
    {
      assert p.pending[k] in View(p).asked;
      WaitingChannel(View(p), View(s.b.proc), s.ab, s.ba, p.pending[k]);
    }
    AnswerToOlder(s, i);
  }

  lemma FreshRequestMatches(s: System)
    requires Joined(s) && CanConnect(s) && FreshKey(s.a.proc, ConnReq)
    ensures InAgreement(Exchanged(s))
  {
    QuietCidFree(s);
    QuietCidFree(Swap(s));
    Offered(s);
    var s1 := Step(s, CONNECT);
    JoinedStep(s, CONNECT);
    assert s1.b == s.b;
    JoinedStep(s1, AtB(DoReceive));
    JoinedStep(Step(s1, AtB(DoReceive)), AtA(DoReceive));
    JoinedAgrees(Exchanged(s));
    JoinedAgrees(Swap(Exchanged(s)));
  }

  /**
   A connect with nothing in flight and room at the peer, and its exchange: the
   two sides agree afterwards if and only if no connection request left
   unanswered carries the identifier drawn.
   */
  lemma QuietConnectExactly(s: System)
    requires Joined(s) && s.ab == [] && s.ba == [] && !Full(s.b.proc)
    requires Connect(s.a.proc, AVDTP_PSM, s.a.peer, s.a.handle).1.Ok?
    ensures var t := RunSystem(s, [AtA(DoConnect(AVDTP_PSM)), AtB(DoReceive), AtA(DoReceive)]);
            AllAgree(t.a, t.b, t.ab, t.ba) && AllAgree(t.b, t.a, t.ba, t.ab) <==> FreshKey(s.a.proc, ConnReq)
  {
    Parted(s);
    Parted(Swap(s));
    RunThree(s, CONNECT, AtB(DoReceive), AtA(DoReceive));
    if FreshKey(s.a.proc, ConnReq) {
      FreshRequestMatches(s);
    } else {
      OlderRequestUnmatches(s);
    }
  }

  // ----- An identifier that an outstanding disconnection carries, drawn by another one -----

  /**
   Entry k is about to be answered, and then entry i, a disconnection with the
   identifier due next, by the only messages in flight.
   */
  ghost predicate AboutToSwap(s: System, k: nat, i: nat, cid: u16) {
    var p := s.a.proc;
    && Coherent(p) && DistinctKeys(p.pending) && s.ab == [] && |s.ba| == 2 && IsResponse(s.ba[0])
    && k < i < |p.pending| && k == AnsweredIndex(p, s.ba[0]) && AnswersTo(s.ba[1], p.pending[i])
    && p.pending[i].localCid == Some(cid) && p.pending[k].localCid != Some(cid) && p.pending[i].identifier == p.nextId
    && cid in Chans(p) && Chans(p)[cid].remoteCid.Some?
  }

  lemma AnsweredStill(p: Proc, q: Proc, r: PendingRequest, m: SignalingCommand)
    requires q.pending == p.pending + [r] && AnsweredIndex(p, m) < |p.pending|
    ensures AnsweredIndex(q, m) == AnsweredIndex(p, m)
  {
    var id := m.header.identifier;
    FindPendingAppend(p.pending, r, id, ConnReq);
    FindPendingAppend(p.pending, r, id, ConfReq);
    FindPendingAppend(p.pending, r, id, DiscReq);
  }

  /** The request r, appended last, takes the place of entry k, ahead of the older one it shares its key with. */
  lemma NewerIsFound(pending: seq<PendingRequest>, k: nat, i: nat, r: PendingRequest)
    requires DistinctKeys(pending) && k < i < |pending|
    requires pending[i].code.DiscReq? && r.code.DiscReq? && r.identifier == pending[i].identifier
    ensures FindPending(SwapRemove(pending + [r], k), r.identifier, DiscReq) == k
  {
    var q := SwapRemove(pending + [r], k);
    assert q[k] == r && forall j :: 0 <= j < k ==> q[j] == pending[j];
    FindPendingFirst(q, r.identifier, DiscReq, k);
  }

  /** The disconnection is sent, and the answer to entry k puts its entry in that place. */
  lemma Swapped(s: System, k: nat, i: nat, cid: u16, other: u16)
    requires AboutToSwap(s, k, i, cid) && Disconnect(s.a.proc, other).1.Ok?
    ensures var u, p := Step(Step(s, AtA(DoDisconnect(other))), AtA(DoReceive)), s.a.proc;
            && u.b == s.b && u.ba == [s.ba[1]] && |u.ab| == 1 && u.ab[0].DisconnectionRequest? && Coherent(u.a.proc)
            && u.a.proc.pending == SwapRemove(p.pending + [PendingRequest(p.nextId, Some(other), DiscReq)], k)
            && cid in Chans(u.a.proc) && Chans(u.a.proc)[cid].remoteCid == Chans(p)[cid].remoteCid
  {
    var p, r := s.a.proc, PendingRequest(s.a.proc.nextId, Some(other), DiscReq);
    var t := Step(s, AtA(DoDisconnect(other)));
    DisconnectEffect(p, other);
    ActDisconnect(s, other);
    AnsweredStill(p, t.a.proc, r, s.ba[0]);
    assert t.a.proc.pending[k] == p.pending[k];
    ActReceiveAnswer(t, k);
  }

  /** The answer to the older disconnection ends the channel of the newer one. */
  lemma WrongOneEnds(s: System, k: nat, i: nat, cid: u16, other: u16)
    requires AboutToSwap(s, k, i, cid) && Disconnect(s.a.proc, other).1.Ok? && other != cid
    ensures var v := Step(Step(Step(s, AtA(DoDisconnect(other))), AtA(DoReceive)), AtA(DoReceive));
            && v.b == s.b && v.ba == [] && |v.ab| == 1 && v.ab[0].DisconnectionRequest?
            && cid in Chans(v.a.proc) && Chans(v.a.proc)[cid].remoteCid == Chans(s.a.proc)[cid].remoteCid
  {
    var p, r := s.a.proc, PendingRequest(s.a.proc.nextId, Some(other), DiscReq);
    var u := Step(Step(s, AtA(DoDisconnect(other))), AtA(DoReceive));
    Swapped(s, k, i, cid, other);
    NewerIsFound(p.pending, k, i, r);
    assert AnsweredIndex(u.a.proc, u.ba[0]) == k && u.a.proc.pending[k] == r;
    ActReceiveAnswer(u, k);
  }

  lemma NobodyRefers(s: System, j: nat, cid: u16)
    requires Joined(s) && j < |s.ba| && Releases(s.ba[j], cid)
    ensures forall b :: b in Chans(s.b.proc) ==> Chans(s.b.proc)[b].remoteCid != Some(cid)
  {
    Parted(s);
    forall b | b in Chans(s.b.proc) ensures Chans(s.b.proc)[b].remoteCid != Some(cid) {
      assert b in View(s.b.proc).remote;
    }
  }

  /** A channel nobody refers to, with nothing on its way but a disconnection request. */
  lemma Forgotten(t: System, cid: u16)
    requires t.ba == [] && |t.ab| == 1 && t.ab[0].DisconnectionRequest?
    requires cid in Chans(t.a.proc) && Chans(t.a.proc)[cid].remoteCid.Some?
    requires forall b :: b in Chans(t.b.proc) ==> Chans(t.b.proc)[b].remoteCid != Some(cid)
    ensures !AllAgree(t.a, t.b, t.ab, t.ba)
  {
    assert !Agrees(t.a, t.b, t.ab, t.ba, cid);
  }

  lemma NotFresh(s: System, i: nat, other: u16)
    requires i < |s.a.proc.pending| && s.a.proc.pending[i].code.DiscReq?
    requires s.a.proc.pending[i].identifier == s.a.proc.nextId && Disconnect(s.a.proc, other).1.Ok?
    ensures !Timely(s, AtA(DoDisconnect(other)))
  {
  }

  /**
   A disconnect that draws the identifier of an outstanding disconnection: in every
   joined system in which an older entry is answered first, and the channel of the
   outstanding one is still there, the removal of that entry puts the new request
   ahead of the outstanding one, the answer to that ends the wrong channel, and the
   right one is left unmatched.
   */
  lemma DisconnectReuseDisagrees(s: System, k: nat, i: nat, cid: u16, other: u16)
    requires Joined(s) && AboutToSwap(s, k, i, cid) && other != cid && Disconnect(s.a.proc, other).1.Ok?
    ensures !Timely(s, AtA(DoDisconnect(other)))
    ensures var t := RunSystem(s, [AtA(DoDisconnect(other)), AtA(DoReceive), AtA(DoReceive)]);
            !AllAgree(t.a, t.b, t.ab, t.ba)
  {
    var t := Step(Step(Step(s, AtA(DoDisconnect(other))), AtA(DoReceive)), AtA(DoReceive));
    WrongOneEnds(s, k, i, cid, other);
    NobodyRefers(s, 1, cid);
    RunThree(s, AtA(DoDisconnect(other)), AtA(DoReceive), AtA(DoReceive));
    Forgotten(t, cid);
    NotFresh(s, i, other);
  }
}
