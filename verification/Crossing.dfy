/**
 A bound on what is drawn while a request is outstanding does not ensure
 agreement: a reachable run in which a side draws two identifiers and one CID
 while its disconnection is outstanding, and the channels end up unmatched.
 */
module Crossing {
  import opened Wrappers
  import opened Words
  import opened IndexMap
  import opened Channel
  import opened Packet
  import opened Signaling
  import opened Processor
  import opened ProcessorRuns
  import opened PendingRuns
  import opened Agreement
  import opened Duplex
  import opened Counting
  import opened Untimely

  // ----- Draws while something is outstanding -----

  /** Identifiers and CIDs a side drew since it last had no request outstanding. */
  datatype Span = Span(ids: nat, cids: nat)

  const NOTHING := Span(0, 0)

  datatype Watch = Watch(s: System, a: Span, b: Span)

  function DrawsOf(s: System, action: Action): nat {
    match OpOf(s, action)
    case None => 0
    case Some(op) => Draws(op)
  }

  function SpanAfter(s: System, action: Action, span: Span): Span {
    var p, q := s.a.proc, StepA(s, action).a.proc;
    var before := if p.pending == [] then NOTHING else span;
    if q.pending == [] then NOTHING
    else Span(before.ids + (if q.nextId == p.nextId then 0 else 1), before.cids + DrawsOf(s, action))
  }

  function WatchStep(w: Watch, e: Event): Watch {
    match e
    case AtA(action) => Watch(Step(w.s, e), SpanAfter(w.s, action, w.a), w.b)
    case AtB(action) => Watch(Step(w.s, e), w.a, SpanAfter(Swap(w.s), action, w.b))
  }

  function WatchRun(w: Watch, events: seq<Event>): Watch
    decreases |events|
  {
    if events == [] then w else WatchRun(WatchStep(w, events[0]), events[1..])
  }

  predicate Within(w: Watch) {
    w.a.ids < 255 && w.b.ids < 255 && w.a.cids < DYNAMIC_COUNT && w.b.cids < DYNAMIC_COUNT
  }

  /**
   In no state of the run has a side drawn 255 identifiers or 0xFFC0 CIDs while one
   of its requests is outstanding.
   */
  predicate AlwaysWithin(w: Watch, events: seq<Event>)
    decreases |events|
  {
    Within(w) && (events == [] || AlwaysWithin(WatchStep(w, events[0]), events[1..]))
  }

  predicate Reached(start: Watch, events: seq<Event>, w: Watch) {
    WatchRun(start, events) == w && AlwaysWithin(start, events)
  }

  predicate Small(w: Watch, n: nat) {
    w.a.ids <= n && w.b.ids <= n && w.a.cids <= n && w.b.cids <= n
  }

  lemma {:induction false} WatchAppend(w: Watch, events: seq<Event>, e: Event)
    requires AlwaysWithin(w, events) && Within(WatchStep(WatchRun(w, events), e))
    ensures Reached(w, events + [e], WatchStep(WatchRun(w, events), e))
    decreases |events|
  {
    var all := events + [e];
    if events == [] {
      assert all[0] == e && all[1..] == [];
      assert AlwaysWithin(WatchStep(w, e), []);
    } else {
      assert all[0] == events[0] && all[1..] == events[1..] + [e];
      WatchAppend(WatchStep(w, events[0]), events[1..], e);
    }
  }

  lemma SpanGrows(s: System, action: Action, span: Span)
    ensures SpanAfter(s, action, span).ids <= span.ids + 1 && SpanAfter(s, action, span).cids <= span.cids + 1
    ensures StepA(s, action).a.proc.pending == [] ==> SpanAfter(s, action, span) == NOTHING
  {
  }

  /** One more event after a reached state. */
  lemma Extend(start: Watch, events: seq<Event>, w: Watch, e: Event, n: nat)
    requires Reached(start, events, w) && Small(w, n) && n < 254
    ensures Reached(start, events + [e], WatchStep(w, e)) && Small(WatchStep(w, e), n + 1)
    ensures WatchStep(w, e).s == Step(w.s, e)
  {
    match e {
      case AtA(action) => SpanGrows(w.s, action, w.a);
      case AtB(action) => SpanGrows(Swap(w.s), action, w.b);
    }
    WatchAppend(start, events, e);
  }

  lemma {:induction false} WatchedRun(w: Watch, events: seq<Event>)
    ensures WatchRun(w, events).s == RunSystem(w.s, events)
    decreases |events|
  {
    if events != [] {
      WatchedRun(WatchStep(w, events[0]), events[1..]);
    }
  }

  // ----- Up to one channel, a full map, and the cursor back at that channel's CID -----

  const X: u16 := DYNAMIC_START

  ghost predicate Idle(s: System) {
    && s.ab == [] && s.ba == [] && Coherent(s.a.proc) && Coherent(s.b.proc)
    && s.a.proc.pending == [] && s.b.proc.pending == []
  }

  predicate Calm(w: Watch) {
    w.a == NOTHING && w.b == NOTHING
  }

  function Dialled(s: System, psm: u16): System {
    Step(Step(Step(s, AtA(DoConnect(psm))), AtB(DoReceive)), AtA(DoReceive))
  }

  function Answer(m: SignalingCommand, cid: u16): SignalingCommand
    requires m.ConnectionRequest?
  {
    var accepted := m.psm == AVDTP_PSM;
    ConnectionResponse(SignalingHeader(ConnRsp, m.header.identifier, 8), if accepted then cid else 0, m.sourceCid,
                       if accepted then ConnSuccess else PsmNotSupported, 0)
  }

  /** The channel after its request was answered. */
  ghost function Dialler(cid: u16, psm: u16, e: Endpoint, b: u16): L2capChannel {
    Settled(Waiting(cid, psm, e.peer, e.handle), if psm == AVDTP_PSM then b else 0, psm == AVDTP_PSM)
  }

  /** The delivery of a request to side b. */
  lemma DialAnswered(s: System)
    requires Coherent(s.b.proc) && |s.ab| == 1 && s.ab[0].ConnectionRequest? && s.ba == []
    requires s.ab[0].psm == AVDTP_PSM ==> !Full(s.b.proc)
    ensures var t, m, b := Step(s, AtB(DoReceive)), s.ab[0], AllocatedCid(s.b.proc.manager);
            && t.a == s.a && t.ab == [] && t.ba == [Answer(m, b)]
            && Coherent(t.b.proc) && t.b.handle == s.b.handle && t.b.proc.pending == s.b.proc.pending
            && Chans(t.b.proc) == (if m.psm == AVDTP_PSM
                                   then Chans(s.b.proc)[b := Incoming(b, m.sourceCid, m.psm, s.b.peer, s.b.handle)]
                                   else Chans(s.b.proc))
  {
    ActReceiveConnect(Swap(s));
  }

  /** The delivery of the answer to the only request. */
  lemma DialDelivered(s: System, r: PendingRequest)
    requires Coherent(s.a.proc) && |s.ba| == 1 && s.ba[0].ConnectionResponse?
    requires s.a.proc.pending == [r] && r.identifier == s.ba[0].header.identifier && r.code == ConnReq
    ensures var t := Step(s, AtA(DoReceive));
            && Frame(s, t) && Coherent(t.a.proc) && t.ab == s.ab && t.ba == [] && t.a.proc.pending == []
            && t.a.proc.manager.nextLocalCid == s.a.proc.manager.nextLocalCid
            && r.localCid.Some? && Chans(t.a.proc) == AfterAnswer(Chans(s.a.proc), r.localCid.value, s.ba[0])
  {
    assert AnsweredIndex(s.a.proc, s.ba[0]) == 0;
    ActReceiveAnswer(s, 0);
  }

  /** Side a has one more channel cid, connected to the new channel b of side b or refused, and its cursor at `next`. */
  ghost predicate DialledTo(s: System, t: System, psm: u16, cid: u16, b: u16, next: u16) {
    && Idle(t) && t.a.handle == s.a.handle && t.b.handle == s.b.handle
    && cid !in Chans(s.a.proc) && t.a.proc.manager.nextLocalCid == next
    && Chans(t.a.proc) == Chans(s.a.proc)[cid := Dialler(cid, psm, s.a, b)]
    && Chans(t.b.proc) == (if psm == AVDTP_PSM then Chans(s.b.proc)[b := Incoming(b, cid, psm, s.b.peer, s.b.handle)]
                           else Chans(s.b.proc))
  }

  /** A connect, its answer, and the answer's delivery. */
  lemma Dial(s: System, psm: u16)
    requires Idle(s) && !Full(s.a.proc) && (psm == AVDTP_PSM ==> !Full(s.b.proc))
    ensures DialledTo(s, Dialled(s, psm), psm, AllocatedCid(s.a.proc.manager), AllocatedCid(s.b.proc.manager),
                      Allocate(s.a.proc.manager).0.nextLocalCid)
  {
    var s1 := Step(s, AtA(DoConnect(psm)));
    var s2 := Step(s1, AtB(DoReceive));
    ActConnect(s, psm);
    DialAnswered(s1);
    DialDelivered(s2, s1.a.proc.pending[0]);
    var cid := AllocatedCid(s.a.proc.manager);
    SetTwice(Chans(s.a.proc), cid, Waiting(cid, psm, s.a.peer, s.a.handle),
             Dialler(cid, psm, s.a, AllocatedCid(s.b.proc.manager)));
  }

  lemma SetTwice(m: map<u16, L2capChannel>, cid: u16, c: L2capChannel, d: L2capChannel)
    ensures m[cid := c][cid := d] == m[cid := d] && m[cid := c][cid] == c
  {
  }

  lemma DialIdle(s: System, psm: u16)
    requires Idle(s) && !Full(s.a.proc) && (psm == AVDTP_PSM ==> !Full(s.b.proc))
    ensures Idle(Dialled(s, psm))
  {
    Dial(s, psm);
  }

  lemma DialWatched(start: Watch, events: seq<Event>, w: Watch, psm: u16) returns (more: seq<Event>, t: Watch)
    requires Reached(start, events, w) && Calm(w)
    requires Idle(w.s) && !Full(w.s.a.proc) && (psm == AVDTP_PSM ==> !Full(w.s.b.proc))
    ensures Reached(start, more, t) && Calm(t) && t.s == Dialled(w.s, psm)
  {
    DialIdle(w.s, psm);
    var w1 := WatchStep(w, AtA(DoConnect(psm)));
    var w2 := WatchStep(w1, AtB(DoReceive));
    Extend(start, events, w, AtA(DoConnect(psm)), 0);
    Extend(start, events + [AtA(DoConnect(psm))], w1, AtB(DoReceive), 1);
    Extend(start, events + [AtA(DoConnect(psm))] + [AtB(DoReceive)], w2, AtA(DoReceive), 2);
    more, t := events + [AtA(DoConnect(psm))] + [AtB(DoReceive)] + [AtA(DoReceive)], WatchStep(w2, AtA(DoReceive));
    SpanGrows(Swap(w1.s), DoReceive, w1.b);
    SpanGrows(w2.s, DoReceive, w2.a);
    assert Step(w1.s, AtB(DoReceive)).b.proc == t.s.b.proc;
  }

  /**
   Side a has k channels: X, matched by b's only channel, and refused ones right
   after it; its cursor is behind them.
   */
  ghost predicate Filled(s: System, b: u16, k: nat) {
    && Idle(s) && 1 <= k <= MAX_L2CAP_CHANNELS
    && |Chans(s.a.proc)| == k && s.a.proc.manager.nextLocalCid == X + k
    && X in Chans(s.a.proc) && HasRemote(Chans(s.a.proc)[X], b, s.a.handle)
    && (forall cid :: cid in Chans(s.a.proc) ==>
                       X <= cid < X + k && (cid != X ==> Chans(s.a.proc)[cid].remoteCid.None?))
    && Chans(s.b.proc).Keys == {b} && HasRemote(Chans(s.b.proc)[b], X, s.b.handle)
  }

  /** When no channel is at the cursor, the cursor's CID is next. */
  lemma CursorFree(p: Proc)
    requires Coherent(p) && p.manager.nextLocalCid !in Chans(p)
    ensures AllocatedCid(p.manager) == p.manager.nextLocalCid
    ensures Allocate(p.manager).0.nextLocalCid == NextCid(p.manager.nextLocalCid)
    ensures Full(p) <==> |Chans(p)| == MAX_L2CAP_CHANNELS
  {
    FullIsEight(p);
    FirstProbeFree(p.manager);
    CidAfterNext(p.manager.nextLocalCid, 0);
  }

  lemma FirstChannel(peerOfA: Address, handleA: u16, peerOfB: Address, handleB: u16)
    returns (events: seq<Event>, w: Watch, b: u16)
    ensures Reached(Watch(NewSystem(peerOfA, handleA, peerOfB, handleB), NOTHING, NOTHING), events, w)
    ensures Calm(w) && Filled(w.s, b, 1)
  {
    var s := NewSystem(peerOfA, handleA, peerOfB, handleB);
    var start := Watch(s, NOTHING, NOTHING);
    CoherentInitially();
    FirstProbeFree(NEW_MANAGER);
    assert Chans(NEW_PROC) == map[];
    Dial(s, AVDTP_PSM);
    assert Reached(start, [], start);
    events, w := DialWatched(start, [], start, AVDTP_PSM);
    b := AllocatedCid(NEW_MANAGER);
  }

  lemma FilledNext(s: System, t: System, b: u16, k: nat, c: L2capChannel, cid: u16)
    requires Filled(s, b, k) && k < MAX_L2CAP_CHANNELS && Idle(t) && cid == X + k
    requires t.a.handle == s.a.handle && t.b.handle == s.b.handle && Chans(t.b.proc) == Chans(s.b.proc)
    requires c.remoteCid.None? && Chans(t.a.proc) == Chans(s.a.proc)[cid := c]
    requires t.a.proc.manager.nextLocalCid == X + k + 1
    ensures Filled(t, b, k + 1)
  {
  }

  lemma Refused(cid: u16, e: Endpoint, b: u16)
    ensures Dialler(cid, 0x1, e, b).remoteCid.None?
  {
  }

  lemma FilledDial(s: System, t: System, b: u16, k: nat, cid: u16, other: u16, next: u16)
    requires Filled(s, b, k) && k < MAX_L2CAP_CHANNELS && cid == X + k && next == X + k + 1
    requires DialledTo(s, t, 0x1, cid, other, next)
    ensures Filled(t, b, k + 1)
  {
    Refused(cid, s.a, other);
    FilledNext(s, t, b, k, Dialler(cid, 0x1, s.a, other), cid);
  }

  lemma FilledCursor(s: System, b: u16, k: nat)
    requires Filled(s, b, k) && k < MAX_L2CAP_CHANNELS
    ensures !Full(s.a.proc) && AllocatedCid(s.a.proc.manager) == X + k
    ensures Allocate(s.a.proc.manager).0.nextLocalCid == X + k + 1
  {
    CursorFree(s.a.proc);
  }

  lemma DialFilled(s: System, b: u16, k: nat)
    requires Filled(s, b, k) && k < MAX_L2CAP_CHANNELS
    ensures Filled(Dialled(s, 0x1), b, k + 1)
  {
    FilledCursor(s, b, k);
    Dial(s, 0x1);
    FilledDial(s, Dialled(s, 0x1), b, k, AllocatedCid(s.a.proc.manager), AllocatedCid(s.b.proc.manager),
               Allocate(s.a.proc.manager).0.nextLocalCid);
  }

  lemma FillOne(start: Watch, events: seq<Event>, w: Watch, b: u16, k: nat) returns (more: seq<Event>, t: Watch)
    requires Reached(start, events, w) && Calm(w) && Filled(w.s, b, k) && k < MAX_L2CAP_CHANNELS
    ensures Reached(start, more, t) && Calm(t) && Filled(t.s, b, k + 1)
  {
    FilledCursor(w.s, b, k);
    DialFilled(w.s, b, k);
    more, t := DialWatched(start, events, w, 0x1);
  }

  lemma {:induction false} Fill(start: Watch, events: seq<Event>, w: Watch, b: u16, k: nat)
    returns (more: seq<Event>, t: Watch)
    requires Reached(start, events, w) && Calm(w) && Filled(w.s, b, k)
    ensures Reached(start, more, t) && Calm(t) && Filled(t.s, b, MAX_L2CAP_CHANNELS)
    decreases MAX_L2CAP_CHANNELS - k
  {
    if k == MAX_L2CAP_CHANNELS {
      more, t := events, w;
    } else {
      more, t := FillOne(start, events, w, b, k);
      more, t := Fill(start, more, t, b, k + 1);
    }
  }

  /** The map of side a is full, and its cursor stands at c. */
  ghost predicate Turning(s: System, b: u16, c: u16) {
    && Idle(s) && |Chans(s.a.proc)| == MAX_L2CAP_CHANNELS && s.a.proc.manager.nextLocalCid == c
    && X in Chans(s.a.proc) && HasRemote(Chans(s.a.proc)[X], b, s.a.handle)
    && (forall cid :: cid in Chans(s.a.proc) ==>
                       X <= cid < X + MAX_L2CAP_CHANNELS && (cid != X ==> Chans(s.a.proc)[cid].remoteCid.None?))
    && Chans(s.b.proc).Keys == {b} && HasRemote(Chans(s.b.proc)[b], X, s.b.handle)
  }

  /** The cursor after c, when no live channel is in the way. */
  function After(c: u16): u16 {
    if c == 0xFFFF then X else c + 1
  }

  lemma AfterIsNext(c: u16)
    requires X <= c
    ensures NextCid(c) == After(c)
  {
  }

  lemma Turned(s: System, b: u16, c: u16)
    requires Turning(s, b, c) && X + MAX_L2CAP_CHANNELS <= c
    ensures Turning(Step(s, AtA(DoConnect(AVDTP_PSM))), b, After(c))
  {
    CursorFree(s.a.proc);
    AfterIsNext(c);
    ActFailingConnect(s, AVDTP_PSM);
  }

  lemma TurnOne(start: Watch, events: seq<Event>, w: Watch, b: u16, c: u16) returns (more: seq<Event>, t: Watch)
    requires Reached(start, events, w) && Calm(w) && Turning(w.s, b, c) && X + MAX_L2CAP_CHANNELS <= c
    ensures Reached(start, more, t) && Calm(t) && Turning(t.s, b, After(c))
  {
    var e := AtA(DoConnect(AVDTP_PSM));
    Turned(w.s, b, c);
    Extend(start, events, w, e, 0);
    SpanGrows(w.s, DoConnect(AVDTP_PSM), w.a);
    more, t := events + [e], WatchStep(w, e);
  }

  /** Failing connects turn the cursor all the way round. */
  lemma {:induction false} Turn(start: Watch, events: seq<Event>, w: Watch, b: u16, c: u16)
    returns (more: seq<Event>, t: Watch)
    requires Reached(start, events, w) && Calm(w) && Turning(w.s, b, c) && X + MAX_L2CAP_CHANNELS <= c
    ensures Reached(start, more, t) && Calm(t) && Turning(t.s, b, X)
    decreases 0x1_0000 - c
  {
    var next := After(c);
    more, t := TurnOne(start, events, w, b, c);
    if c < 0xFFFF {
      more, t := Turn(start, more, t, b, next);
    }
  }

  // ----- Crossed disconnects, and a connect in between -----

  lemma {:induction false} ExtendAll(start: Watch, events: seq<Event>, w: Watch, suffix: seq<Event>, n: nat)
    returns (more: seq<Event>, t: Watch)
    requires Reached(start, events, w) && Small(w, n) && n + |suffix| < 254
    ensures Reached(start, more, t) && Small(t, n + |suffix|) && t.s == RunSystem(w.s, suffix)
    decreases |suffix|
  {
    if suffix == [] {
      more, t := events, w;
    } else {
      Extend(start, events, w, suffix[0], n);
      more, t := ExtendAll(start, events + [suffix[0]], WatchStep(w, suffix[0]), suffix[1..], n + 1);
    }
  }

  function DiscRequest(id: u8, dst: u16, src: u16): SignalingCommand {
    DisconnectionRequest(SignalingHeader(DiscReq, id, 4), dst, src)
  }

  function DiscResponse(id: u8, dst: u16, src: u16): SignalingCommand {
    DisconnectionResponse(SignalingHeader(DiscRsp, id, 4), dst, src)
  }

  ghost predicate BothCoherent(s: System) {
    Coherent(s.a.proc) && Coherent(s.b.proc)
  }

  /** Both sides have asked to disconnect the same pair of channels, and neither has heard of it. */
  ghost predicate Crossed(s: System, b: u16, i: u8, j: u8) {
    && BothCoherent(s) && s.ab == [DiscRequest(i, b, X)] && s.ba == [DiscRequest(j, X, b)]
    && s.a.proc.pending == [PendingRequest(i, Some(X), DiscReq)]
    && s.b.proc.pending == [PendingRequest(j, Some(b), DiscReq)]
    && |Chans(s.a.proc)| == MAX_L2CAP_CHANNELS && s.a.proc.manager.nextLocalCid == X
    && X in Chans(s.a.proc) && HasRemote(Chans(s.a.proc)[X], b, s.a.handle)
    && (forall cid :: cid in Chans(s.a.proc) && cid != X ==> Chans(s.a.proc)[cid].remoteCid.None?)
    && Chans(s.b.proc).Keys == {b} && HasRemote(Chans(s.b.proc)[b], X, s.b.handle)
  }

  lemma Cross(s: System, b: u16)
    requires Turning(s, b, X)
    ensures Crossed(Step(Step(s, AtA(DoDisconnect(X))), AtB(DoDisconnect(b))), b, s.a.proc.nextId, s.b.proc.nextId)
  {
    ActDisconnect(s, X);
    ActDisconnect(Swap(Step(s, AtA(DoDisconnect(X)))), b);
  }

  /** The first delivery to side b: it gives up its channel, and its own request is behind the answer. */
  lemma FirstGone(s: System, b: u16, i: u8, j: u8)
    requires Crossed(s, b, i, j)
    ensures var t := Step(s, AtB(DoReceive));
            && t.a == s.a && Coherent(t.b.proc) && t.ab == [] && t.ba == [DiscRequest(j, X, b), DiscResponse(i, X, b)]
            && t.b.proc.pending == s.b.proc.pending && Chans(t.b.proc) == map[]
  {
    ActReceiveDisconnect(Swap(s), b);
    assert Chans(Step(s, AtB(DoReceive)).b.proc).Keys == {};
  }

  /** Both sides gave up their channel of the pair; only side a has not heard the answer to its own request. */
  ghost predicate HalfHeard(s: System, b: u16, i: u8) {
    && BothCoherent(s) && s.ab == [] && s.ba == [DiscResponse(i, X, b)]
    && s.a.proc.pending == [PendingRequest(i, Some(X), DiscReq)] && s.a.proc.manager.nextLocalCid == X
    && X !in Chans(s.a.proc) && |Chans(s.a.proc)| == MAX_L2CAP_CHANNELS - 1 && Chans(s.b.proc) == map[]
  }

  lemma OneLess(m: map<u16, L2capChannel>, cid: u16)
    requires cid in m
    ensures |m - {cid}| == |m| - 1
  {
    assert (m - {cid})[cid := m[cid]] == m;
  }

  lemma SecondGone(s: System, b: u16, i: u8, j: u8)
    requires Crossed(s, b, i, j)
    ensures var t := Step(Step(s, AtB(DoReceive)), AtA(DoReceive));
            && BothCoherent(t) && t.b.proc.pending == [PendingRequest(j, Some(b), DiscReq)] && Chans(t.b.proc) == map[]
            && t.ab == [DiscResponse(j, b, X)] && t.ba == [DiscResponse(i, X, b)]
            && t.a.proc.pending == s.a.proc.pending && t.a.proc.manager.nextLocalCid == X
            && X !in Chans(t.a.proc) && |Chans(t.a.proc)| == MAX_L2CAP_CHANNELS - 1
  {
    FirstGone(s, b, i, j);
    ActReceiveDisconnect(Step(s, AtB(DoReceive)), X);
    OneLess(Chans(s.a.proc), X);
  }

  lemma Hear(s: System, b: u16, i: u8, j: u8)
    requires Crossed(s, b, i, j)
    ensures HalfHeard(Step(Step(Step(s, AtB(DoReceive)), AtA(DoReceive)), AtB(DoReceive)), b, i)
  {
    SecondGone(s, b, i, j);
    var t := Step(Step(s, AtB(DoReceive)), AtA(DoReceive));
    assert AnsweredIndex(t.b.proc, t.ab[0]) == 0;
    ActReceiveAnswer(Swap(t), 0);
    assert Chans(Step(t, AtB(DoReceive)).b.proc) == map[];
  }

  /** Connecting now takes X, while the answer to its disconnection is under way. */
  lemma HeardReuses(s: System, b: u16, i: u8)
    requires HalfHeard(s, b, i)
    ensures ConnectReuses(s, s.a.proc.pending[0]) && AnswersTo(s.ba[0], s.a.proc.pending[0])
  {
    CursorFree(s.a.proc);
    FullIsEight(s.b.proc);
    ConnectEffect(s.a.proc, AVDTP_PSM, s.a.peer, s.a.handle);
  }

  function Hangups(b: u16): seq<Event> {
    [AtA(DoDisconnect(X)), AtB(DoDisconnect(b))]
  }

  const DELIVERIES := [AtB(DoReceive), AtA(DoReceive), AtB(DoReceive)]

  const REUSE := [CONNECT] + [AtB(DoReceive), AtA(DoReceive), AtA(DoReceive)]

  lemma HangupsCross(s: System, b: u16)
    requires Turning(s, b, X)
    ensures Crossed(RunSystem(s, Hangups(b)), b, s.a.proc.nextId, s.b.proc.nextId)
  {
    Cross(s, b);
    RunTwo(s, AtA(DoDisconnect(X)), AtB(DoDisconnect(b)));
  }

  lemma DeliveriesHeard(s: System, b: u16, i: u8, j: u8)
    requires Crossed(s, b, i, j)
    ensures HalfHeard(RunSystem(s, DELIVERIES), b, i)
  {
    Hear(s, b, i, j);
    RunThree(s, AtB(DoReceive), AtA(DoReceive), AtB(DoReceive));
  }

  lemma ReuseUnmatches(s: System, b: u16, i: u8)
    requires HalfHeard(s, b, i)
    ensures var t := RunSystem(s, REUSE);
            t.ab == [] && t.ba == [] && !AllAgree(t.b, t.a, t.ba, t.ab)
  {
    HeardReuses(s, b, i);
    ConnectBeforeAnswer(s, s.a.proc.pending[0]);
    RunMore(s, CONNECT, [AtB(DoReceive), AtA(DoReceive), AtA(DoReceive)]);
    RunThree(Step(s, CONNECT), AtB(DoReceive), AtA(DoReceive), AtA(DoReceive));
    UnmatchedDisagrees(RunSystem(s, REUSE), AllocatedCid(Step(s, CONNECT).b.proc.manager));
  }

  /** From the full turn on: nine events to a quiet, unmatched pair. */
  lemma Finish(start: Watch, events: seq<Event>, w: Watch, b: u16) returns (more: seq<Event>, t: Watch)
    requires Reached(start, events, w) && Calm(w) && Turning(w.s, b, X)
    ensures Reached(start, more, t)
    ensures t.s.ab == [] && t.s.ba == [] && !AllAgree(t.s.b, t.s.a, t.s.ba, t.s.ab)
  {
    HangupsCross(w.s, b);
    more, t := ExtendAll(start, events, w, Hangups(b), 0);
    DeliveriesHeard(t.s, b, w.s.a.proc.nextId, w.s.b.proc.nextId);
    more, t := ExtendAll(start, more, t, DELIVERIES, 2);
    ReuseUnmatches(t.s, b, w.s.a.proc.nextId);
    more, t := ExtendAll(start, more, t, REUSE, 5);
  }

  /**
   There is a run of two new processors, for any addresses and handles, in which
   no side ever draws 255 identifiers or 0xFFC0 CIDs while one of its requests is
   outstanding, and which ends with nothing in flight and the channels unmatched.
   */
  lemma CountsWhileOutstandingDoNotSuffice(peerOfA: Address, handleA: u16, peerOfB: Address, handleB: u16)
    returns (events: seq<Event>)
    ensures AlwaysWithin(Watch(NewSystem(peerOfA, handleA, peerOfB, handleB), NOTHING, NOTHING), events)
    ensures var s := RunSystem(NewSystem(peerOfA, handleA, peerOfB, handleB), events);
            s.ab == [] && s.ba == [] && !AllAgree(s.b, s.a, s.ba, s.ab)
  {
    var start := Watch(NewSystem(peerOfA, handleA, peerOfB, handleB), NOTHING, NOTHING);
    var w: Watch, b: u16;
    events, w, b := FirstChannel(peerOfA, handleA, peerOfB, handleB);
    events, w := Fill(start, events, w, b, 1);
    assert Turning(w.s, b, X + MAX_L2CAP_CHANNELS);
    events, w := Turn(start, events, w, b, X + MAX_L2CAP_CHANNELS);
    events, w := Finish(start, events, w, b);
    WatchedRun(start, events);
  }
}
