/** Pending requests over whole runs: who may touch an awaiting channel, and how old identifiers may grow. */
module PendingRuns {
  import opened Wrappers
  import opened Words
  import opened IndexMap
  import opened Channel
  import opened Packet
  import opened Signaling
  import opened Processor
  import opened ProcessorRuns

  // ----- Connection requests own the channels they wait for -----

  /** Entry i waits for a connection answer: its channel is live, unconnected, and named by no other entry. */
  ghost predicate AwaitsAnswer(m: map<u16, L2capChannel>, pending: seq<PendingRequest>, i: nat)
    requires i < |pending|
  {
    && pending[i].localCid.Some?
    && var cid := pending[i].localCid.value;
    && cid in m && m[cid].state.WaitConnect? && m[cid].remoteCid.None?
    && forall j :: 0 <= j < |pending| && j != i ==> pending[j].localCid != Some(cid)
  }

  ghost predicate AllAwait(m: map<u16, L2capChannel>, pending: seq<PendingRequest>) {
    forall i :: 0 <= i < |pending| && pending[i].code.ConnReq? ==> AwaitsAnswer(m, pending, i)
  }

  /** The pending connection requests map injectively onto live waiting channels. */
  ghost predicate Awaiting(p: Proc) {
    AllAwait(Chans(p), p.pending)
  }

  ghost predicate NotNamed(pending: seq<PendingRequest>, cid: u16) {
    forall i :: 0 <= i < |pending| ==> pending[i].localCid != Some(cid)
  }

  /** No pending request names the CID the allocator is about to give out. */
  ghost predicate FreshCid(p: Proc) {
    NotNamed(p.pending, AllocatedCid(p.manager))
  }

  lemma PushAwaits(m: map<u16, L2capChannel>, pending: seq<PendingRequest>, cid: u16, c: L2capChannel,
                   r: PendingRequest)
    requires AllAwait(m, pending) && cid !in m && c.state.WaitConnect? && c.remoteCid.None?
    requires r.localCid == Some(cid) && r.code.ConnReq?
    ensures AllAwait(m[cid := c], pending + [r]) <==> NotNamed(pending, cid)
    ensures AllAwait(m[cid := c], pending)
  {
    var n, q := m[cid := c], pending + [r];
    forall i | 0 <= i < |pending| && pending[i].code.ConnReq? ensures AwaitsAnswer(n, pending, i) {
      assert AwaitsAnswer(m, pending, i);
    }
    if NotNamed(pending, cid) {
      forall i | 0 <= i < |q| && q[i].code.ConnReq? ensures AwaitsAnswer(n, q, i) {
        if i < |pending| {
          assert AwaitsAnswer(m, pending, i);
          assert q[i] == pending[i];
        }
      }
    } else {
      var i :| 0 <= i < |pending| && pending[i].localCid == Some(cid);
      assert q[i].localCid == Some(cid) && q[|pending|] == r;
      assert !AwaitsAnswer(n, q, |pending|);
    }
  }

  /**
   Connecting keeps the injection if and only if the CID it allocates is named by
   no pending request; when the request cannot be sent or tracked it always does.
   */
  lemma ConnectAwaits(p: Proc, psm: u16, remoteAddr: Address, connHandle: u16)
    requires Coherent(p) && Awaiting(p)
    ensures var (q, r) := Connect(p, psm, remoteAddr, connHandle);
            && (r.Ok? ==> (Awaiting(q) <==> FreshCid(p)))
            && (r.Err? ==> Awaiting(q))
  {
    ConnectEffect(p, psm, remoteAddr, connHandle);
    var cid := AllocatedCid(p.manager);
    PushAwaits(Chans(p), p.pending, cid, Waiting(cid, psm, remoteAddr, connHandle),
               PendingRequest(p.nextId, Some(cid), ConnReq));
  }

  lemma RequestAwaits(m: map<u16, L2capChannel>, pending: seq<PendingRequest>, cid: u16, c: L2capChannel,
                      r: PendingRequest)
    requires AllAwait(m, pending) && cid in m && m[cid].remoteCid.Some?
    requires r.localCid == Some(cid) && !r.code.ConnReq?
    ensures AllAwait(m[cid := c], pending) && AllAwait(m[cid := c], pending + [r])
  {
    var n, q := m[cid := c], pending + [r];
    forall i | 0 <= i < |pending| && pending[i].code.ConnReq?
      ensures AwaitsAnswer(n, pending, i) && AwaitsAnswer(n, q, i)
    {
      assert AwaitsAnswer(m, pending, i);
      assert q[i] == pending[i];
    }
  }

  lemma AnswerAwaits(m: map<u16, L2capChannel>, pending: seq<PendingRequest>, i: nat, command: SignalingCommand)
    requires AllAwait(m, pending) && i < |pending| && pending[i].localCid.Some? && IsResponse(command)
    ensures AllAwait(AfterAnswer(m, pending[i].localCid.value, command), SwapRemove(pending, i))
  {
    var n, q := AfterAnswer(m, pending[i].localCid.value, command), SwapRemove(pending, i);
    forall k | 0 <= k < |q| && q[k].code.ConnReq? ensures AwaitsAnswer(n, q, k) {
      var k0 := if k == i then |pending| - 1 else k;
      assert q[k] == pending[k0];
      assert AwaitsAnswer(m, pending, k0);
      forall j | 0 <= j < |q| && j != k ensures q[j].localCid != q[k].localCid {
        assert q[j] == pending[if j == i then |pending| - 1 else j];
      }
    }
  }

  lemma RemovalAwaits(m: map<u16, L2capChannel>, pending: seq<PendingRequest>, cid: u16)
    requires AllAwait(m, pending) && (cid in m ==> m[cid].remoteCid.Some?)
    ensures AllAwait(m - {cid}, pending)
  {
    forall i | 0 <= i < |pending| && pending[i].code.ConnReq? ensures AwaitsAnswer(m - {cid}, pending, i) {
      assert AwaitsAnswer(m, pending, i);
    }
  }

  lemma AdditionAwaits(m: map<u16, L2capChannel>, pending: seq<PendingRequest>, cid: u16, c: L2capChannel)
    requires AllAwait(m, pending) && cid !in m
    ensures AllAwait(m[cid := c], pending)
  {
    forall i | 0 <= i < |pending| && pending[i].code.ConnReq? ensures AwaitsAnswer(m[cid := c], pending, i) {
      assert AwaitsAnswer(m, pending, i);
    }
  }

  /** Whatever a peer sends, the injection is kept. */
  lemma ReceiveAwaits(p: Proc, command: SignalingCommand, remoteAddr: Address, connHandle: u16)
    requires Coherent(p) && Awaiting(p)
    ensures Awaiting(HandleCommand(p, command, remoteAddr, connHandle).0)
  {
    match command {
      case ConnectionRequest(h, psm, src) =>
        ConnectionRequestEffect(p, h, psm, src, remoteAddr, connHandle);
        var cid := AllocatedCid(p.manager);
        AdditionAwaits(Chans(p), p.pending, cid, Incoming(cid, src, psm, remoteAddr, connHandle));
      case DisconnectionRequest(h, dst, src) =>
        var removed := DisconnectionRequestEffect(p, h, dst, src, connHandle);
        if removed.Some? {
          RemovalAwaits(Chans(p), p.pending, removed.value);
        }
      case ConfigurationRequest(_, _, _, _) =>
      case Unknown(_, _) =>
      case _ =>
        ResponseEffect(p, command, remoteAddr, connHandle);
        var i := AnsweredIndex(p, command);
        if i < |p.pending| {
          AnswerAwaits(Chans(p), p.pending, i, command);
        }
    }
  }

  lemma ConfigureAwaits(p: Proc, cid: u16, options: ConfigurationOptions)
    requires Coherent(p) && Awaiting(p)
    ensures Awaiting(ConfigureChannel(p, cid, options).0)
  {
    ConfigureEffect(p, cid, options);
    if cid in Chans(p) && Chans(p)[cid].remoteCid.Some? {
      RequestAwaits(Chans(p), p.pending, cid, Chans(ConfigureChannel(p, cid, options).0)[cid],
                    PendingRequest(p.nextId, Some(cid), ConfReq));
    }
  }

  lemma DisconnectAwaits(p: Proc, cid: u16)
    requires Coherent(p) && Awaiting(p)
    ensures Awaiting(Disconnect(p, cid).0)
  {
    DisconnectEffect(p, cid);
    if cid in Chans(p) && Chans(p)[cid].remoteCid.Some? {
      RequestAwaits(Chans(p), p.pending, cid, Chans(Disconnect(p, cid).0)[cid],
                    PendingRequest(p.nextId, Some(cid), DiscReq));
    }
  }

  lemma AwaitingStep(p: Proc, op: Op)
    requires Coherent(p) && Awaiting(p)
    requires op.OpConnect? ==> FreshCid(p)
    ensures Awaiting(Apply(p, op))
  {
    match op {
      case OpConnect(psm, addr, h) => ConnectAwaits(p, psm, addr, h);
      case OpConfigure(cid, options) => ConfigureAwaits(p, cid, options);
      case OpDisconnect(cid) => DisconnectAwaits(p, cid);
      case OpReceive(command, addr, h) => ReceiveAwaits(p, command, addr, h);
    }
  }

  predicate Answers(p: Proc, op: Op, i: nat) {
    op.OpReceive? && AnsweredIndex(p, op.command) == i
  }

  /** Entry i and its channel are as they were. */
  ghost predicate Untouched(p: Proc, q: Proc, i: nat)
    requires i < |p.pending| && p.pending[i].localCid.Some?
  {
    var cid := p.pending[i].localCid.value;
    cid in Chans(p) && cid in Chans(q) && Chans(q)[cid] == Chans(p)[cid] && p.pending[i] in q.pending
  }

  lemma OtherEntriesRemain(m: map<u16, L2capChannel>, pending: seq<PendingRequest>, i: nat, k: nat,
                           command: SignalingCommand)
    requires i < |pending| && k < |pending| && k != i && AwaitsAnswer(m, pending, i)
    requires pending[k].localCid.Some? && IsResponse(command)
    ensures var cid, n := pending[i].localCid.value, AfterAnswer(m, pending[k].localCid.value, command);
            cid in n && n[cid] == m[cid]
    ensures pending[i] in SwapRemove(pending, k)
  {
    assert pending[k].localCid != pending[i].localCid;
    assert SwapRemove(pending, k)[if i == |pending| - 1 then k else i] == pending[i];
  }

  lemma OtherAnswerTouches(p: Proc, command: SignalingCommand, addr: Address, h: u16, i: nat)
    requires Coherent(p) && i < |p.pending| && AwaitsAnswer(Chans(p), p.pending, i)
    requires IsResponse(command) && AnsweredIndex(p, command) != i
    ensures Untouched(p, HandleCommand(p, command, addr, h).0, i)
  {
    ResponseEffect(p, command, addr, h);
    var k := AnsweredIndex(p, command);
    if k < |p.pending| {
      OtherEntriesRemain(Chans(p), p.pending, i, k, command);
    }
  }

  lemma OtherCommandTouches(p: Proc, command: SignalingCommand, addr: Address, h: u16, i: nat)
    requires Coherent(p) && i < |p.pending| && AwaitsAnswer(Chans(p), p.pending, i)
    requires AnsweredIndex(p, command) != i
    ensures Untouched(p, HandleCommand(p, command, addr, h).0, i)
  {
    match command {
      case ConnectionRequest(hd, psm, src) => ConnectionRequestEffect(p, hd, psm, src, addr, h);
      case DisconnectionRequest(hd, dst, src) => var removed := DisconnectionRequestEffect(p, hd, dst, src, h);
      case ConfigurationRequest(_, _, _, _) =>
      case Unknown(_, _) =>
      case _ => OtherAnswerTouches(p, command, addr, h, i);
    }
  }

  /** No operation but its own answer removes or re-states a channel that awaits a connection answer. */
  lemma OnlyItsAnswerTouches(p: Proc, op: Op, i: nat)
    requires Coherent(p) && Awaiting(p) && i < |p.pending| && p.pending[i].code.ConnReq?
    requires !Answers(p, op, i)
    ensures AwaitsAnswer(Chans(p), p.pending, i) && Untouched(p, Apply(p, op), i)
  {
    match op {
      case OpConnect(psm, addr, h) => ConnectEffect(p, psm, addr, h);
      case OpConfigure(cid, options) => ConfigureEffect(p, cid, options);
      case OpDisconnect(cid) => DisconnectEffect(p, cid);
      case OpReceive(command, addr, h) => OtherCommandTouches(p, command, addr, h, i);
    }
  }

  // ----- The first cycle of CIDs -----

  /** How many CIDs an operation draws. */
  function Draws(op: Op): nat {
    match op
    case OpConnect(_, _, _) => 1
    case OpReceive(ConnectionRequest(_, psm, _), _, _) => if psm == AVDTP_PSM then 1 else 0
    case _ => 0
  }

  function RunDraws(ops: seq<Op>): nat {
    if ops == [] then 0 else Draws(ops[0]) + RunDraws(ops[1..])
  }

  /** The cursor after d draws of the first cycle. */
  function CycleCursor(d: nat): u16
    requires d <= DYNAMIC_COUNT
  {
    if d == DYNAMIC_COUNT then DYNAMIC_START else DYNAMIC_START + d
  }

  /** After d draws of the first cycle every CID in use was drawn before the cursor. */
  ghost predicate FirstCycle(p: Proc, d: nat) {
    && d <= DYNAMIC_COUNT
    && p.manager.nextLocalCid == CycleCursor(d)
    && (forall cid :: cid in Chans(p) ==> cid < DYNAMIC_START + d)
    && (forall i :: 0 <= i < |p.pending| ==>
                     p.pending[i].localCid.Some? && p.pending[i].localCid.value < DYNAMIC_START + d)
  }

  lemma FirstCycleCursor(d: nat)
    requires d < DYNAMIC_COUNT
    ensures CycleCursor(d) == DYNAMIC_START + d
    ensures CidAfter(DYNAMIC_START + d, 1) == CycleCursor(d + 1)
  {
  }

  lemma FirstProbeFree(m: Manager)
    requires ManagerOk(m) && m.nextLocalCid !in AsMap(m.channels)
    ensures AllocatedCid(m) == m.nextLocalCid
    ensures Allocate(m).0.nextLocalCid == CidAfter(m.nextLocalCid, 1)
  {
    var k := AllocateFirstFree(m);
    CidAfterNext(m.nextLocalCid, 0);
    HasIsIn(m.channels, m.nextLocalCid);
    assert !Has(m.channels, CidAfter(m.nextLocalCid, 0));
  }

  lemma FirstCycleDraw(p: Proc, d: nat)
    requires Coherent(p) && FirstCycle(p, d) && d < DYNAMIC_COUNT
    ensures AllocatedCid(p.manager) == DYNAMIC_START + d && FreshCid(p)
    ensures Allocate(p.manager).0.nextLocalCid == CycleCursor(d + 1)
  {
    FirstCycleCursor(d);
    assert DYNAMIC_START + d !in Chans(p);
    FirstProbeFree(p.manager);
  }

  lemma FirstCycleConnect(p: Proc, psm: u16, addr: Address, h: u16, d: nat)
    requires Coherent(p) && FirstCycle(p, d) && d < DYNAMIC_COUNT
    ensures FirstCycle(Connect(p, psm, addr, h).0, d + 1)
  {
    FirstCycleDraw(p, d);
    ConnectEffect(p, psm, addr, h);
  }

  lemma FirstCycleConfigure(p: Proc, cid: u16, options: ConfigurationOptions, d: nat)
    requires Coherent(p) && FirstCycle(p, d) && d <= DYNAMIC_COUNT
    ensures FirstCycle(ConfigureChannel(p, cid, options).0, d)
  {
    ConfigureEffect(p, cid, options);
  }

  lemma FirstCycleDisconnect(p: Proc, cid: u16, d: nat)
    requires Coherent(p) && FirstCycle(p, d) && d <= DYNAMIC_COUNT
    ensures FirstCycle(Disconnect(p, cid).0, d)
  {
    DisconnectEffect(p, cid);
  }

  lemma FirstCycleStep(p: Proc, op: Op, d: nat)
    requires Coherent(p) && FirstCycle(p, d) && d + Draws(op) <= DYNAMIC_COUNT
    ensures FirstCycle(Apply(p, op), d + Draws(op))
    ensures Draws(op) > 0 ==> FreshCid(p)
  {
    if Draws(op) > 0 {
      FirstCycleDraw(p, d);
    }
    match op {
      case OpConnect(psm, addr, h) => FirstCycleConnect(p, psm, addr, h, d);
      case OpConfigure(cid, options) => FirstCycleConfigure(p, cid, options, d);
      case OpDisconnect(cid) => FirstCycleDisconnect(p, cid, d);
      case OpReceive(command, addr, h) => FirstCycleReceive(p, command, addr, h, d);
    }
  }

  lemma FirstCycleReceive(p: Proc, command: SignalingCommand, addr: Address, h: u16, d: nat)
    requires Coherent(p) && FirstCycle(p, d) && d + Draws(OpReceive(command, addr, h)) <= DYNAMIC_COUNT
    ensures FirstCycle(HandleCommand(p, command, addr, h).0, d + Draws(OpReceive(command, addr, h)))
  {
    match command {
      case ConnectionRequest(hd, psm, src) =>
        ConnectionRequestEffect(p, hd, psm, src, addr, h);
        if psm == AVDTP_PSM {
          FirstCycleDraw(p, d);
        }
      case DisconnectionRequest(hd, dst, src) => var removed := DisconnectionRequestEffect(p, hd, dst, src, h);
      case ConfigurationRequest(_, _, _, _) =>
      case Unknown(_, _) =>
      case _ => FirstCycleResponse(p, command, addr, h, d);
    }
  }

  lemma FirstCycleResponse(p: Proc, command: SignalingCommand, addr: Address, h: u16, d: nat)
    requires Coherent(p) && FirstCycle(p, d) && IsResponse(command)
    ensures FirstCycle(HandleCommand(p, command, addr, h).0, d)
  {
    ResponseEffect(p, command, addr, h);
    var i := AnsweredIndex(p, command);
    if i < |p.pending| {
      var q := SwapRemove(p.pending, i);
      forall k | 0 <= k < |q| ensures q[k].localCid.Some? && q[k].localCid.value < DYNAMIC_START + d {
        assert q[k] == p.pending[if k == i then |p.pending| - 1 else k];
      }
    }
  }

  ghost predicate AwaitingInCycle(p: Proc, d: nat) {
    Coherent(p) && Awaiting(p) && FirstCycle(p, d)
  }

  lemma AwaitingInCycleStep(p: Proc, op: Op, d: nat)
    requires AwaitingInCycle(p, d) && d + Draws(op) <= DYNAMIC_COUNT
    ensures AwaitingInCycle(Apply(p, op), d + Draws(op))
  {
    CoherentStep(p, op);
    FirstCycleStep(p, op, d);
    AwaitingStep(p, op);
  }

  /**
   In every run that draws at most 0xFFC0 CIDs, against arbitrary incoming
   commands, the pending connection requests map injectively onto channels that
   are present, waiting, and have no remote CID.
   */
  lemma {:induction false} RunsAwait(p: Proc, ops: seq<Op>, d: nat)
    requires AwaitingInCycle(p, d) && d + RunDraws(ops) <= DYNAMIC_COUNT
    ensures AwaitingInCycle(Run(p, ops), d + RunDraws(ops))
    decreases |ops|
  {
    if ops != [] {
      var next, drawn := Apply(p, ops[0]), d + Draws(ops[0]);
      assert AwaitingInCycle(next, drawn) by {
        AwaitingInCycleStep(p, ops[0], d);
      }
      assert d + RunDraws(ops) == drawn + RunDraws(ops[1..]) && Run(p, ops) == Run(next, ops[1..]);
      RunsAwait(next, ops[1..], drawn);
    }
  }

  lemma NewProcessorAwaits()
    ensures AwaitingInCycle(NEW_PROC, 0)
  {
    CoherentInitially();
  }

  // ----- Identifiers -----

  /** The identifier k draws after `id`. */
  function IdAfter(id: u8, k: nat): u8
    requires 1 <= id
  {
    1 + (id - 1 + k) % 255
  }

  lemma Congruent255(x: nat, y: nat)
    ensures x % 255 == y % 255 <==> (y - x) % 255 == 0
  {
    assert y - x == 255 * (y / 255 - x / 255) + (y % 255 - x % 255);
  }

  /** Identifiers are never 0 and repeat exactly every 255 draws. */
  lemma IdentifiersRepeatEvery255(id: u8, i: nat, j: nat)
    requires 1 <= id && i <= j
    ensures IdAfter(id, 0) == id && IdAfter(id, i + 1) == NextId(IdAfter(id, i)) && IdAfter(id, i) != 0
    ensures IdAfter(id, i) == IdAfter(id, j) <==> (j - i) % 255 == 0
  {
    Congruent255(id - 1 + i, id - 1 + j);
  }

  /** The identifier drawn `age` draws before `next` becomes the next one. */
  function IdBefore(next: u8, age: nat): u8
    requires 1 <= next
  {
    1 + (next - 1 - age) % 255
  }

  lemma IdBeforeOlder(next: u8, age: nat)
    requires 1 <= next
    ensures IdBefore(NextId(next), age + 1) == IdBefore(next, age)
    ensures IdBefore(NextId(next), 1) == next
  {
  }

  function Older(ages: seq<nat>): seq<nat> {
    seq(|ages|, i requires 0 <= i < |ages| => ages[i] + 1)
  }

  /** Draw ages of the pending requests, kept in step with an operation. */
  function AgesAfter(p: Proc, op: Op, ages: seq<nat>): seq<nat>
    requires |ages| == |p.pending|
  {
    var q := Apply(p, op);
    if op.OpReceive? then
      var i := AnsweredIndex(p, op.command);
      if i < |ages| then SwapRemove(ages, i) else ages
    else if q.nextId == p.nextId then ages
    else if |q.pending| > |p.pending| then Older(ages) + [1]
    else Older(ages)
  }

  ghost predicate Aged(p: Proc, ages: seq<nat>) {
    && 1 <= p.nextId
    && |ages| == |p.pending|
    && (forall i :: 0 <= i < |ages| ==> 1 <= ages[i] && p.pending[i].identifier == IdBefore(p.nextId, ages[i]))
    && (forall i, j :: 0 <= i < j < |ages| ==> ages[i] != ages[j])
  }

  lemma OlderIsAged(p: Proc, q: Proc, ages: seq<nat>)
    requires Aged(p, ages) && q.nextId == NextId(p.nextId) && q.pending == p.pending
    ensures Aged(q, Older(ages))
  {
    forall i | 0 <= i < |ages| ensures q.pending[i].identifier == IdBefore(q.nextId, Older(ages)[i]) {
      IdBeforeOlder(p.nextId, ages[i]);
    }
  }

  lemma DrawIsAged(p: Proc, q: Proc, ages: seq<nat>, r: PendingRequest)
    requires Aged(p, ages) && q.nextId == NextId(p.nextId)
    requires q.pending == p.pending + [r] && r.identifier == p.nextId
    ensures Aged(q, Older(ages) + [1])
  {
    OlderIsAged(p, q.(pending := p.pending), ages);
    IdBeforeOlder(p.nextId, 0);
  }

  lemma RemovalIsAged(p: Proc, q: Proc, ages: seq<nat>, i: nat)
    requires Aged(p, ages) && q.nextId == p.nextId && i < |ages| && q.pending == SwapRemove(p.pending, i)
    ensures Aged(q, SwapRemove(ages, i))
  {
    var left := SwapRemove(ages, i);
    forall k | 0 <= k < |left|
      ensures var k0 := if k == i then |ages| - 1 else k; left[k] == ages[k0] && q.pending[k] == p.pending[k0]
    {
    }
  }

  lemma NextIdMoves(id: u8)
    requires 1 <= id
    ensures NextId(id) != id && 1 <= NextId(id)
  {
  }

  lemma AgedStep(p: Proc, op: Op, ages: seq<nat>)
    requires Coherent(p) && Aged(p, ages)
    ensures Aged(Apply(p, op), AgesAfter(p, op, ages))
  {
    var q := Apply(p, op);
    NextIdMoves(p.nextId);
    match op {
      case OpReceive(command, addr, h) => AgedReceive(p, command, addr, h, ages);
      case _ =>
        match op {
          case OpConnect(psm, addr, h) => ConnectEffect(p, psm, addr, h);
          case OpConfigure(cid, options) => ConfigureEffect(p, cid, options);
          case OpDisconnect(cid) => DisconnectEffect(p, cid);
        }
        if q.nextId != p.nextId {
          if q.pending == p.pending {
            OlderIsAged(p, q, ages);
          } else {
            DrawIsAged(p, q, ages, q.pending[|p.pending|]);
          }
        }
    }
  }

  lemma AgedReceive(p: Proc, command: SignalingCommand, addr: Address, h: u16, ages: seq<nat>)
    requires Coherent(p) && Aged(p, ages)
    ensures Aged(HandleCommand(p, command, addr, h).0, AgesAfter(p, OpReceive(command, addr, h), ages))
  {
    match command {
      case ConnectionRequest(hd, psm, src) => ConnectionRequestEffect(p, hd, psm, src, addr, h);
      case DisconnectionRequest(hd, dst, src) => var removed := DisconnectionRequestEffect(p, hd, dst, src, h);
      case ConfigurationRequest(_, _, _, _) =>
      case Unknown(_, _) =>
      case _ => AgedResponse(p, command, addr, h, ages);
    }
  }

  lemma AgedResponse(p: Proc, command: SignalingCommand, addr: Address, h: u16, ages: seq<nat>)
    requires Coherent(p) && Aged(p, ages) && IsResponse(command)
    ensures Aged(HandleCommand(p, command, addr, h).0, AgesAfter(p, OpReceive(command, addr, h), ages))
  {
    ResponseEffect(p, command, addr, h);
    var i := AnsweredIndex(p, command);
    if i < |p.pending| {
      RemovalIsAged(p, HandleCommand(p, command, addr, h).0, ages, i);
    }
  }

  function RunAges(p: Proc, ops: seq<Op>, ages: seq<nat>): seq<nat>
    requires Coherent(p) && Aged(p, ages)
    decreases |ops|
  {
    if ops == [] then ages
    else
      CoherentStep(p, ops[0]);
      AgedStep(p, ops[0], ages);
      RunAges(Apply(p, ops[0]), ops[1..], AgesAfter(p, ops[0], ages))
  }

  ghost predicate DistinctIds(pending: seq<PendingRequest>) {
    forall i, j :: 0 <= i < j < |pending| ==> pending[i].identifier != pending[j].identifier
  }

  ghost predicate FreshId(p: Proc) {
    forall i :: 0 <= i < |p.pending| ==> p.pending[i].identifier != p.nextId
  }

  lemma IdBeforeDiffers(next: u8, age: nat)
    requires 1 <= next && 1 <= age <= 254
    ensures IdBefore(next, age) != next
  {
  }

  lemma IdBeforeDistinct(next: u8, a: nat, b: nat)
    requires 1 <= next && 1 <= a <= 254 && 1 <= b <= 254 && a != b
    ensures IdBefore(next, a) != IdBefore(next, b)
  {
  }

  /** While no pending request is older than 254 draws, identifiers are distinct and the next one is new. */
  lemma YoungIdentifiersDistinct(p: Proc, ages: seq<nat>)
    requires Aged(p, ages) && forall i :: 0 <= i < |ages| ==> ages[i] <= 254
    ensures DistinctIds(p.pending) && FreshId(p)
  {
    forall i | 0 <= i < |p.pending| ensures p.pending[i].identifier != p.nextId {
      IdBeforeDiffers(p.nextId, ages[i]);
    }
    forall i, j | 0 <= i < j < |p.pending| ensures p.pending[i].identifier != p.pending[j].identifier {
      IdBeforeDistinct(p.nextId, ages[i], ages[j]);
    }
  }

  /** The draw ages name the identifiers of the pending requests over every run. */
  lemma {:induction false} RunsAreAged(p: Proc, ops: seq<Op>, ages: seq<nat>)
    requires Coherent(p) && Aged(p, ages)
    ensures Aged(Run(p, ops), RunAges(p, ops, ages))
    decreases |ops|
  {
    if ops != [] {
      CoherentStep(p, ops[0]);
      AgedStep(p, ops[0], ages);
      RunsAreAged(Apply(p, ops[0]), ops[1..], AgesAfter(p, ops[0], ages));
    }
  }

  /** With distinct identifiers a response can match only one entry: any other choice of entry is not an answer. */
  lemma AnswerIsUnique(p: Proc, command: SignalingCommand, k: nat)
    requires DistinctIds(p.pending) && k < |p.pending| && p.pending[k].identifier == command.header.identifier
    requires AnsweredIndex(p, command) < |p.pending|
    ensures k == AnsweredIndex(p, command)
  {
  }
}
