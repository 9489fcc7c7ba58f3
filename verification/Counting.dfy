/** Draw counts under which no identifier and no CID is drawn while an outstanding request still uses it. */
module Counting {
  import opened Wrappers
  import opened Words
  import opened IndexMap
  import opened Channel
  import opened Signaling
  import opened Processor
  import opened ProcessorRuns
  import opened PendingRuns
  import opened Agreement
  import opened Duplex

  /**
   For each CID ever drawn, how far the cursor moved since it stood there, and for
   each pending request the identifiers drawn since, its own included.
   */
  datatype Count = Count(drawn: map<u16, nat>, ages: seq<nat>)

  const NO_DRAWS := Count(map[], [])

  /** The distances lead to the cursor. */
  ghost predicate OnRing(drawn: map<u16, nat>, cursor: u16) {
    forall cid :: cid in drawn ==> DYNAMIC_START <= cid && 1 <= drawn[cid] && CidAfter(cid, drawn[cid]) == cursor
  }

  /** Every CID a channel or a pending request has is among `cids`. */
  ghost predicate Known(p: Proc, cids: set<u16>) {
    && Chans(p).Keys <= cids
    && forall i :: 0 <= i < |p.pending| ==> p.pending[i].localCid.Some? && p.pending[i].localCid.value in cids
  }

  ghost predicate Tallied(p: Proc, n: Count) {
    OnRing(n.drawn, p.manager.nextLocalCid) && Known(p, n.drawn.Keys) && Aged(p, n.ages)
  }

  /** The operation an action performs on its side's processor, if any. */
  function OpOf(s: System, action: Action): Option<Op> {
    match action
    case DoConnect(psm) => Some(OpConnect(psm, s.a.peer, s.a.handle))
    case DoConfigure(cid, options) => Some(OpConfigure(cid, options))
    case DoDisconnect(cid) => Some(OpDisconnect(cid))
    case DoReceive => if s.ba == [] then None else Some(OpReceive(s.ba[0], s.a.peer, s.a.handle))
  }

  lemma StepPerformsOp(s: System, action: Action)
    ensures StepA(s, action).b == s.b
    ensures StepA(s, action).a.proc
            == match OpOf(s, action)
               case None => s.a.proc
               case Some(op) => Apply(s.a.proc, op)
  {
  }

  /** The cursor moved by some steps and gave out cid with the last one. */
  function Moved(drawn: map<u16, nat>, steps: nat, cid: u16): map<u16, nat> {
    (map x | x in drawn :: drawn[x] + steps)[cid := 1]
  }

  function DrawnAfter(p: Proc, op: Op, drawn: map<u16, nat>): map<u16, nat> {
    if Draws(op) == 0 then drawn else Moved(drawn, AllocateSteps(p.manager), AllocatedCid(p.manager))
  }

  function CountAfter(s: System, action: Action, n: Count): Count
    requires |n.ages| == |s.a.proc.pending|
  {
    match OpOf(s, action)
    case None => n
    case Some(op) => Count(DrawnAfter(s.a.proc, op, n.drawn), AgesAfter(s.a.proc, op, n.ages))
  }

  /**
   Since the draw of each CID that an outstanding request names, the allocation
   included, the cursor went round at most once.
   */
  ghost predicate CidsRecent(p: Proc, drawn: map<u16, nat>) {
    forall i ::
      0 <= i < |p.pending| && !p.pending[i].code.ConfReq? && p.pending[i].localCid.Some?
      && p.pending[i].localCid.value in drawn ==>
        drawn[p.pending[i].localCid.value] + AllocateSteps(p.manager) <= DYNAMIC_COUNT
  }

  /** No request of this kind has been outstanding for 255 identifiers. */
  ghost predicate IdsRecent(p: Proc, code: SignalingCode, ages: seq<nat>)
    requires |ages| == |p.pending|
  {
    forall i :: 0 <= i < |ages| && p.pending[i].code == code ==> ages[i] <= 254
  }

  /** The draws of the action stay within the bounds. */
  ghost predicate WithinA(s: System, action: Action, n: Count) {
    && |n.ages| == |s.a.proc.pending|
    && (action.DoConnect? ==> IdsRecent(s.a.proc, ConnReq, n.ages))
    && (action.DoDisconnect? ==> IdsRecent(s.a.proc, DiscReq, n.ages))
    && (OpOf(s, action).Some? && Draws(OpOf(s, action).value) > 0 ==> CidsRecent(s.a.proc, n.drawn))
  }

  /** Every action of the run stays within the counts of its side. */
  ghost predicate WithinRun(s: System, events: seq<Event>, a: Count, b: Count)
    decreases |events|
  {
    events == [] ||
    match events[0]
    case AtA(action) =>
      WithinA(s, action, a) && WithinRun(Step(s, events[0]), events[1..], CountAfter(s, action, a), b)
    case AtB(action) =>
      WithinA(Swap(s), action, b) && WithinRun(Step(s, events[0]), events[1..], a, CountAfter(Swap(s), action, b))
  }

  lemma RecentIdsAreFresh(p: Proc, code: SignalingCode, ages: seq<nat>)
    requires Aged(p, ages) && IdsRecent(p, code, ages)
    ensures FreshKey(p, code)
  {
    forall i | 0 <= i < |p.pending| && p.pending[i].code == code ensures p.pending[i].identifier != p.nextId {
      IdBeforeDiffers(p.nextId, ages[i]);
    }
  }

  lemma AllocatedAhead(m: Manager)
    requires ManagerOk(m)
    ensures AllocateSteps(m) >= 1 && AllocatedCid(m) == CidAfter(m.nextLocalCid, AllocateSteps(m) - 1)
    ensures Allocate(m).0.nextLocalCid == CidAfter(m.nextLocalCid, AllocateSteps(m))
  {
    var k := AllocateFirstFree(m);
  }

  /** A CID at less than a whole round behind the cursor is not given out next. */
  lemma RecentCidDiffers(cid: u16, distance: nat, cursor: u16, steps: nat)
    requires DYNAMIC_START <= cid && CidAfter(cid, distance) == cursor
    requires 1 <= distance && 1 <= steps && distance + steps <= DYNAMIC_COUNT
    ensures CidAfter(cursor, steps - 1) != cid
  {
    CidAfterAdds(cid, distance, steps - 1);
    CidAfterNext(cid, 0);
    CidsDiffer(cid, 0, distance + steps - 1);
  }

  lemma RecentCidsAreFree(p: Proc, n: Count)
    requires Coherent(p) && Tallied(p, n) && CidsRecent(p, n.drawn)
    ensures FreeCid(p)
  {
    var m, steps := p.manager, AllocateSteps(p.manager);
    AllocatedAhead(m);
    forall i | 0 <= i < |p.pending| && !p.pending[i].code.ConfReq?
      ensures p.pending[i].localCid != Some(AllocatedCid(m))
    {
      var cid := p.pending[i].localCid.value;
      RecentCidDiffers(cid, n.drawn[cid], m.nextLocalCid, steps);
    }
  }

  lemma FurtherAlong(cid: u16, distance: nat, cursor: u16, steps: nat)
    requires DYNAMIC_START <= cid && CidAfter(cid, distance) == cursor
    ensures CidAfter(cid, distance + steps) == CidAfter(cursor, steps)
  {
    CidAfterAdds(cid, distance, steps);
  }

  lemma RingMoves(drawn: map<u16, nat>, cursor: u16, steps: nat, cid: u16, next: u16)
    requires OnRing(drawn, cursor) && DYNAMIC_START <= cursor && steps >= 1
    requires cid == CidAfter(cursor, steps - 1) && next == CidAfter(cursor, steps)
    ensures OnRing(Moved(drawn, steps, cid), next)
  {
    CidAfterAdds(cursor, steps - 1, 1);
    forall x | x in drawn ensures CidAfter(x, drawn[x] + steps) == next {
      FurtherAlong(x, drawn[x], cursor, steps);
    }
  }

  lemma RingStep(p: Proc, op: Op, drawn: map<u16, nat>)
    requires Coherent(p) && OnRing(drawn, p.manager.nextLocalCid)
    ensures OnRing(DrawnAfter(p, op, drawn), Apply(p, op).manager.nextLocalCid)
  {
    CursorStep(p, op);
    if Draws(op) > 0 {
      AllocatedAhead(p.manager);
      RingMoves(drawn, p.manager.nextLocalCid, AllocateSteps(p.manager), AllocatedCid(p.manager),
                Allocate(p.manager).0.nextLocalCid);
    }
  }

  /** Only a draw moves the cursor. */
  lemma CursorStep(p: Proc, op: Op)
    requires Coherent(p)
    ensures Apply(p, op).manager.nextLocalCid
            == if Draws(op) > 0 then Allocate(p.manager).0.nextLocalCid else p.manager.nextLocalCid
  {
    match op {
      case OpConnect(psm, addr, h) => ConnectEffect(p, psm, addr, h);
      case OpConfigure(cid, options) => ConfigureEffect(p, cid, options);
      case OpDisconnect(cid) => DisconnectEffect(p, cid);
      case OpReceive(command, addr, h) =>
        match command {
          case ConnectionRequest(hd, psm, src) => ConnectionRequestEffect(p, hd, psm, src, addr, h);
          case DisconnectionRequest(hd, dst, src) => var removed := DisconnectionRequestEffect(p, hd, dst, src, h);
          case ConfigurationRequest(_, _, _, _) =>
          case Unknown(_, _) =>
          case _ => ResponseEffect(p, command, addr, h);
        }
    }
  }

  lemma KnownResponse(p: Proc, command: SignalingCommand, addr: Address, h: u16, cids: set<u16>)
    requires Coherent(p) && Known(p, cids) && IsResponse(command)
    ensures Known(HandleCommand(p, command, addr, h).0, cids)
  {
    ResponseEffect(p, command, addr, h);
    var i := AnsweredIndex(p, command);
    if i < |p.pending| {
      var q := SwapRemove(p.pending, i);
      forall k | 0 <= k < |q| ensures q[k] == p.pending[if k == i then |p.pending| - 1 else k] {
      }
    }
  }

  lemma KnownReceive(p: Proc, command: SignalingCommand, addr: Address, h: u16, cids: set<u16>)
    requires Coherent(p) && Known(p, cids)
    ensures var drew := Draws(OpReceive(command, addr, h)) > 0;
            Known(HandleCommand(p, command, addr, h).0, cids + if drew then {AllocatedCid(p.manager)} else {})
  {
    match command {
      case ConnectionRequest(hd, psm, src) => ConnectionRequestEffect(p, hd, psm, src, addr, h);
      case DisconnectionRequest(hd, dst, src) => var removed := DisconnectionRequestEffect(p, hd, dst, src, h);
      case ConfigurationRequest(_, _, _, _) =>
      case Unknown(_, _) =>
      case _ => KnownResponse(p, command, addr, h, cids);
    }
  }

  lemma KnownStep(p: Proc, op: Op, cids: set<u16>)
    requires Coherent(p) && Known(p, cids)
    ensures Known(Apply(p, op), cids + if Draws(op) > 0 then {AllocatedCid(p.manager)} else {})
  {
    match op {
      case OpConnect(psm, addr, h) => ConnectEffect(p, psm, addr, h);
      case OpConfigure(cid, options) => ConfigureEffect(p, cid, options);
      case OpDisconnect(cid) => DisconnectEffect(p, cid);
      case OpReceive(command, addr, h) => KnownReceive(p, command, addr, h, cids);
    }
  }

  lemma DrawnKeys(p: Proc, op: Op, drawn: map<u16, nat>)
    ensures DrawnAfter(p, op, drawn).Keys == drawn.Keys + if Draws(op) > 0 then {AllocatedCid(p.manager)} else {}
  {
  }

  lemma TalliedOp(p: Proc, op: Op, n: Count)
    requires Coherent(p) && Tallied(p, n)
    ensures Tallied(Apply(p, op), Count(DrawnAfter(p, op, n.drawn), AgesAfter(p, op, n.ages)))
  {
    RingStep(p, op, n.drawn);
    KnownStep(p, op, n.drawn.Keys);
    DrawnKeys(p, op, n.drawn);
    AgedStep(p, op, n.ages);
  }

  /** Within the bounds, an action is timely. */
  lemma WithinIsTimely(s: System, action: Action, n: Count)
    requires Coherent(s.a.proc) && Tallied(s.a.proc, n) && WithinA(s, action, n)
    ensures TimelyA(s, action)
  {
    match action {
      case DoConnect(psm) =>
        RecentIdsAreFresh(s.a.proc, ConnReq, n.ages);
        RecentCidsAreFree(s.a.proc, n);
      case DoConfigure(_, _) =>
      case DoDisconnect(_) => RecentIdsAreFresh(s.a.proc, DiscReq, n.ages);
      case DoReceive =>
        if OpOf(s, action).Some? && Draws(OpOf(s, action).value) > 0 {
          RecentCidsAreFree(s.a.proc, n);
        }
    }
  }

  lemma TalliedStep(s: System, action: Action, n: Count)
    requires Coherent(s.a.proc) && Tallied(s.a.proc, n)
    ensures Tallied(StepA(s, action).a.proc, CountAfter(s, action, n))
  {
    StepPerformsOp(s, action);
    match OpOf(s, action) {
      case None =>
      case Some(op) => TalliedOp(s.a.proc, op, n);
    }
  }

  lemma {:induction false} CountedRunsAreTimely(s: System, events: seq<Event>, a: Count, b: Count)
    requires Joined(s) && Tallied(s.a.proc, a) && Tallied(s.b.proc, b) && WithinRun(s, events, a, b)
    ensures TimelyRun(s, events)
    decreases |events|
  {
    if events != [] {
      var next := Step(s, events[0]);
      match events[0] {
        case AtA(action) =>
          WithinIsTimely(s, action, a);
          TalliedStep(s, action, a);
          StepPerformsOp(s, action);
          JoinedStep(s, events[0]);
          CountedRunsAreTimely(next, events[1..], CountAfter(s, action, a), b);
        case AtB(action) =>
          WithinIsTimely(Swap(s), action, b);
          TalliedStep(Swap(s), action, b);
          StepPerformsOp(Swap(s), action);
          JoinedStep(s, events[0]);
          CountedRunsAreTimely(next, events[1..], a, CountAfter(Swap(s), action, b));
      }
    }
  }

  /**
   In every run of two new processors in which no side draws an identifier while a
   request of that kind has been outstanding for 255 draws, or a CID once its cursor
   went round since the draw of a CID that an outstanding connection or
   disconnection request names, the two sides agree on every channel in the state
   reached.
   */
  lemma CountedAgreement(peerOfA: Address, handleA: u16, peerOfB: Address, handleB: u16, events: seq<Event>)
    requires WithinRun(NewSystem(peerOfA, handleA, peerOfB, handleB), events, NO_DRAWS, NO_DRAWS)
    ensures var s := RunSystem(NewSystem(peerOfA, handleA, peerOfB, handleB), events);
            AllAgree(s.a, s.b, s.ab, s.ba) && AllAgree(s.b, s.a, s.ba, s.ab)
  {
    JoinedInitially(peerOfA, handleA, peerOfB, handleB);
    CountedRunsAreTimely(NewSystem(peerOfA, handleA, peerOfB, handleB), events, NO_DRAWS, NO_DRAWS);
    TwoPartyAgreement(peerOfA, handleA, peerOfB, handleB, events);
  }
}
