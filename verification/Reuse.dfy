/** What goes wrong, and exactly when, if an identifier or a CID is drawn while an old request still uses it. */
module Reuse {
  import opened Wrappers
  import opened Words
  import opened IndexMap
  import opened Channel
  import opened Packet
  import opened Signaling
  import opened Processor
  import opened ProcessorRuns
  import opened PendingRuns

  /** Appending an entry does not change an answer found before it. */
  lemma {:induction false} FindPendingAppend(pending: seq<PendingRequest>, r: PendingRequest, id: u8,
                                             code: SignalingCode)
    ensures var i := FindPending(pending, id, code);
            FindPending(pending + [r], id, code)
            == if i < |pending| then i else if r.identifier == id && r.code == code then |pending| else |pending| + 1
  {
    if pending != [] {
      FindPendingAppend(pending[1..], r, id, code);
      assert (pending + [r])[1..] == pending[1..] + [r];
    } else {
      assert ([r])[1..] == [];
    }
  }

  ghost predicate Carried(pending: seq<PendingRequest>, id: u8, code: SignalingCode) {
    exists i :: 0 <= i < |pending| && pending[i].identifier == id && pending[i].code == code
  }

  /** The answer to a new connection request reaches it if and only if no older one carries its identifier. */
  lemma AnswerReachesNewRequest(p: Proc, psm: u16, addr: Address, h: u16, dst: u16, result: ConnectionResult)
    requires Coherent(p) && Connect(p, psm, addr, h).1.Ok?
    ensures var q := Connect(p, psm, addr, h).0;
            var answer := ConnectionResponse(SignalingHeader(ConnRsp, p.nextId, 8), dst, AllocatedCid(p.manager),
                                             result, 0);
            AnsweredIndex(q, answer) == |p.pending| <==> !Carried(p.pending, p.nextId, ConnReq)
  {
    ConnectEffect(p, psm, addr, h);
    FindPendingAppend(p.pending, PendingRequest(p.nextId, Some(AllocatedCid(p.manager)), ConnReq), p.nextId, ConnReq);
    if Carried(p.pending, p.nextId, ConnReq) {
      var i :| 0 <= i < |p.pending| && p.pending[i].identifier == p.nextId && p.pending[i].code == ConnReq;
      FindPendingFirst(p.pending, p.nextId, ConnReq, i);
    }
  }

  lemma LateAnswerRemoves(q: Proc, late: SignalingCommand, addr: Address, h: u16, i: nat)
    requires Coherent(q) && late.DisconnectionResponse? && i == AnsweredIndex(q, late) && i + 1 < |q.pending|
    ensures var after := HandleCommand(q, late, addr, h).0;
            && q.pending[i].localCid.Some? && q.pending[i].localCid.value !in Chans(after)
            && q.pending[|q.pending| - 1] in after.pending
  {
    ResponseEffect(q, late, addr, h);
    assert SwapRemove(q.pending, i)[i] == q.pending[|q.pending| - 1];
  }

  /**
   If the allocated CID is still named by a pending disconnection, the late answer
   to that disconnection removes the new channel while its own request is pending.
   */
  lemma ReusedCidIsLost(p: Proc, psm: u16, addr: Address, h: u16, id: u8, src: u16)
    requires Coherent(p) && Connect(p, psm, addr, h).1.Ok?
    requires var i := FindPending(p.pending, id, DiscReq);
             i < |p.pending| && p.pending[i].localCid == Some(AllocatedCid(p.manager))
    ensures var q, cid := Connect(p, psm, addr, h).0, AllocatedCid(p.manager);
            var late := DisconnectionResponse(SignalingHeader(DiscRsp, id, 4), cid, src);
            var after := HandleCommand(q, late, addr, h).0;
            && cid in Chans(q) && cid !in Chans(after)
            && PendingRequest(p.nextId, Some(cid), ConnReq) in after.pending
  {
    var q, cid := Connect(p, psm, addr, h).0, AllocatedCid(p.manager);
    var late := DisconnectionResponse(SignalingHeader(DiscRsp, id, 4), cid, src);
    var r := PendingRequest(p.nextId, Some(cid), ConnReq);
    ConnectEffect(p, psm, addr, h);
    CoherentStep(p, OpConnect(psm, addr, h));
    FindPendingAppend(p.pending, r, id, DiscReq);
    LateAnswerRemoves(q, late, addr, h, FindPending(p.pending, id, DiscReq));
  }

  lemma AcceptedHandled(p: Proc, m: SignalingCommand, addr: Address, handle: u16)
    requires Coherent(p) && !Full(p) && m.ConnectionRequest? && m.psm == AVDTP_PSM
    ensures var (q, r) := HandleCommand(p, m, addr, handle);
            var cid := AllocatedCid(p.manager);
            && q.pending == p.pending && cid in Chans(q) && Chans(q)[cid].remoteCid == Some(m.sourceCid)
            && r == Ok(Some(ConnectionResponse(SignalingHeader(ConnRsp, m.header.identifier, 8),
                                               cid, m.sourceCid, ConnSuccess, 0)))
  {
    ConnectionRequestEffect(p, m.header, m.psm, m.sourceCid, addr, handle);
  }

  /** The channel of an answered disconnection goes. */
  lemma AnsweredGoes(q: Proc, late: SignalingCommand, addr: Address, h: u16, i: nat)
    requires Coherent(q) && late.DisconnectionResponse? && i == AnsweredIndex(q, late) && i < |q.pending|
    ensures q.pending[i].localCid.Some? && q.pending[i].localCid.value !in Chans(HandleCommand(q, late, addr, h).0)
  {
    ResponseEffect(q, late, addr, h);
  }

  /** An accepted connection request that is given such a CID loses its channel to the same answer. */
  lemma AcceptedCidIsLost(p: Proc, h: SignalingHeader, remote: u16, addr: Address, handle: u16, id: u8, src: u16)
    requires Coherent(p) && !Full(p)
    requires var i := FindPending(p.pending, id, DiscReq);
             i < |p.pending| && p.pending[i].localCid == Some(AllocatedCid(p.manager))
    ensures var cid := AllocatedCid(p.manager);
            var (q, r) := HandleCommand(p, ConnectionRequest(h, AVDTP_PSM, remote), addr, handle);
            var late := DisconnectionResponse(SignalingHeader(DiscRsp, id, 4), cid, src);
            && r.Ok? && r.value.Some? && r.value.value.ConnectionResponse?
            && r.value.value.result.ConnSuccess? && r.value.value.destinationCid == cid
            && cid in Chans(q) && Chans(q)[cid].remoteCid == Some(remote)
            && cid !in Chans(HandleCommand(q, late, addr, handle).0)
  {
    var m, cid := ConnectionRequest(h, AVDTP_PSM, remote), AllocatedCid(p.manager);
    AcceptedHandled(p, m, addr, handle);
    CoherentAfterReceive(p, m, addr, handle);
    AnsweredGoes(HandleCommand(p, m, addr, handle).0, DisconnectionResponse(SignalingHeader(DiscRsp, id, 4), cid, src),
                 addr, handle, FindPending(p.pending, id, DiscReq));
  }

  const STALE := Proc(NEW_MANAGER, 2, [PendingRequest(1, Some(DYNAMIC_START), DiscReq)])

  /** A state that meets the invariants in which the loss happens: one unanswered disconnection of the next CID. */
  lemma ReuseHappens(addr: Address)
    ensures Coherent(STALE) && Awaiting(STALE) && DistinctIds(STALE.pending) && FreshId(STALE) && !FreshCid(STALE)
    ensures Connect(STALE, 0x19, addr, 1).1.Ok? && !Awaiting(Connect(STALE, 0x19, addr, 1).0)
  {
    CoherentInitially();
    FirstProbeFree(NEW_MANAGER);
    CidAfterNext(DYNAMIC_START, 0);
    ConnectEffect(STALE, 0x19, addr, 1);
    ConnectAwaits(STALE, 0x19, addr, 1);
    assert STALE.pending[0].localCid == Some(AllocatedCid(STALE.manager));
  }
}
