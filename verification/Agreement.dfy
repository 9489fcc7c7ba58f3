/**
 The agreement invariant of two processors joined by FIFO links, on the view of
 a party that matters to it: the remote CID of each local channel and the set of
 connection and disconnection requests it still has an answer outstanding for.
 Configuration requests and their answers never touch a remote CID.
 */
module Agreement {
  import opened Wrappers
  import opened Words
  import opened Signaling
  import opened Processor
  import opened ProcessorRuns

  type Asked = set<PendingRequest>

  datatype Party = Party(remote: map<u16, Option<u16>>, asked: Asked)

  type Queue = seq<SignalingCommand>

  predicate Asking(m: SignalingCommand) {
    m.ConnectionRequest? || m.DisconnectionRequest?
  }

  predicate Answering(m: SignalingCommand) {
    m.ConnectionResponse? || m.DisconnectionResponse?
  }

  predicate Inert(m: SignalingCommand) {
    !Asking(m) && !Answering(m)
  }

  function Kind(m: SignalingCommand): SignalingCode {
    if m.ConnectionRequest? || m.ConnectionResponse? then ConnReq else DiscReq
  }

  /** The messages belong to different exchanges. */
  predicate Apart(m: SignalingCommand, n: SignalingCommand) {
    m.header.identifier != n.header.identifier || Kind(m) != Kind(n)
  }

  ghost predicate UniqueIds(asked: Asked) {
    forall r, s :: r in asked && s in asked && r.identifier == s.identifier && r.code == s.code ==> r == s
  }

  ghost predicate SoleOwner(x: Party, r: PendingRequest) {
    && r.localCid.Some? && r.localCid.value in x.remote && x.remote[r.localCid.value].None?
    && forall s :: s in x.asked && s != r ==> s.localCid != r.localCid
  }

  /** A connection request alone names its channel, which has no remote CID yet. */
  ghost predicate Waits(x: Party) {
    forall r :: r in x.asked && r.code.ConnReq? ==> SoleOwner(x, r)
  }

  ghost predicate Asks(asked: Asked, id: u8, cid: u16, code: SignalingCode) {
    PendingRequest(id, Some(cid), code) in asked
  }

  /** The exchange a message belongs to is outstanding, under the CID the message carries. */
  ghost predicate Tracked(asked: Asked, m: SignalingCommand) {
    match m
    case ConnectionRequest(h, _, src) => Asks(asked, h.identifier, src, ConnReq)
    case ConnectionResponse(h, _, src, _, _) => Asks(asked, h.identifier, src, ConnReq)
    case DisconnectionRequest(h, _, src) => Asks(asked, h.identifier, src, DiscReq)
    case DisconnectionResponse(h, dst, _) => Asks(asked, h.identifier, dst, DiscReq)
    case _ => true
  }

  ghost predicate SeparateIds(q: Queue, i: nat, r: Queue, j: nat)
    requires i < |q| && j < |r|
  {
    Apart(q[i], r[j])
  }

  /** A party's requests in q and the answers to it in r belong to different outstanding exchanges. */
  ghost predicate Flights(asked: Asked, q: Queue, r: Queue) {
    && (forall i, j :: 0 <= i < j < |q| && Asking(q[i]) && Asking(q[j]) ==> SeparateIds(q, i, q, j))
    && (forall i, j :: 0 <= i < j < |r| && Answering(r[i]) && Answering(r[j]) ==> SeparateIds(r, i, r, j))
    && (forall i, j :: 0 <= i < |q| && 0 <= j < |r| && Asking(q[i]) && Answering(r[j]) ==> SeparateIds(q, i, r, j))
    && (forall i :: 0 <= i < |q| && Asking(q[i]) ==> Tracked(asked, q[i]))
    && (forall j :: 0 <= j < |r| && Answering(r[j]) ==> Tracked(asked, r[j]))
  }

  predicate AsksFor(m: SignalingCommand, s: PendingRequest) {
    m.DisconnectionRequest? && s == PendingRequest(m.header.identifier, Some(m.sourceCid), DiscReq)
  }

  predicate AnswersTo(m: SignalingCommand, s: PendingRequest) {
    m.DisconnectionResponse? && s == PendingRequest(m.header.identifier, Some(m.destinationCid), DiscReq)
  }

  /** The request is on its way to the peer, or its answer on the way back. */
  ghost predicate InFlight(s: PendingRequest, q: Queue, r: Queue) {
    (exists i :: 0 <= i < |q| && AsksFor(q[i], s)) || (exists j :: 0 <= j < |r| && AnswersTo(r[j], s))
  }

  /** Every outstanding disconnection is in flight: a disconnection request is always answered. */
  ghost predicate Pursued(asked: Asked, q: Queue, r: Queue) {
    forall s :: s in asked && s.code.DiscReq? ==> InFlight(s, q, r)
  }

  /** m tells its receiver about the sender's CID. */
  predicate Intro(m: SignalingCommand, cid: u16) {
    || (m.ConnectionRequest? && m.sourceCid == cid)
    || (m.ConnectionResponse? && m.result.ConnSuccess? && m.destinationCid == cid)
  }

  predicate Releases(m: SignalingCommand, cid: u16) {
    m.DisconnectionResponse? && m.destinationCid == cid
  }

  predicate Accepts(m: SignalingCommand, cid: u16, peer: u16) {
    m.ConnectionResponse? && m.result.ConnSuccess? && m.destinationCid == cid && m.sourceCid == peer
  }

  /** One of the first n messages of q ends the life of the receiver's channel b. */
  ghost predicate Released(q: Queue, n: nat, b: u16)
    requires n <= |q|
  {
    exists j :: 0 <= j < n && Releases(q[j], b)
  }

  /** By the time y hears of x's CID, y has no channel left that refers to it. */
  ghost predicate Introduced(y: Party, q: Queue) {
    forall i, b ::
      0 <= i < |q| && b in y.remote && y.remote[b].Some? && Intro(q[i], y.remote[b].value) ==> Released(q, i, b)
  }

  /** An acceptance on its way to y names an existing channel of x and the CID that channel refers to. */
  ghost predicate Accepted(x: Party, q: Queue) {
    forall i :: 0 <= i < |q| && q[i].ConnectionResponse? && q[i].result.ConnSuccess? ==>
                  q[i].destinationCid in x.remote && x.remote[q[i].destinationCid] == Some(q[i].sourceCid)
  }

  ghost predicate UniqueRemotes(x: Party) {
    forall a, b :: a in x.remote && b in x.remote && a != b && x.remote[a].Some? ==> x.remote[a] != x.remote[b]
  }

  ghost predicate Matched(y: Party, a: u16, b: u16) {
    b in y.remote && y.remote[b] == Some(a)
  }

  ghost predicate Announced(q: Queue, a: u16, b: u16) {
    exists i :: 0 <= i < |q| && Accepts(q[i], a, b)
  }

  /**
   Channel a of x, which refers to b, is matched by y; or y has yet to hear of it;
   or x has yet to hear that it is gone.
   */
  ghost predicate Paired(y: Party, q: Queue, r: Queue, a: u16, b: u16) {
    Matched(y, a, b) || Announced(q, a, b) || Released(r, |r|, a)
  }

  ghost predicate Agree(x: Party, y: Party, q: Queue, r: Queue) {
    forall a :: a in x.remote && x.remote[a].Some? ==> Paired(y, q, r, a, x.remote[a].value)
  }

  /** No answer to a disconnection under way to y ends a channel that y still refers to. */
  ghost predicate Unreferred(y: Party, r: Queue) {
    forall j, b :: 0 <= j < |r| && b in y.remote && y.remote[b].Some? ==> !Releases(r[j], y.remote[b].value)
  }

  /** While the answer to a disconnection is under way to x, nothing under way from x introduces that CID. */
  ghost predicate Unmentioned(q: Queue, r: Queue) {
    forall i, j :: 0 <= i < |q| && 0 <= j < |r| && r[j].DisconnectionResponse? ==> !Intro(q[i], r[j].destinationCid)
  }

  /** A disconnection request is not overtaken by a new introduction of the same CID. */
  ghost predicate InOrder(q: Queue) {
    forall i, k :: 0 <= i < k < |q| && q[i].DisconnectionRequest? ==> !Intro(q[k], q[i].sourceCid)
  }

  /** The requests of x: q runs from x to y and r back. */
  ghost predicate Ids(x: Party, q: Queue, r: Queue) {
    UniqueIds(x.asked) && Waits(x) && Flights(x.asked, q, r) && Pursued(x.asked, q, r)
  }

  /** What x sends, and what y makes of it. */
  ghost predicate Heard(x: Party, y: Party, q: Queue) {
    Introduced(y, q) && Accepted(x, q) && UniqueRemotes(x) && InOrder(q)
  }

  /** Channels of x against y. */
  ghost predicate Bound(x: Party, y: Party, q: Queue, r: Queue) {
    Agree(x, y, q, r) && Unreferred(y, r) && Unmentioned(q, r)
  }

  /** The invariant from x's side. */
  ghost predicate Half(x: Party, y: Party, q: Queue, r: Queue) {
    Ids(x, q, r) && Heard(x, y, q) && Bound(x, y, q, r)
  }

  ghost predicate Both(x: Party, y: Party, q: Queue, r: Queue) {
    Half(x, y, q, r) && Half(y, x, r, q)
  }

  // ----- Queues that grow or shrink -----

  lemma Appended(q: Queue, m: SignalingCommand, p: Queue)
    requires p == q + [m]
    ensures forall n, b: u16 :: 0 <= n <= |q| && Released(q, n, b) ==> Released(p, n, b)
    ensures forall b: u16 :: Released(q, |q|, b) ==> Released(p, |p|, b)
    ensures forall a: u16, b: u16 :: Announced(q, a, b) ==> Announced(p, a, b)
  {
    forall n, b: u16 | 0 <= n <= |q| && Released(q, n, b) ensures Released(p, n, b) {
      var j :| 0 <= j < n && Releases(q[j], b);
      assert Releases(p[j], b);
    }
    forall a: u16, b: u16 | Announced(q, a, b) ensures Announced(p, a, b) {
      var i :| 0 <= i < |q| && Accepts(q[i], a, b);
      assert Accepts(p[i], a, b);
    }
  }

  lemma Popped(q: Queue, p: Queue)
    requires q != [] && p == q[1..]
    ensures forall n, b: u16 :: 0 < n <= |q| && Released(q, n, b) && !Releases(q[0], b) ==> Released(p, n - 1, b)
    ensures forall a: u16, b: u16 :: Announced(q, a, b) && !Accepts(q[0], a, b) ==> Announced(p, a, b)
  {
    forall n, b: u16 | 0 < n <= |q| && Released(q, n, b) && !Releases(q[0], b) ensures Released(p, n - 1, b) {
      var j :| 0 <= j < n && Releases(q[j], b);
      assert Releases(p[j - 1], b);
    }
    forall a: u16, b: u16 | Announced(q, a, b) && !Accepts(q[0], a, b) ensures Announced(p, a, b) {
      var i :| 0 <= i < |q| && Accepts(q[i], a, b);
      assert Accepts(p[i - 1], a, b);
    }
  }

  lemma PursuedAppend(asked: Asked, q: Queue, r: Queue, m: SignalingCommand)
    requires Pursued(asked, q, r)
    ensures Pursued(asked, q + [m], r) && Pursued(asked, q, r + [m])
  {
    var p, t := q + [m], r + [m];
    forall s | s in asked && s.code.DiscReq? ensures InFlight(s, p, r) && InFlight(s, q, t) {
      if i :| 0 <= i < |q| && AsksFor(q[i], s) {
        assert AsksFor(p[i], s);
      } else {
        var j :| 0 <= j < |r| && AnswersTo(r[j], s);
        assert AnswersTo(t[j], s);
      }
    }
  }

  /** Popping what is not the last trace of an outstanding disconnection. */
  lemma PursuedPop(asked: Asked, q: Queue, r: Queue)
    requires Pursued(asked, q, r)
    requires r != [] && forall s :: s in asked ==> !AnswersTo(r[0], s)
    ensures Pursued(asked, q, r[1..])
  {
    var t := r[1..];
    forall s | s in asked && s.code.DiscReq? ensures InFlight(s, q, t) {
      if j :| 0 <= j < |r| && AnswersTo(r[j], s) {
        assert AnswersTo(t[j - 1], s);
      }
    }
  }

  /** The peer takes r[0] from its own requests' queue r and answers it with m, if it asked to disconnect. */
  lemma PursuedAnswered(asked: Asked, r: Queue, q: Queue, m: SignalingCommand)
    requires Pursued(asked, r, q) && r != []
    requires r[0].DisconnectionRequest? ==>
               && m.DisconnectionResponse? && m.destinationCid == r[0].sourceCid
               && m.header.identifier == r[0].header.identifier
    ensures Pursued(asked, r[1..], q + [m])
  {
    var t, p := r[1..], q + [m];
    forall s | s in asked && s.code.DiscReq? ensures InFlight(s, t, p) {
      if j :| 0 <= j < |q| && AnswersTo(q[j], s) {
        assert AnswersTo(p[j], s);
      } else {
        var i :| 0 <= i < |r| && AsksFor(r[i], s);
        if i == 0 {
          assert AnswersTo(p[|q|], s);
        } else {
          assert AsksFor(t[i - 1], s);
        }
      }
    }
  }

  lemma PursuedIgnored(asked: Asked, r: Queue, q: Queue)
    requires Pursued(asked, r, q) && r != [] && !r[0].DisconnectionRequest?
    ensures Pursued(asked, r[1..], q)
  {
    var t := r[1..];
    forall s | s in asked && s.code.DiscReq? ensures InFlight(s, t, q) {
      if i :| 0 <= i < |r| && AsksFor(r[i], s) {
        assert AsksFor(t[i - 1], s);
      }
    }
  }

  /** Popping r[0]: the exchanges left over stay apart, for both sides. */
  lemma FlightsAfterPop(x: Asked, q: Queue, r: Queue)
    requires Flights(x, q, r) && r != []
    ensures Flights(x, q, r[1..])
  {
    var t := r[1..];
    forall i, j | 0 <= i < j < |t| && Answering(t[i]) && Answering(t[j]) ensures SeparateIds(t, i, t, j) {
      assert SeparateIds(r, i + 1, r, j + 1);
    }
    forall i, j | 0 <= i < |q| && 0 <= j < |t| && Asking(q[i]) && Answering(t[j]) ensures SeparateIds(q, i, t, j) {
      assert SeparateIds(q, i, r, j + 1);
    }
  }

  lemma FlightsAfterTake(y: Asked, r: Queue, q: Queue)
    requires Flights(y, r, q) && r != []
    ensures Flights(y, r[1..], q)
  {
    var t := r[1..];
    forall i, j | 0 <= i < j < |t| && Asking(t[i]) && Asking(t[j]) ensures SeparateIds(t, i, t, j) {
      assert SeparateIds(r, i + 1, r, j + 1);
    }
    forall i, j | 0 <= i < |t| && 0 <= j < |q| && Asking(t[i]) && Answering(q[j]) ensures SeparateIds(t, i, q, j) {
      assert SeparateIds(r, i + 1, q, j);
    }
  }

  /** Appending a message that asks nothing to x's queue. */
  lemma FlightsUnasked(x: Asked, q: Queue, r: Queue, m: SignalingCommand)
    requires Flights(x, q, r) && !Asking(m)
    ensures Flights(x, q + [m], r)
  {
    var p := q + [m];
    forall i, j | 0 <= i < j < |p| && Asking(p[i]) && Asking(p[j]) ensures SeparateIds(p, i, p, j) {
      assert SeparateIds(q, i, q, j);
    }
    forall i, j | 0 <= i < |p| && 0 <= j < |r| && Asking(p[i]) && Answering(r[j]) ensures SeparateIds(p, i, r, j) {
      assert SeparateIds(q, i, r, j);
    }
  }

  /** Appending a message that answers nothing to the queue y reads its answers from. */
  lemma FlightsUnanswered(y: Asked, r: Queue, q: Queue, m: SignalingCommand)
    requires Flights(y, r, q) && !Answering(m)
    ensures Flights(y, r, q + [m])
  {
    var p := q + [m];
    forall i, j | 0 <= i < j < |p| && Answering(p[i]) && Answering(p[j]) ensures SeparateIds(p, i, p, j) {
      assert SeparateIds(q, i, q, j);
    }
    forall i, j | 0 <= i < |r| && 0 <= j < |p| && Asking(r[i]) && Answering(p[j]) ensures SeparateIds(r, i, p, j) {
      assert SeparateIds(r, i, q, j);
    }
  }

  lemma InOrderPop(r: Queue)
    requires InOrder(r) && r != []
    ensures InOrder(r[1..])
  {
    forall i, k | 0 <= i < k < |r| - 1 && r[1..][i].DisconnectionRequest?
      ensures !Intro(r[1..][k], r[1..][i].sourceCid)
    {
      assert !Intro(r[k + 1], r[i + 1].sourceCid);
    }
  }

  lemma AgreeAppend(x: Party, y: Party, q: Queue, r: Queue, m: SignalingCommand)
    requires Agree(x, y, q, r)
    ensures Agree(x, y, q + [m], r) && Agree(x, y, q, r + [m])
  {
    Appended(q, m, q + [m]);
    Appended(r, m, r + [m]);
    forall a | a in x.remote && x.remote[a].Some?
      ensures Paired(y, q + [m], r, a, x.remote[a].value) && Paired(y, q, r + [m], a, x.remote[a].value)
    {
      assert Paired(y, q, r, a, x.remote[a].value);
    }
  }

  lemma AgreePop(x: Party, y: Party, q: Queue, r: Queue)
    requires Agree(x, y, q, r) && r != [] && !r[0].DisconnectionResponse?
    ensures Agree(x, y, q, r[1..])
  {
    Popped(r, r[1..]);
    forall a | a in x.remote && x.remote[a].Some? ensures Paired(y, q, r[1..], a, x.remote[a].value) {
      assert Paired(y, q, r, a, x.remote[a].value);
    }
  }

  lemma AgreeTake(y: Party, x: Party, r: Queue, q: Queue)
    requires Agree(y, x, r, q) && r != [] && !(r[0].ConnectionResponse? && r[0].result.ConnSuccess?)
    ensures Agree(y, x, r[1..], q)
  {
    Popped(r, r[1..]);
    forall b | b in y.remote && y.remote[b].Some? ensures Paired(x, r[1..], q, b, y.remote[b].value) {
      assert Paired(x, r, q, b, y.remote[b].value);
    }
  }

  lemma IntroducedPop(x: Party, r: Queue)
    requires Introduced(x, r) && r != [] && !r[0].DisconnectionResponse?
    ensures Introduced(x, r[1..])
  {
    var t := r[1..];
    Popped(r, t);
    forall i, a | 0 <= i < |t| && a in x.remote && x.remote[a].Some? && Intro(t[i], x.remote[a].value)
      ensures Released(t, i, a)
    {
      assert Released(r, i + 1, a);
    }
  }

  lemma IntroducedAppend(y: Party, q: Queue, m: SignalingCommand)
    requires Introduced(y, q)
    requires forall b :: b in y.remote && y.remote[b].Some? && Intro(m, y.remote[b].value) ==> Released(q, |q|, b)
    ensures Introduced(y, q + [m])
  {
    Appended(q, m, q + [m]);
    forall i, b | 0 <= i < |q + [m]| && b in y.remote && y.remote[b].Some? && Intro((q + [m])[i], y.remote[b].value)
      ensures Released(q + [m], i, b)
    {
      assert Released(q, i, b);
    }
  }

  lemma HeardPop(y: Party, x: Party, r: Queue)
    requires Heard(y, x, r) && r != [] && !r[0].DisconnectionResponse?
    ensures Heard(y, x, r[1..])
  {
    IntroducedPop(x, r);
    InOrderPop(r);
  }

  // ----- Messages about configuration -----

  lemma PushInert(x: Party, y: Party, q: Queue, r: Queue, m: SignalingCommand)
    requires Both(x, y, q, r) && Inert(m)
    ensures Both(x, y, q + [m], r)
  {
    FlightsUnasked(x.asked, q, r, m);
    FlightsUnanswered(y.asked, r, q, m);
    PursuedAppend(x.asked, q, r, m);
    PursuedAppend(y.asked, r, q, m);
    IntroducedAppend(y, q, m);
    AgreeAppend(x, y, q, r, m);
    AgreeAppend(y, x, r, q, m);
  }

  lemma PopInert(x: Party, y: Party, q: Queue, r: Queue)
    requires Both(x, y, q, r) && r != [] && Inert(r[0])
    ensures Both(x, y, q, r[1..])
  {
    FlightsAfterPop(x.asked, q, r);
    FlightsAfterTake(y.asked, r, q);
    PursuedPop(x.asked, q, r);
    PursuedIgnored(y.asked, r, q);
    HeardPop(y, x, r);
    AgreePop(x, y, q, r);
    AgreeTake(y, x, r, q);
  }

  // ----- Sending a request -----

  ghost predicate FreshFor(asked: Asked, req: PendingRequest) {
    forall s :: s in asked ==> s.identifier != req.identifier || s.code != req.code
  }

  ghost predicate Unnamed(asked: Asked, cid: u16) {
    forall s :: s in asked ==> s.localCid != Some(cid)
  }

  ghost function Ask(x: Party, r: PendingRequest): Party {
    x.(asked := x.asked + {r})
  }

  lemma FlightsAsked(asked: Asked, q: Queue, r: Queue, req: PendingRequest, m: SignalingCommand)
    requires Flights(asked, q, r) && FreshFor(asked, req) && Asking(m) && Kind(m) == req.code
    requires m.header.identifier == req.identifier && Tracked(asked + {req}, m)
    ensures Flights(asked + {req}, q + [m], r)
  {
    var p, more := q + [m], asked + {req};
    forall i | 0 <= i < |q| && Asking(q[i]) ensures Tracked(more, q[i]) && SeparateIds(p, i, p, |q|) {
      assert Tracked(asked, q[i]);
    }
    forall j | 0 <= j < |r| && Answering(r[j]) ensures Tracked(more, r[j]) && SeparateIds(p, |q|, r, j) {
      assert Tracked(asked, r[j]);
    }
    forall i, j | 0 <= i < j < |q| && Asking(p[i]) && Asking(p[j]) ensures SeparateIds(p, i, p, j) {
      assert SeparateIds(q, i, q, j);
    }
    forall i, j | 0 <= i < |q| && 0 <= j < |r| && Asking(p[i]) && Answering(r[j]) ensures SeparateIds(p, i, r, j) {
      assert SeparateIds(q, i, r, j);
    }
  }

  lemma PursuedAsk(asked: Asked, q: Queue, r: Queue, req: PendingRequest, m: SignalingCommand)
    requires Pursued(asked, q, r) && (req.code.DiscReq? ==> AsksFor(m, req))
    ensures Pursued(asked + {req}, q + [m], r)
  {
    PursuedAppend(asked, q, r, m);
    if req.code.DiscReq? {
      assert AsksFor((q + [m])[|q|], req);
    }
  }

  /** A CID that x neither uses nor awaits an answer for is only referred to by channels whose end is already in q. */
  lemma UnusedCidReleased(x: Party, y: Party, q: Queue, r: Queue, cid: u16, b: u16)
    requires Agree(y, x, r, q) && Flights(x.asked, q, r) && cid !in x.remote && Unnamed(x.asked, cid)
    requires b in y.remote && y.remote[b] == Some(cid)
    ensures Released(q, |q|, b)
  {
    assert Paired(x, r, q, b, cid);
  }

  /** m introduces a CID that x neither uses nor awaits an answer for. */
  lemma IntroduceUnused(x: Party, y: Party, q: Queue, r: Queue, cid: u16, m: SignalingCommand)
    requires Both(x, y, q, r) && cid !in x.remote && Unnamed(x.asked, cid)
    requires forall c :: Intro(m, c) ==> c == cid
    requires !m.DisconnectionRequest?
    ensures Introduced(y, q + [m]) && InOrder(q + [m]) && Unmentioned(q + [m], r)
  {
    forall b | b in y.remote && y.remote[b] == Some(cid) ensures Released(q, |q|, b) {
      UnusedCidReleased(x, y, q, r, cid, b);
    }
    IntroducedAppend(y, q, m);
  }

  ghost function Dialled(x: Party, cid: u16, req: PendingRequest): Party {
    Party(x.remote[cid := None], x.asked + {req})
  }

  ghost predicate Dials(x: Party, req: PendingRequest, cid: u16, m: SignalingCommand) {
    && m.ConnectionRequest? && m.sourceCid == cid && req == PendingRequest(m.header.identifier, Some(cid), ConnReq)
    && cid !in x.remote && Unnamed(x.asked, cid) && FreshFor(x.asked, req)
  }

  lemma DialIds(x: Party, q: Queue, r: Queue, req: PendingRequest, cid: u16, m: SignalingCommand)
    requires Ids(x, q, r) && Dials(x, req, cid, m)
    ensures Ids(Dialled(x, cid, req), q + [m], r)
  {
    FlightsAsked(x.asked, q, r, req, m);
    PursuedAsk(x.asked, q, r, req, m);
    var x' := Dialled(x, cid, req);
    forall s | s in x'.asked && s.code.ConnReq? ensures SoleOwner(x', s) {
      assert s != req ==> SoleOwner(x, s);
    }
  }

  /** A new waiting channel refers to nothing. */
  lemma WaitingBound(x: Party, y: Party, q: Queue, r: Queue, cid: u16)
    requires Agree(x, y, q, r) && Agree(y, x, r, q) && cid !in x.remote
    ensures Agree(x.(remote := x.remote[cid := None]), y, q, r) && Agree(y, x.(remote := x.remote[cid := None]), r, q)
  {
    var x' := x.(remote := x.remote[cid := None]);
    forall a | a in x'.remote && x'.remote[a].Some? ensures Paired(y, q, r, a, x'.remote[a].value) {
      assert Paired(y, q, r, a, x.remote[a].value);
    }
    forall b | b in y.remote && y.remote[b].Some? ensures Paired(x', r, q, b, y.remote[b].value) {
      assert Paired(x, r, q, b, y.remote[b].value);
    }
  }

  lemma AskedDoesNotBind(x: Party, y: Party, q: Queue, r: Queue, asked: Asked)
    ensures Agree(x, y, q, r) ==> Agree(x.(asked := asked), y, q, r)
    ensures Agree(y, x, r, q) ==> Agree(y, x.(asked := asked), r, q)
  {
    var x' := x.(asked := asked);
    if Agree(y, x, r, q) {
      forall b | b in y.remote && y.remote[b].Some? ensures Paired(x', r, q, b, y.remote[b].value) {
        assert Paired(x, r, q, b, y.remote[b].value);
      }
    }
  }

  lemma DialBound(x: Party, y: Party, q: Queue, r: Queue, req: PendingRequest, cid: u16, m: SignalingCommand)
    requires Both(x, y, q, r) && Dials(x, req, cid, m)
    ensures Agree(Dialled(x, cid, req), y, q + [m], r) && Agree(y, Dialled(x, cid, req), r, q + [m])
  {
    var waiting := x.(remote := x.remote[cid := None]);
    WaitingBound(x, y, q, r, cid);
    AskedDoesNotBind(waiting, y, q, r, x.asked + {req});
    AgreeAppend(Dialled(x, cid, req), y, q, r, m);
    AgreeAppend(y, Dialled(x, cid, req), r, q, m);
  }

  lemma SendConnect(x: Party, y: Party, q: Queue, r: Queue, req: PendingRequest, cid: u16, m: SignalingCommand)
    requires Both(x, y, q, r) && Dials(x, req, cid, m)
    ensures Both(Dialled(x, cid, req), y, q + [m], r)
  {
    DialIds(x, q, r, req, cid, m);
    DialBound(x, y, q, r, req, cid, m);
    IntroduceUnused(x, y, q, r, cid, m);
    FlightsUnanswered(y.asked, r, q, m);
    PursuedAppend(y.asked, r, q, m);
  }

  /** A waiting channel whose request could not be tracked changes nothing for the peer. */
  lemma LeftBehind(x: Party, y: Party, q: Queue, r: Queue, cid: u16)
    requires Both(x, y, q, r) && cid !in x.remote
    ensures Both(x.(remote := x.remote[cid := None]), y, q, r)
  {
    var x' := x.(remote := x.remote[cid := None]);
    WaitingBound(x, y, q, r, cid);
    forall s | s in x'.asked && s.code.ConnReq? ensures SoleOwner(x', s) {
      assert SoleOwner(x, s);
    }
  }

  ghost predicate HangsUp(x: Party, req: PendingRequest, cid: u16, m: SignalingCommand) {
    && m.DisconnectionRequest? && m.sourceCid == cid && req == PendingRequest(m.header.identifier, Some(cid), DiscReq)
    && cid in x.remote && x.remote[cid].Some? && FreshFor(x.asked, req)
  }

  lemma HangUpIds(x: Party, q: Queue, r: Queue, req: PendingRequest, cid: u16, m: SignalingCommand)
    requires Ids(x, q, r) && HangsUp(x, req, cid, m)
    ensures Ids(Ask(x, req), q + [m], r)
  {
    var x' := Ask(x, req);
    FlightsAsked(x.asked, q, r, req, m);
    PursuedAsk(x.asked, q, r, req, m);
    forall s | s in x'.asked && s.code.ConnReq? ensures SoleOwner(x', s) {
      assert SoleOwner(x, s);
    }
  }

  lemma HangUpBound(x: Party, y: Party, q: Queue, r: Queue, m: SignalingCommand, asked: Asked)
    requires Bound(x, y, q, r) && Bound(y, x, r, q) && m.DisconnectionRequest?
    ensures Bound(x.(asked := asked), y, q + [m], r) && Bound(y, x.(asked := asked), r, q + [m])
  {
    AgreeAppend(x, y, q, r, m);
    AgreeAppend(y, x, r, q, m);
    AskedDoesNotBind(x, y, q + [m], r, asked);
  }

  /** A disconnection request about a channel that has its remote CID. */
  lemma SendDisconnect(x: Party, y: Party, q: Queue, r: Queue, req: PendingRequest, cid: u16, m: SignalingCommand)
    requires Both(x, y, q, r) && HangsUp(x, req, cid, m)
    ensures Both(Ask(x, req), y, q + [m], r)
  {
    HangUpIds(x, q, r, req, cid, m);
    HangUpBound(x, y, q, r, m, x.asked + {req});
    FlightsUnanswered(y.asked, r, q, m);
    PursuedAppend(y.asked, r, q, m);
    IntroducedAppend(y, q, m);
  }

  // ----- Receiving the peer's requests -----

  ghost predicate Replies(r: Queue, m: SignalingCommand) {
    && r != [] && Asking(r[0]) && Answering(m) && Kind(m) == Kind(r[0]) && m.header.identifier == r[0].header.identifier
  }

  /** y's request at the head of r is answered by m at the tail of q. */
  lemma FlightsReplied(y: Asked, q: Queue, r: Queue, m: SignalingCommand)
    requires Flights(y, r, q) && Replies(r, m) && Tracked(y, m)
    ensures Flights(y, r[1..], q + [m])
  {
    var p, t := q + [m], r[1..];
    forall i, j | 0 <= i < j < |p| && Answering(p[i]) && Answering(p[j]) ensures SeparateIds(p, i, p, j) {
      if j == |q| {
        assert SeparateIds(r, 0, q, i);
      } else {
        assert SeparateIds(q, i, q, j);
      }
    }
    forall i, j | 0 <= i < |t| && 0 <= j < |p| && Asking(t[i]) && Answering(p[j]) ensures SeparateIds(t, i, p, j) {
      if j == |q| {
        assert SeparateIds(r, 0, r, i + 1);
      } else {
        assert SeparateIds(r, i + 1, q, j);
      }
    }
    forall i, j | 0 <= i < j < |t| && Asking(t[i]) && Asking(t[j]) ensures SeparateIds(t, i, t, j) {
      assert SeparateIds(r, i + 1, r, j + 1);
    }
  }

  /** What popping a request and sending a reply does to the exchanges of both sides. */
  lemma RepliedIds(x: Party, y: Party, q: Queue, r: Queue, m: SignalingCommand)
    requires Ids(x, q, r) && Ids(y, r, q) && Replies(r, m) && Tracked(y.asked, m)
    requires r[0].DisconnectionRequest? ==> m.destinationCid == r[0].sourceCid
    ensures Flights(x.asked, q + [m], r[1..]) && Pursued(x.asked, q + [m], r[1..])
    ensures Ids(y, r[1..], q + [m])
  {
    FlightsAfterPop(x.asked, q, r);
    FlightsUnasked(x.asked, q, r[1..], m);
    FlightsReplied(y.asked, q, r, m);
    PursuedPop(x.asked, q, r);
    PursuedAppend(x.asked, q, r[1..], m);
    PursuedAnswered(y.asked, r, q, m);
  }

  /** x drops the head of r without changing itself or answering. */
  lemma ReceiveDropped(x: Party, y: Party, q: Queue, r: Queue)
    requires Both(x, y, q, r) && r != [] && r[0].ConnectionRequest?
    ensures Both(x, y, q, r[1..])
  {
    FlightsAfterPop(x.asked, q, r);
    FlightsAfterTake(y.asked, r, q);
    PursuedPop(x.asked, q, r);
    PursuedIgnored(y.asked, r, q);
    HeardPop(y, x, r);
    AgreePop(x, y, q, r);
    AgreeTake(y, x, r, q);
  }

  lemma RefuseBound(x: Party, y: Party, q: Queue, r: Queue, m: SignalingCommand)
    requires Bound(x, y, q, r) && Bound(y, x, r, q) && r != [] && r[0].ConnectionRequest?
    requires m.ConnectionResponse? && !m.result.ConnSuccess?
    ensures Bound(x, y, q + [m], r[1..]) && Bound(y, x, r[1..], q + [m])
  {
    AgreePop(x, y, q, r);
    AgreeTake(y, x, r, q);
    AgreeAppend(x, y, q, r[1..], m);
    AgreeAppend(y, x, r[1..], q, m);
  }

  /** x refuses the connection request at the head of r. */
  lemma ReceiveRefused(x: Party, y: Party, q: Queue, r: Queue, m: SignalingCommand)
    requires Both(x, y, q, r) && Replies(r, m) && Tracked(y.asked, m)
    requires m.ConnectionResponse? && !m.result.ConnSuccess?
    ensures Both(x, y, q + [m], r[1..])
  {
    RepliedIds(x, y, q, r, m);
    HeardPop(y, x, r);
    IntroducedAppend(y, q, m);
    RefuseBound(x, y, q, r, m);
  }

  /** While a CID is being introduced by the head of r, nothing else in r introduces it. */
  lemma IntroducedOnce(x: Party, y: Party, q: Queue, r: Queue, cid: u16, k: nat)
    requires Ids(x, q, r) && Ids(y, r, q) && Accepted(y, r) && 0 < k < |r| && Intro(r[0], cid)
    ensures !Intro(r[k], cid)
  {
    if r[0].ConnectionRequest? {
      assert SoleOwner(y, PendingRequest(r[0].header.identifier, Some(cid), ConnReq));
    } else {
      assert SoleOwner(x, PendingRequest(r[0].header.identifier, Some(r[0].sourceCid), ConnReq));
    }
    assert Asking(r[0]) && Asking(r[k]) ==> SeparateIds(r, 0, r, k);
    assert Answering(r[0]) && Answering(r[k]) ==> SeparateIds(r, 0, r, k);
  }

  ghost predicate Opens(x: Party, r: Queue, cid: u16, m: SignalingCommand) {
    && r != [] && r[0].ConnectionRequest?
    && cid !in x.remote && Unnamed(x.asked, cid)
    && Accepts(m, cid, r[0].sourceCid) && m.header.identifier == r[0].header.identifier
  }

  ghost function Opened(x: Party, cid: u16, src: u16): Party {
    x.(remote := x.remote[cid := Some(src)])
  }

  lemma OpenIds(x: Party, q: Queue, r: Queue, cid: u16, src: u16)
    requires Ids(x, q, r) && cid !in x.remote && Unnamed(x.asked, cid)
    ensures Ids(Opened(x, cid, src), q, r)
  {
    forall s | s in x.asked && s.code.ConnReq? ensures SoleOwner(Opened(x, cid, src), s) {
      assert SoleOwner(x, s);
    }
  }

  lemma OpenHeardOwn(x: Party, y: Party, q: Queue, r: Queue, cid: u16, m: SignalingCommand)
    requires Both(x, y, q, r) && Opens(x, r, cid, m)
    ensures Heard(Opened(x, cid, r[0].sourceCid), y, q + [m]) && Unmentioned(q + [m], r)
  {
    var src := r[0].sourceCid;
    IntroduceUnused(x, y, q, r, cid, m);
    forall a | a in x.remote ensures x.remote[a] != Some(src) {
      assert !Released(r, 0, a);
      assert Intro(r[0], src);
    }
  }

  lemma OpenHeardPeer(x: Party, y: Party, q: Queue, r: Queue, cid: u16, m: SignalingCommand)
    requires Both(x, y, q, r) && Opens(x, r, cid, m)
    ensures Heard(y, Opened(x, cid, r[0].sourceCid), r[1..])
  {
    var src, t := r[0].sourceCid, r[1..];
    var x' := Opened(x, cid, src);
    HeardPop(y, x, r);
    forall k | 0 < k < |r| ensures !Intro(r[k], src) {
      IntroducedOnce(x, y, q, r, src, k);
    }
    forall i, a | 0 <= i < |t| && a in x'.remote && x'.remote[a].Some? && Intro(t[i], x'.remote[a].value)
      ensures Released(t, i, a)
    {
      assert !Intro(r[i + 1], src);
    }
  }

  lemma OpenBoundOwn(x: Party, y: Party, q: Queue, r: Queue, cid: u16, m: SignalingCommand)
    requires Both(x, y, q, r) && Opens(x, r, cid, m)
    ensures Bound(Opened(x, cid, r[0].sourceCid), y, q + [m], r[1..])
  {
    var src := r[0].sourceCid;
    var x', p, t := Opened(x, cid, src), q + [m], r[1..];
    OpenHeardOwn(x, y, q, r, cid, m);
    AgreePop(x, y, q, r);
    AgreeAppend(x, y, q, t, m);
    forall a | a in x'.remote && x'.remote[a].Some? ensures Paired(y, p, t, a, x'.remote[a].value) {
      if a == cid {
        assert Accepts(p[|q|], cid, src);
      } else {
        assert Paired(y, p, t, a, x.remote[a].value);
      }
    }
  }

  lemma OpenBoundPeer(x: Party, y: Party, q: Queue, r: Queue, cid: u16, m: SignalingCommand)
    requires Both(x, y, q, r) && Opens(x, r, cid, m)
    ensures Bound(y, Opened(x, cid, r[0].sourceCid), r[1..], q + [m])
  {
    var src := r[0].sourceCid;
    var x', p, t := Opened(x, cid, src), q + [m], r[1..];
    AgreeTake(y, x, r, q);
    AgreeAppend(y, x, t, q, m);
    forall b | b in y.remote && y.remote[b].Some? ensures Paired(x', t, p, b, y.remote[b].value) {
      assert Paired(x, t, p, b, y.remote[b].value);
    }
    forall j | 0 <= j < |q| && q[j].DisconnectionResponse? ensures q[j].destinationCid != src {
      assert !Intro(r[0], q[j].destinationCid);
    }
  }

  /** x accepts the connection request at the head of r. */
  lemma ReceiveConnect(x: Party, y: Party, q: Queue, r: Queue, cid: u16, m: SignalingCommand)
    requires Both(x, y, q, r) && Opens(x, r, cid, m)
    ensures Both(Opened(x, cid, r[0].sourceCid), y, q + [m], r[1..])
  {
    var t := r[1..];
    assert Tracked(y.asked, r[0]);
    RepliedIds(x, y, q, r, m);
    OpenIds(x, q + [m], t, cid, r[0].sourceCid);
    OpenHeardOwn(x, y, q, r, cid, m);
    OpenHeardPeer(x, y, q, r, cid, m);
    OpenBoundOwn(x, y, q, r, cid, m);
    OpenBoundPeer(x, y, q, r, cid, m);
  }

  // ----- A peer's disconnection request -----

  /** x drops at most the one channel that refers to the CID being disconnected. */
  ghost predicate Drops(x: Party, src: u16, x': Party) {
    && x'.asked == x.asked
    && x'.remote.Keys <= x.remote.Keys
    && (forall a :: a in x.remote && x.remote[a] != Some(src) ==> a in x'.remote)
    && (forall a :: a in x'.remote ==> x'.remote[a] == x.remote[a] && x'.remote[a] != Some(src))
  }

  ghost predicate Parts(r: Queue, m: SignalingCommand) {
    && r != [] && r[0].DisconnectionRequest?
    && m.DisconnectionResponse? && m.destinationCid == r[0].sourceCid && m.header.identifier == r[0].header.identifier
  }

  lemma DropIds(x: Party, q: Queue, r: Queue, src: u16, x': Party)
    requires Ids(x, q, r) && Drops(x, src, x')
    ensures Ids(x', q, r)
  {
    forall s | s in x'.asked && s.code.ConnReq? ensures SoleOwner(x', s) {
      assert SoleOwner(x, s);
    }
  }

  lemma DropHeardOwn(x: Party, y: Party, q: Queue, r: Queue, x': Party, m: SignalingCommand)
    requires Both(x, y, q, r) && Parts(r, m) && Drops(x, r[0].sourceCid, x')
    ensures Heard(x', y, q + [m])
  {
    IntroducedAppend(y, q, m);
    forall i | 0 <= i < |q| && q[i].ConnectionResponse? && q[i].result.ConnSuccess?
      ensures q[i].sourceCid != r[0].sourceCid
    {
      assert Tracked(y.asked, q[i]) && Tracked(y.asked, r[0]);
      assert SoleOwner(y, PendingRequest(q[i].header.identifier, Some(q[i].sourceCid), ConnReq));
    }
  }

  lemma DropBoundOwn(x: Party, y: Party, q: Queue, r: Queue, x': Party, m: SignalingCommand)
    requires Both(x, y, q, r) && Parts(r, m) && Drops(x, r[0].sourceCid, x')
    ensures Bound(x', y, q + [m], r[1..])
  {
    var p, t := q + [m], r[1..];
    AgreePop(x, y, q, r);
    AgreeAppend(x, y, q, t, m);
    forall a | a in x'.remote && x'.remote[a].Some? ensures Paired(y, p, t, a, x'.remote[a].value) {
      assert Paired(y, p, t, a, x.remote[a].value);
    }
  }

  lemma DropHeardPeer(x: Party, y: Party, r: Queue, src: u16, x': Party)
    requires Heard(y, x, r) && r != [] && r[0].DisconnectionRequest? && Drops(x, src, x')
    ensures Heard(y, x', r[1..])
  {
    HeardPop(y, x, r);
  }

  lemma DropBoundPeer(x: Party, y: Party, q: Queue, r: Queue, x': Party, m: SignalingCommand)
    requires Both(x, y, q, r) && Parts(r, m) && Drops(x, r[0].sourceCid, x')
    ensures Bound(y, x', r[1..], q + [m])
  {
    var src := r[0].sourceCid;
    var p, t := q + [m], r[1..];
    AgreeTake(y, x, r, q);
    AgreeAppend(y, x, t, q, m);
    assert Releases(p[|q|], src);
    forall b | b in y.remote && y.remote[b].Some? ensures Paired(x', t, p, b, y.remote[b].value) {
      assert Paired(x, t, p, b, y.remote[b].value);
    }
    forall i | 0 <= i < |t| ensures !Intro(t[i], src) {
      assert !Intro(r[i + 1], r[0].sourceCid);
    }
  }

  lemma ReceiveDisconnect(x: Party, y: Party, q: Queue, r: Queue, x': Party, m: SignalingCommand)
    requires Both(x, y, q, r) && Parts(r, m) && Drops(x, r[0].sourceCid, x')
    ensures Both(x', y, q + [m], r[1..])
  {
    var src := r[0].sourceCid;
    assert Tracked(y.asked, r[0]);
    RepliedIds(x, y, q, r, m);
    DropIds(x, q + [m], r[1..], src, x');
    DropHeardOwn(x, y, q, r, x', m);
    DropHeardPeer(x, y, r, src, x');
    DropBoundOwn(x, y, q, r, x', m);
    DropBoundPeer(x, y, q, r, x', m);
  }

  // ----- Receiving answers -----

  ghost predicate Answer(x: Party, r: Queue, req: PendingRequest) {
    && r != [] && Answering(r[0]) && req in x.asked
    && req.identifier == r[0].header.identifier && req.code == Kind(r[0])
  }

  ghost function Unask(x: Party, req: PendingRequest): Party {
    x.(asked := x.asked - {req})
  }

  lemma FlightsAnswered(asked: Asked, q: Queue, r: Queue, req: PendingRequest)
    requires Flights(asked, q, r) && UniqueIds(asked) && r != [] && Answering(r[0])
    requires req in asked && req.identifier == r[0].header.identifier && req.code == Kind(r[0])
    ensures Flights(asked - {req}, q, r[1..])
  {
    var t, less := r[1..], asked - {req};
    FlightsAfterPop(asked, q, r);
    forall i | 0 <= i < |q| && Asking(q[i]) ensures Tracked(less, q[i]) {
      assert SeparateIds(q, i, r, 0);
    }
    forall j | 0 <= j < |t| && Answering(t[j]) ensures Tracked(less, t[j]) {
      assert SeparateIds(r, 0, r, j + 1);
    }
  }

  lemma PursuedUnask(asked: Asked, q: Queue, r: Queue, req: PendingRequest)
    requires Pursued(asked, q, r) && UniqueIds(asked) && r != []
    requires req in asked && req.identifier == r[0].header.identifier && req.code == Kind(r[0])
    ensures Pursued(asked - {req}, q, r[1..])
  {
    PursuedPop(asked - {req}, q, r);
  }

  lemma AnsweredIds(x: Party, q: Queue, r: Queue, req: PendingRequest)
    requires Ids(x, q, r) && Answer(x, r, req)
    ensures Ids(Unask(x, req), q, r[1..])
  {
    FlightsAnswered(x.asked, q, r, req);
    PursuedUnask(x.asked, q, r, req);
    forall s | s in x.asked - {req} && s.code.ConnReq? ensures SoleOwner(Unask(x, req), s) {
      assert SoleOwner(x, s);
    }
  }

  lemma TakenIds(y: Party, q: Queue, r: Queue)
    requires Ids(y, r, q) && r != [] && Answering(r[0])
    ensures Ids(y, r[1..], q)
  {
    FlightsAfterTake(y.asked, r, q);
    PursuedIgnored(y.asked, r, q);
  }

  /** A refusal leaves x's remote CIDs alone. */
  lemma AnswerRefused(x: Party, y: Party, q: Queue, r: Queue, req: PendingRequest)
    requires Both(x, y, q, r) && Answer(x, r, req) && r[0].ConnectionResponse? && !r[0].result.ConnSuccess?
    ensures Both(Unask(x, req), y, q, r[1..])
  {
    var t := r[1..];
    AnsweredIds(x, q, r, req);
    TakenIds(y, q, r);
    HeardPop(y, x, r);
    AgreePop(x, y, q, r);
    AgreeTake(y, x, r, q);
    AskedDoesNotBind(x, y, q, t, x.asked - {req});
  }

  ghost predicate Connects(x: Party, r: Queue, req: PendingRequest, a: u16) {
    && Answer(x, r, req) && req == PendingRequest(r[0].header.identifier, Some(a), ConnReq)
    && Accepts(r[0], r[0].destinationCid, a)
  }

  ghost function Connected(x: Party, r: Queue, req: PendingRequest, a: u16): Party
    requires r != [] && r[0].ConnectionResponse?
  {
    Opened(Unask(x, req), a, r[0].destinationCid)
  }

  lemma ConnectedIds(x: Party, q: Queue, r: Queue, req: PendingRequest, a: u16)
    requires Ids(x, q, r) && Connects(x, r, req, a)
    ensures Ids(Connected(x, r, req, a), q, r[1..])
  {
    var x' := Connected(x, r, req, a);
    AnsweredIds(x, q, r, req);
    assert SoleOwner(x, req);
    forall s | s in x'.asked && s.code.ConnReq? ensures SoleOwner(x', s) {
      assert SoleOwner(Unask(x, req), s);
    }
  }

  lemma ConnectedHeardOwn(x: Party, y: Party, q: Queue, r: Queue, req: PendingRequest, a: u16)
    requires Both(x, y, q, r) && Connects(x, r, req, a)
    ensures Heard(Connected(x, r, req, a), y, q)
  {
    var dst := r[0].destinationCid;
    assert SoleOwner(x, req);
    forall c | c in x.remote ensures x.remote[c] != Some(dst) {
      assert !Released(r, 0, c);
      assert Intro(r[0], dst);
    }
  }

  lemma ConnectedHeardPeer(x: Party, y: Party, q: Queue, r: Queue, req: PendingRequest, a: u16)
    requires Both(x, y, q, r) && Connects(x, r, req, a)
    ensures Heard(y, Connected(x, r, req, a), r[1..])
  {
    var dst, t := r[0].destinationCid, r[1..];
    var x' := Connected(x, r, req, a);
    HeardPop(y, x, r);
    forall k | 0 < k < |r| ensures !Intro(r[k], dst) {
      IntroducedOnce(x, y, q, r, dst, k);
    }
    forall i, c | 0 <= i < |t| && c in x'.remote && x'.remote[c].Some? && Intro(t[i], x'.remote[c].value)
      ensures Released(t, i, c)
    {
      assert !Intro(r[i + 1], dst);
    }
  }

  lemma ConnectedBoundOwn(x: Party, y: Party, q: Queue, r: Queue, req: PendingRequest, a: u16)
    requires Both(x, y, q, r) && Connects(x, r, req, a)
    ensures Bound(Connected(x, r, req, a), y, q, r[1..])
  {
    var dst, t := r[0].destinationCid, r[1..];
    var x' := Connected(x, r, req, a);
    AgreePop(x, y, q, r);
    forall c | c in x'.remote && x'.remote[c].Some? ensures Paired(y, q, t, c, x'.remote[c].value) {
      if c == a {
        assert Matched(y, a, dst);
      } else {
        assert Paired(y, q, t, c, x.remote[c].value);
      }
    }
  }

  lemma ConnectedBoundPeer(x: Party, y: Party, q: Queue, r: Queue, req: PendingRequest, a: u16)
    requires Both(x, y, q, r) && Connects(x, r, req, a)
    ensures Bound(y, Connected(x, r, req, a), r[1..], q)
  {
    var dst, t := r[0].destinationCid, r[1..];
    var x' := Connected(x, r, req, a);
    assert SoleOwner(x, req);
    Popped(r, t);
    forall b | b in y.remote && y.remote[b].Some? ensures Paired(x', t, q, b, y.remote[b].value) {
      assert Paired(x, r, q, b, y.remote[b].value);
      assert Matched(x', dst, a);
    }
    forall j | 0 <= j < |q| && q[j].DisconnectionResponse? ensures q[j].destinationCid != dst {
      assert !Intro(r[0], q[j].destinationCid);
    }
  }

  /** x learns the remote CID of its waiting channel a. */
  lemma AnswerConnected(x: Party, y: Party, q: Queue, r: Queue, req: PendingRequest, a: u16)
    requires Both(x, y, q, r) && Connects(x, r, req, a)
    ensures Both(Connected(x, r, req, a), y, q, r[1..])
  {
    ConnectedIds(x, q, r, req, a);
    TakenIds(y, q, r);
    ConnectedHeardOwn(x, y, q, r, req, a);
    ConnectedHeardPeer(x, y, q, r, req, a);
    ConnectedBoundOwn(x, y, q, r, req, a);
    ConnectedBoundPeer(x, y, q, r, req, a);
  }

  ghost predicate Ends(x: Party, r: Queue, req: PendingRequest, a: u16) {
    Answer(x, r, req) && req == PendingRequest(r[0].header.identifier, Some(a), DiscReq) && Releases(r[0], a)
  }

  ghost function Closed(x: Party, req: PendingRequest, a: u16): Party {
    Party(x.remote - {a}, x.asked - {req})
  }

  lemma ClosedIds(x: Party, q: Queue, r: Queue, req: PendingRequest, a: u16)
    requires Ids(x, q, r) && Ends(x, r, req, a)
    ensures Ids(Closed(x, req, a), q, r[1..])
  {
    var x' := Closed(x, req, a);
    AnsweredIds(x, q, r, req);
    forall s | s in x'.asked && s.code.ConnReq? ensures SoleOwner(x', s) {
      assert SoleOwner(x, s);
    }
  }

  lemma ClosedHeardOwn(x: Party, y: Party, q: Queue, r: Queue, req: PendingRequest, a: u16)
    requires Both(x, y, q, r) && Ends(x, r, req, a)
    ensures Heard(Closed(x, req, a), y, q)
  {
    forall i | 0 <= i < |q| ensures !Intro(q[i], r[0].destinationCid) {
    }
  }

  lemma ClosedHeardPeer(x: Party, y: Party, r: Queue, req: PendingRequest, a: u16)
    requires Heard(y, x, r) && Ends(x, r, req, a)
    ensures Heard(y, Closed(x, req, a), r[1..])
  {
    var t, x' := r[1..], Closed(x, req, a);
    Popped(r, t);
    InOrderPop(r);
    forall i, c | 0 <= i < |t| && c in x'.remote && x'.remote[c].Some? && Intro(t[i], x'.remote[c].value)
      ensures Released(t, i, c)
    {
      assert Released(r, i + 1, c);
    }
  }

  lemma ClosedBoundOwn(x: Party, y: Party, q: Queue, r: Queue, req: PendingRequest, a: u16)
    requires Bound(x, y, q, r) && Ends(x, r, req, a)
    ensures Bound(Closed(x, req, a), y, q, r[1..])
  {
    var t, x' := r[1..], Closed(x, req, a);
    Popped(r, t);
    forall c | c in x'.remote && x'.remote[c].Some? ensures Paired(y, q, t, c, x'.remote[c].value) {
      assert Paired(y, q, r, c, x.remote[c].value);
    }
  }

  lemma ClosedBoundPeer(x: Party, y: Party, q: Queue, r: Queue, req: PendingRequest, a: u16)
    requires Bound(x, y, q, r) && Bound(y, x, r, q) && Ends(x, r, req, a)
    ensures Bound(y, Closed(x, req, a), r[1..], q)
  {
    var t, x' := r[1..], Closed(x, req, a);
    Popped(r, t);
    forall b | b in y.remote && y.remote[b].Some? ensures Paired(x', t, q, b, y.remote[b].value) {
      assert Paired(x, r, q, b, y.remote[b].value);
      assert !Releases(r[0], y.remote[b].value);
    }
  }

  /** x learns that its channel a is gone. */
  lemma AnswerDisconnected(x: Party, y: Party, q: Queue, r: Queue, req: PendingRequest, a: u16)
    requires Both(x, y, q, r) && Ends(x, r, req, a)
    ensures Both(Closed(x, req, a), y, q, r[1..])
  {
    ClosedIds(x, q, r, req, a);
    TakenIds(y, q, r);
    ClosedHeardOwn(x, y, q, r, req, a);
    ClosedHeardPeer(x, y, r, req, a);
    ClosedBoundOwn(x, y, q, r, req, a);
    ClosedBoundPeer(x, y, q, r, req, a);
  }
}
