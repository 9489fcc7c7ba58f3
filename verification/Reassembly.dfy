/** Reassembly over whole fragment streams: what is handed on, when, and that links do not disturb each other. */
module Reassembly {
  import opened Wrappers
  import opened Words
  import opened IndexMap
  import opened Channel
  import opened Packet
  import opened Processor
  import opened Acl

  type Fragments = seq<AclData>

  function Concat(fs: Fragments): seq<u8> {
    if fs == [] then [] else fs[0] + Concat(fs[1..])
  }

  lemma {:induction false} ConcatSplit(fs: Fragments, k: nat)
    requires k <= |fs|
    ensures Concat(fs) == Concat(fs[..k]) + Concat(fs[k..])
  {
    if k == 0 {
      assert fs[0..] == fs;
    } else {
      ConcatSplit(fs[1..], k - 1);
      assert fs[..k][1..] == fs[1..][..k - 1] && fs[1..][k - 1..] == fs[k..];
    }
  }

  lemma ConcatOne(f: AclData)
    ensures Concat([f]) == f
  {
    assert [f][1..] == [];
  }

  /** The frames a link hands on over a packet sequence, and the state it ends in. */
  function FeedAll(reader: LengthReader, c: AclConnection, ps: seq<AclPacket>): (AclConnection, seq<AclData>)
    decreases |ps|
  {
    if ps == [] then (c, [])
    else
      var (c1, r) := Feed(reader, c, ps[0]);
      var (c2, rest) := FeedAll(reader, c1, ps[1..]);
      (c2, Then(r, rest))
  }

  /** The frame handed on by one packet, if any, before those of the packets after it. */
  function Then(r: Result<Option<AclData>, AclError>, rest: seq<AclData>): seq<AclData> {
    if r.Ok? && r.value.Some? then [r.value.value] + rest else rest
  }

  /** A buffer never stays complete between packets. */
  predicate Pending(c: AclConnection) {
    !c.Complete()
  }

  /** No packet, including a refused one, leaves a complete buffer behind. */
  lemma FeedLeavesPending(reader: LengthReader, c: AclConnection, p: AclPacket)
    requires Pending(c)
    ensures Pending(Feed(reader, c, p).0)
  {
  }

  // ----- One fragmented frame -----

  ghost predicate Continues(ps: seq<AclPacket>, fs: Fragments) {
    |ps| == |fs| && forall i :: 0 <= i < |ps| ==> ps[i].header.boundary.ContinuingFragment? && ps[i].data == fs[i]
  }

  /** ps carries fs: a first fragment, then continuing ones. */
  ghost predicate Carries(ps: seq<AclPacket>, fs: Fragments) {
    && |ps| == |fs| >= 1
    && (ps[0].header.boundary.FirstNonFlushable? || ps[0].header.boundary.FirstFlushable?)
    && ps[0].data == fs[0]
    && Continues(ps[1..], fs[1..])
  }

  /** The number of fragments up to the first boundary with `expected` bytes, if there is one. */
  ghost predicate FirstBoundary(fs: Fragments, expected: nat, k: nat) {
    && 1 <= k <= |fs|
    && |Concat(fs[..k])| >= expected
    && forall j :: 1 <= j < k ==> |Concat(fs[..j])| < expected
  }

  ghost predicate NoBoundary(fs: Fragments, expected: nat) {
    forall j :: 1 <= j <= |fs| ==> |Concat(fs[..j])| < expected
  }

  /** Without an expected length continuing fragments only pile up. */
  lemma {:induction false} StrayFragments(reader: LengthReader, c: AclConnection, ps: seq<AclPacket>, fs: Fragments)
    requires Continues(ps, fs) && c.expectedLength.None? && |c.fragmentBuffer| + |Concat(fs)| <= MAX_ACL_DATA_SIZE
    ensures FeedAll(reader, c, ps) == (c.(fragmentBuffer := c.fragmentBuffer + Concat(fs)), [])
    decreases |ps|
  {
    if ps == [] {
      assert c.fragmentBuffer + [] == c.fragmentBuffer;
    } else {
      var c1 := c.(fragmentBuffer := c.fragmentBuffer + fs[0]);
      StrayFragments(reader, c1, ps[1..], fs[1..]);
      assert c.fragmentBuffer + fs[0] + Concat(fs[1..]) == c.fragmentBuffer + Concat(fs);
    }
  }

  /** Fragments that stay short of the expected length are collected and nothing is handed on. */
  lemma {:induction false} CollectShort(reader: LengthReader, c: AclConnection, ps: seq<AclPacket>, fs: Fragments)
    requires Continues(ps, fs) && c.expectedLength.Some? && |c.fragmentBuffer| + |Concat(fs)| <= MAX_ACL_DATA_SIZE
    requires |c.fragmentBuffer| + |Concat(fs)| < c.expectedLength.value
    ensures FeedAll(reader, c, ps) == (c.(fragmentBuffer := c.fragmentBuffer + Concat(fs)), [])
    decreases |ps|
  {
    if ps == [] {
      assert c.fragmentBuffer + [] == c.fragmentBuffer;
    } else {
      var c1 := c.(fragmentBuffer := c.fragmentBuffer + fs[0]);
      CollectShort(reader, c1, ps[1..], fs[1..]);
      assert c.fragmentBuffer + fs[0] + Concat(fs[1..]) == c.fragmentBuffer + Concat(fs);
    }
  }

  lemma {:induction false} FeedAllSplit(reader: LengthReader, c: AclConnection, ps: seq<AclPacket>, k: nat)
    requires k <= |ps|
    ensures var (c1, a) := FeedAll(reader, c, ps[..k]);
            var (c2, b) := FeedAll(reader, c1, ps[k..]);
            FeedAll(reader, c, ps) == (c2, a + b)
    decreases k
  {
    if k == 0 {
      assert ps[0..] == ps && ps[..0] == [];
      assert [] + FeedAll(reader, c, ps).1 == FeedAll(reader, c, ps).1;
    } else {
      var c1 := Feed(reader, c, ps[0]).0;
      FeedAllSplit(reader, c1, ps[1..], k - 1);
      assert ps[..k][1..] == ps[1..][..k - 1] && ps[1..][k - 1..] == ps[k..];
      assert ps[..k][0] == ps[0];
      var r := Feed(reader, c, ps[0]).1;
      var (c2, a) := FeedAll(reader, c1, ps[1..][..k - 1]);
      var b := FeedAll(reader, c2, ps[k..]).1;
      assert Then(r, a) + b == Then(r, a + b);
    }
  }

  /** The state after the first fragment alone, when that is too short. */
  function Started(reader: LengthReader, c: AclConnection, first: AclData): AclConnection {
    c.(fragmentBuffer := first, expectedLength := Some(ExpectedLength(reader, first)))
  }

  /** The first k - 1 fragments of a frame that is complete only at the k-th. */
  lemma CollectPrefix(reader: LengthReader, c: AclConnection, ps: seq<AclPacket>, fs: Fragments)
    requires Carries(ps, fs) && |fs[0]| >= 4 && |Concat(fs)| <= MAX_ACL_DATA_SIZE
    requires |Concat(fs)| < ExpectedLength(reader, fs[0])
    ensures FeedAll(reader, c, ps) == (Started(reader, c, fs[0]).(fragmentBuffer := Concat(fs)), [])
  {
    var c1 := Started(reader, c, fs[0]);
    assert Feed(reader, c, ps[0]) == (c1, Ok(None));
    CollectShort(reader, c1, ps[1..], fs[1..]);
  }

  lemma PrefixCarries(ps: seq<AclPacket>, fs: Fragments, k: nat)
    requires Carries(ps, fs) && 1 <= k <= |fs|
    ensures Carries(ps[..k], fs[..k])
  {
    assert ps[..k][1..] == ps[1..][..k - 1] && fs[..k][1..] == fs[1..][..k - 1];
  }

  lemma ConcatGrows(fs: Fragments, k: nat)
    requires 1 <= k <= |fs|
    ensures Concat(fs[..k]) == Concat(fs[..k - 1]) + fs[k - 1]
    ensures |Concat(fs[..k])| <= |Concat(fs)|
  {
    ConcatSplit(fs[..k], k - 1);
    assert fs[..k][..k - 1] == fs[..k - 1] && fs[..k][k - 1..] == [fs[k - 1]];
    ConcatOne(fs[k - 1]);
    ConcatSplit(fs, k);
  }

  lemma FeedOne(reader: LengthReader, c: AclConnection, p: AclPacket)
    ensures FeedAll(reader, c, [p]) == (Feed(reader, c, p).0, Then(Feed(reader, c, p).1, []))
  {
    assert [p][1..] == [];
  }

  lemma CompleteAtFirst(reader: LengthReader, c: AclConnection, ps: seq<AclPacket>, fs: Fragments)
    requires Carries(ps, fs) && |fs[0]| >= 4 && |fs[0]| >= ExpectedLength(reader, fs[0])
    ensures FeedAll(reader, c, ps[..1]) == (ResetFragmentation(c), [Concat(fs[..1])])
  {
    assert fs[..1] == [fs[0]] && ps[..1] == [ps[0]];
    assert [fs[0]] + [] == [fs[0]];
    ConcatOne(fs[0]);
    FeedOne(reader, c, ps[0]);
  }

  /** A continuing fragment that reaches the expected length hands on the whole buffer. */
  lemma LastFragment(reader: LengthReader, c: AclConnection, p: AclPacket)
    requires p.header.boundary.ContinuingFragment? && |c.fragmentBuffer| + |p.data| <= MAX_ACL_DATA_SIZE
    requires c.expectedLength.Some? && |c.fragmentBuffer| + |p.data| >= c.expectedLength.value
    ensures FeedAll(reader, c, [p]) == (ResetFragmentation(c), [c.fragmentBuffer + p.data])
  {
    FeedOne(reader, c, p);
    assert [c.fragmentBuffer + p.data] + [] == [c.fragmentBuffer + p.data];
  }

  /** When the first k - 1 packets hand nothing on, the k-th decides. */
  lemma SilentPrefix(reader: LengthReader, c: AclConnection, ps: seq<AclPacket>, k: nat)
    requires 1 <= k <= |ps| && FeedAll(reader, c, ps[..k - 1]).1 == []
    ensures FeedAll(reader, c, ps[..k]) == FeedAll(reader, FeedAll(reader, c, ps[..k - 1]).0, [ps[k - 1]])
  {
    FeedAllSplit(reader, c, ps[..k], k - 1);
    assert ps[..k][..k - 1] == ps[..k - 1] && ps[..k][k - 1..] == [ps[k - 1]];
    var b := FeedAll(reader, FeedAll(reader, c, ps[..k - 1]).0, [ps[k - 1]]).1;
    assert [] + b == b;
  }

  /** The k-th fragment completes the frame. */
  lemma CompleteAt(reader: LengthReader, c: AclConnection, ps: seq<AclPacket>, fs: Fragments, k: nat)
    requires Carries(ps, fs) && |fs[0]| >= 4 && |Concat(fs)| <= MAX_ACL_DATA_SIZE
    requires FirstBoundary(fs, ExpectedLength(reader, fs[0]), k)
    ensures FeedAll(reader, c, ps[..k]) == (ResetFragmentation(c), [Concat(fs[..k])])
  {
    ConcatGrows(fs, k);
    if k == 1 {
      assert fs[..0] == [];
      CompleteAtFirst(reader, c, ps, fs);
    } else {
      PrefixCarries(ps, fs, k - 1);
      assert |Concat(fs[..k - 1])| < ExpectedLength(reader, fs[0]);
      CollectPrefix(reader, c, ps[..k - 1], fs[..k - 1]);
      SilentPrefix(reader, c, ps, k);
      assert ps[k - 1] == ps[1..][k - 2] && fs[k - 1] == fs[1..][k - 2];
      LastFragment(reader, Started(reader, c, fs[0]).(fragmentBuffer := Concat(fs[..k - 1])), ps[k - 1]);
    }
  }

  /**
   For every split of a byte string into a first fragment of at least four bytes
   and continuing fragments: when k is the first boundary with the expected
   number of bytes, exactly the bytes up to k are handed on, once, and what
   follows is left in the buffer.
   */
  lemma ReassembledAtFirstBoundary(reader: LengthReader, c: AclConnection, ps: seq<AclPacket>, fs: Fragments, k: nat)
    requires Carries(ps, fs) && |fs[0]| >= 4 && |Concat(fs)| <= MAX_ACL_DATA_SIZE
    requires FirstBoundary(fs, ExpectedLength(reader, fs[0]), k)
    ensures |Concat(fs[k..])| <= MAX_ACL_DATA_SIZE
    ensures FeedAll(reader, c, ps) == (ResetFragmentation(c).(fragmentBuffer := Concat(fs[k..])), [Concat(fs[..k])])
  {
    CompleteAt(reader, c, ps, fs, k);
    FeedAllSplit(reader, c, ps, k);
    ConcatSplit(fs, k);
    assert ps[k..] == ps[1..][k - 1..] && fs[k..] == fs[1..][k - 1..];
    StrayFragments(reader, ResetFragmentation(c), ps[k..], fs[k..]);
    assert [] + Concat(fs[k..]) == Concat(fs[k..]);
    assert [Concat(fs[..k])] + [] == [Concat(fs[..k])];
  }

  /** With no such boundary nothing is handed on and every byte is kept. */
  lemma NothingBeforeBoundary(reader: LengthReader, c: AclConnection, ps: seq<AclPacket>, fs: Fragments)
    requires Carries(ps, fs) && |fs[0]| >= 4 && |Concat(fs)| <= MAX_ACL_DATA_SIZE
    requires NoBoundary(fs, ExpectedLength(reader, fs[0]))
    ensures FeedAll(reader, c, ps) == (Started(reader, c, fs[0]).(fragmentBuffer := Concat(fs)), [])
  {
    assert fs[..|fs|] == fs;
    CollectPrefix(reader, c, ps, fs);
  }

  lemma {:induction false} BoundaryExists(fs: Fragments, expected: nat, n: nat) returns (k: nat)
    requires n <= |fs|
    ensures k <= n && (k > 0 ==> FirstBoundary(fs, expected, k))
    ensures k == 0 ==> forall j :: 1 <= j <= n ==> |Concat(fs[..j])| < expected
  {
    if n == 0 {
      k := 0;
    } else {
      k := BoundaryExists(fs, expected, n - 1);
      if k == 0 && |Concat(fs[..n])| >= expected {
        k := n;
      }
    }
  }

  /** Every boundary that reaches the expected length already holds all the bytes. */
  ghost predicate OnlyWhole(fs: Fragments, expected: nat) {
    && |Concat(fs)| >= expected
    && forall j :: 1 <= j <= |fs| && |Concat(fs[..j])| >= expected ==> |Concat(fs[..j])| == |Concat(fs)|
  }

  /**
   The original frame comes out, exactly once and whole, if and only if no proper
   prefix of it reaches the expected length at a fragment boundary and the frame
   itself does.
   */
  lemma IntactExactlyWhen(reader: LengthReader, c: AclConnection, ps: seq<AclPacket>, fs: Fragments)
    requires Carries(ps, fs) && |fs[0]| >= 4 && |Concat(fs)| <= MAX_ACL_DATA_SIZE
    ensures FeedAll(reader, c, ps).1 == [Concat(fs)] <==> OnlyWhole(fs, ExpectedLength(reader, fs[0]))
  {
    var e := ExpectedLength(reader, fs[0]);
    var k := BoundaryExists(fs, e, |fs|);
    assert fs[..|fs|] == fs;
    if k == 0 {
      NothingBeforeBoundary(reader, c, ps, fs);
    } else {
      ReassembledAtFirstBoundary(reader, c, ps, fs, k);
      ConcatSplit(fs, k);
      assert FeedAll(reader, c, ps).1[0] == Concat(fs[..k]);
      assert |Concat(fs[..k])| == |Concat(fs)| ==> Concat(fs[..k]) == Concat(fs);
      forall j | k <= j <= |fs| ensures |Concat(fs[..k])| <= |Concat(fs[..j])| <= |Concat(fs)| {
        ConcatSplit(fs[..j], k);
        assert fs[..j][..k] == fs[..k];
        ConcatSplit(fs, j);
      }
    }
  }

  /** Whenever the reader agrees with the basic header, every fragmentation of a frame yields that frame. */
  lemma AgreeingReaderReassembles(reader: LengthReader, c: AclConnection, ps: seq<AclPacket>, fs: Fragments)
    requires Carries(ps, fs) && |fs[0]| >= 4 && |Concat(fs)| <= MAX_ACL_DATA_SIZE
    requires reader(fs[0]) == LengthField(fs[0])
    requires PacketFromBytes(Concat(fs)).Ok?
             && |Concat(fs)| == HEADER_SIZE + PacketFromBytes(Concat(fs)).value.header.length
    ensures FeedAll(reader, c, ps).1 == [Concat(fs)]
  {
    var whole := Concat(fs);
    assert whole[0] == fs[0][0] && whole[1] == fs[0][1];
    assert ExpectedLength(reader, fs[0]) == |whole|;
    forall j | 1 <= j <= |fs| ensures |Concat(fs[..j])| <= |whole| {
      ConcatGrows(fs, j);
    }
    IntactExactlyWhen(reader, c, ps, fs);
  }

  /**
   The ACL layer takes the channel number, in bytes 2 and 3, for the length, in
   16-bit arithmetic: every fragmented frame is handed on up to the first boundary
   with four bytes more than that number.
   */
  lemma FramesAreCutByChannel(c: AclConnection, ps: seq<AclPacket>, fs: Fragments, k: nat)
    requires Carries(ps, fs) && |fs[0]| >= HEADER_SIZE && |Concat(fs)| <= MAX_ACL_DATA_SIZE
    requires FirstBoundary(fs, (fs[0][2] as nat + 0x100 * fs[0][3] as nat + 4) % 0x1_0000, k)
    ensures FeedAll(LengthAsRead, c, ps).1 == [Concat(fs[..k])]
  {
    ReassembledAtFirstBoundary(LengthAsRead, c, ps, fs, k);
  }

  /** A length of 0xFFFC or more wraps round: the first fragment of at least four bytes is handed on alone. */
  lemma HugeLengthWraps(reader: LengthReader, c: AclConnection, ps: seq<AclPacket>, fs: Fragments)
    requires Carries(ps, fs) && |fs[0]| >= HEADER_SIZE && |Concat(fs)| <= MAX_ACL_DATA_SIZE
    requires reader(fs[0]) >= 0xFFFC
    ensures FeedAll(reader, c, ps).1 == [fs[0]]
  {
    assert fs[..1] == [fs[0]];
    ConcatOne(fs[0]);
    ReassembledAtFirstBoundary(reader, c, ps, fs, 1);
  }

  /** What the reader of the ACL layer makes of a signalling frame: the channel identifier, plus the header. */
  const CUT_LENGTH: nat := SIGNALING_CID + HEADER_SIZE

  /**
   The ACL layer takes the channel identifier for the length. So of every
   fragmented signalling frame with a payload exactly the bytes up to the first
   boundary with five of them are handed on: the first fragment alone, unless
   that is the bare header.
   */
  lemma SignallingFramesAreCut(c: AclConnection, ps: seq<AclPacket>, fs: Fragments) returns (k: nat)
    requires Carries(ps, fs) && |fs[0]| >= HEADER_SIZE && HEADER_SIZE < |Concat(fs)| <= MAX_ACL_DATA_SIZE
    requires FromLe16(fs[0][2], fs[0][3]) == SIGNALING_CID
    ensures FirstBoundary(fs, CUT_LENGTH, k) && (k == 1 <==> |fs[0]| > HEADER_SIZE)
    ensures FeedAll(LengthAsRead, c, ps).1 == [Concat(fs[..k])]
  {
    assert fs[..1] == [fs[0]] && fs[..|fs|] == fs;
    ConcatOne(fs[0]);
    k := BoundaryExists(fs, CUT_LENGTH, |fs|);
    ReassembledAtFirstBoundary(LengthAsRead, c, ps, fs, k);
  }

  /** A first fragment shorter than the header sets no expected length: nothing is ever handed on. */
  lemma ShortStartNeverCompletes(reader: LengthReader, c: AclConnection, ps: seq<AclPacket>, fs: Fragments)
    requires Carries(ps, fs) && |fs[0]| < HEADER_SIZE && |Concat(fs)| <= MAX_ACL_DATA_SIZE
    ensures FeedAll(reader, c, ps) == (c.(fragmentBuffer := Concat(fs), expectedLength := None), [])
  {
    var c1 := c.(fragmentBuffer := fs[0], expectedLength := None);
    assert Feed(reader, c, ps[0]) == (c1, Ok(None));
    StrayFragments(reader, c1, ps[1..], fs[1..]);
  }

  // ----- Packets in between -----

  /**
   Feeding p in state c leaves the state as it is: an unfragmented packet, or a
   fragment the buffer has no room for.
   */
  ghost predicate PassesBy(c: AclConnection, p: AclPacket) {
    || p.header.boundary == CompletePdu
    || (p.header.boundary == ContinuingFragment && |c.fragmentBuffer| + |p.data| > 1024)
  }

  /** The frame that such a packet hands on: its own data, or none. */
  ghost function PassedOn(p: AclPacket): seq<AclData> {
    if p.header.boundary == CompletePdu then [p.data] else []
  }

  lemma PassingBy(reader: LengthReader, c: AclConnection, p: AclPacket)
    requires PassesBy(c, p)
    ensures FeedAll(reader, c, [p]) == (c, PassedOn(p))
    ensures p.header.boundary == ContinuingFragment ==> Feed(reader, c, p).1 == Err(FragmentBufferFull)
  {
    FeedOne(reader, c, p);
    assert [p.data] + [] == [p.data];
  }

  lemma FeedAllJoined(reader: LengthReader, c: AclConnection, a: seq<AclPacket>, b: seq<AclPacket>)
    ensures var (mid, first) := FeedAll(reader, c, a);
            var (end, second) := FeedAll(reader, mid, b);
            FeedAll(reader, c, a + b) == (end, first + second)
  {
    FeedAllSplit(reader, c, a + b, |a|);
    assert (a + b)[..|a|] == a && (a + b)[|a|..] == b;
  }

  /**
   An unfragmented packet in the middle of a fragmented frame comes out at once and
   does not disturb that frame; a fragment beyond 1024 bytes is dropped and does not
   disturb it either.
   */
  lemma InterruptionsPassBy(reader: LengthReader, c: AclConnection, before: seq<AclPacket>, p: AclPacket,
                            after: seq<AclPacket>)
    requires PassesBy(FeedAll(reader, c, before).0, p)
    ensures var (mid, first) := FeedAll(reader, c, before);
            var (end, second) := FeedAll(reader, mid, after);
            && FeedAll(reader, c, before + after) == (end, first + second)
            && FeedAll(reader, c, before + [p] + after) == (end, first + PassedOn(p) + second)
  {
    FeedAllJoined(reader, c, before, after);
    FeedAllJoined(reader, c, before, [p]);
    PassingBy(reader, FeedAll(reader, c, before).0, p);
    FeedAllJoined(reader, c, before + [p], after);
  }

  // ----- Many links -----

  datatype LinkOp =
    | Up(handle: u16, remoteAddr: Address)
    | Down(handle: u16)
    | Data(packet: AclPacket)

  function HandleOf(op: LinkOp): u16 {
    match op
    case Up(handle, _) => handle
    case Down(handle) => handle
    case Data(p) => p.header.handle
  }

  function LinkStep(reader: LengthReader, m: Links, op: LinkOp): (Links, Result<Option<AclData>, AclError>) {
    match op
    case Up(handle, addr) => (AddLink(m, handle, addr).1, Ok(None))
    case Down(handle) => (Remove(m, handle), Ok(None))
    case Data(p) =>
      var h: u16 := p.header.handle;
      if !Has(m, h) then (m, Err(UnknownHandle))
      else
        var (c, r) := Feed(reader, Get(m, h), p);
        (Put(m, h, c), r)
  }

  /** Frames handed on over a run, each with its link. */
  function RunLinks(reader: LengthReader, m: Links, ops: seq<LinkOp>): (Links, seq<(u16, AclData)>)
    decreases |ops|
  {
    if ops == [] then (m, [])
    else
      var (m1, r) := LinkStep(reader, m, ops[0]);
      var (n, rest) := RunLinks(reader, m1, ops[1..]);
      (n, ThenFrom(HandleOf(ops[0]), r, rest))
  }

  /** What one operation does to its own link, were there no others: absent, or its fragmentation state. */
  function SoloStep(reader: LengthReader, c: Option<AclConnection>, op: LinkOp)
    : (Option<AclConnection>, Result<Option<AclData>, AclError>)
  {
    match op
    case Up(handle, addr) => (Some(AclConnection(handle, addr, [], None)), Ok(None))
    case Down(_) => (None, Ok(None))
    case Data(p) =>
      if c.None? then (None, Err(UnknownHandle))
      else
        var (c1, r) := Feed(reader, c.value, p);
        (Some(c1), r)
  }

  function RunSolo(reader: LengthReader, c: Option<AclConnection>, ops: seq<LinkOp>)
    : (Option<AclConnection>, seq<AclData>)
    decreases |ops|
  {
    if ops == [] then (c, [])
    else
      var (c1, r) := SoloStep(reader, c, ops[0]);
      var (c2, rest) := RunSolo(reader, c1, ops[1..]);
      (c2, Then(r, rest))
  }

  /** A new link is refused when there are four others. */
  predicate Refused(m: Links, op: LinkOp) {
    op.Up? && !Has(m, op.handle) && |m| >= MAX_ACL_CONNECTIONS
  }

  /** The operations of a run on link h, without refused additions. */
  function OpsOf(reader: LengthReader, h: u16, m: Links, ops: seq<LinkOp>): seq<LinkOp>
    decreases |ops|
  {
    if ops == [] then []
    else
      var rest := OpsOf(reader, h, LinkStep(reader, m, ops[0]).0, ops[1..]);
      if HandleOf(ops[0]) == h && !Refused(m, ops[0]) then [ops[0]] + rest else rest
  }

  ghost function LinkAt(m: Links, h: u16): Option<AclConnection> {
    if h in AsMap(m) then Some(AsMap(m)[h]) else None
  }

  ghost predicate Bounded(m: Links) {
    Distinct(m) && |m| <= MAX_ACL_CONNECTIONS
  }

  function ThenFrom(h: u16, r: Result<Option<AclData>, AclError>, rest: seq<(u16, AclData)>): seq<(u16, AclData)> {
    if r.Ok? && r.value.Some? then [(h, r.value.value)] + rest else rest
  }

  function FramesOf(h: u16, out: seq<(u16, AclData)>): seq<AclData> {
    if out == [] then []
    else if out[0].0 == h then [out[0].1] + FramesOf(h, out[1..])
    else FramesOf(h, out[1..])
  }

  lemma FramesOfThen(h: u16, g: u16, r: Result<Option<AclData>, AclError>, rest: seq<(u16, AclData)>)
    ensures FramesOf(h, ThenFrom(g, r, rest)) == if g == h then Then(r, FramesOf(h, rest)) else FramesOf(h, rest)
  {
    if r.Ok? && r.value.Some? {
      assert ([(g, r.value.value)] + rest)[1..] == rest;
    }
  }

  ghost predicate AllPending(m: Links) {
    forall h :: h in AsMap(m) ==> Pending(AsMap(m)[h])
  }

  /** An operation that is not refused does to its own link what it would do alone, and nothing to the others. */
  lemma StepIsLocal(reader: LengthReader, m: Links, op: LinkOp, h: u16)
    requires Bounded(m)
    ensures var (n, r) := LinkStep(reader, m, op);
            && Bounded(n)
            && (HandleOf(op) == h && !Refused(m, op) ==> (LinkAt(n, h), r) == SoloStep(reader, LinkAt(m, h), op))
            && (HandleOf(op) != h || Refused(m, op) ==> LinkAt(n, h) == LinkAt(m, h))
            && (Refused(m, op) ==> r == Ok(None))
  {
    match op {
      case Up(handle, addr) =>
        HasIsIn(m, handle);
        InsertAsMap(m, handle, NewAclConnection(handle, addr), MAX_ACL_CONNECTIONS);
      case Down(handle) => RemoveAsMap(m, handle);
      case Data(p) =>
        HasIsIn(m, p.header.handle);
        if Has(m, p.header.handle) {
          PutAsMap(m, p.header.handle, Feed(reader, Get(m, p.header.handle), p).0);
        }
    }
  }

  lemma RunSoloCons(reader: LengthReader, c: Option<AclConnection>, op: LinkOp, ops: seq<LinkOp>)
    ensures var (c1, r) := SoloStep(reader, c, op);
            RunSolo(reader, c, [op] + ops) == (RunSolo(reader, c1, ops).0, Then(r, RunSolo(reader, c1, ops).1))
  {
    assert ([op] + ops)[1..] == ops;
  }

  /**
   For every interleaving of additions, removals and packets on different links,
   the frames handed on for one link, and the state it is left in, are those of
   its own operations alone; a refused addition counts as none.
   */
  lemma {:induction false} LinksAreIsolated(reader: LengthReader, m: Links, ops: seq<LinkOp>, h: u16)
    requires Bounded(m)
    ensures var (n, out) := RunLinks(reader, m, ops);
            && Bounded(n)
            && (LinkAt(n, h), FramesOf(h, out)) == RunSolo(reader, LinkAt(m, h), OpsOf(reader, h, m, ops))
    decreases |ops|
  {
    if ops != [] {
      var (m1, r) := LinkStep(reader, m, ops[0]);
      StepIsLocal(reader, m, ops[0], h);
      LinksAreIsolated(reader, m1, ops[1..], h);
      FramesOfThen(h, HandleOf(ops[0]), r, RunLinks(reader, m1, ops[1..]).1);
      if HandleOf(ops[0]) == h && !Refused(m, ops[0]) {
        RunSoloCons(reader, LinkAt(m, h), ops[0], OpsOf(reader, h, m1, ops[1..]));
      }
    }
  }

  /** No operation on a link, including a refused packet, leaves it with a complete buffer. */
  lemma SoloStaysPending(reader: LengthReader, c: Option<AclConnection>, op: LinkOp)
    requires c.Some? ==> Pending(c.value)
    ensures var c1 := SoloStep(reader, c, op).0;
            c1.Some? ==> Pending(c1.value)
  {
    if op.Data? && c.Some? {
      FeedLeavesPending(reader, c.value, op.packet);
    }
  }

  /** Over every run of additions, removals and packets no link is ever left with a complete buffer. */
  lemma {:induction false} LinksStayPending(reader: LengthReader, m: Links, ops: seq<LinkOp>)
    requires Bounded(m) && AllPending(m)
    ensures AllPending(RunLinks(reader, m, ops).0)
    decreases |ops|
  {
    if ops != [] {
      var m1 := LinkStep(reader, m, ops[0]).0;
      forall h | h in AsMap(m1) ensures Pending(AsMap(m1)[h]) {
        StepIsLocal(reader, m, ops[0], h);
        assert LinkAt(m, h).Some? ==> Pending(LinkAt(m, h).value);
        SoloStaysPending(reader, LinkAt(m, h), ops[0]);
        assert LinkAt(m1, h) == Some(AsMap(m1)[h]);
      }
      StepIsLocal(reader, m, ops[0], 0);
      LinksStayPending(reader, m1, ops[1..]);
    }
  }

  /** The fragment that completes a frame sends the whole of it on, and clears the buffer. */
  lemma CompletedFrameIsRouted(reader: LengthReader, s: AclState, p: AclPacket, c: AclConnection)
    requires Has(s.connections, p.header.handle) && c == Get(s.connections, p.header.handle)
    requires p.header.boundary == ContinuingFragment && |c.fragmentBuffer| + |p.data| <= 1024
    requires c.expectedLength.Some? && |c.fragmentBuffer| + |p.data| >= c.expectedLength.value
    ensures var cleared := c.(fragmentBuffer := [], expectedLength := None);
            var (proc, r) := Route(s.proc, cleared, p.header.handle, c.fragmentBuffer + p.data);
            ProcessPacket(reader, s, p)
            == (AclState(Put(s.connections, p.header.handle, cleared), proc), r)
  {
  }

  /** A packet that completes nothing does not reach the processor; what is refused changes nothing. */
  lemma IncompleteIsKept(reader: LengthReader, s: AclState, p: AclPacket)
    ensures !Has(s.connections, p.header.handle) ==> ProcessPacket(reader, s, p) == (s, Err(UnknownHandle))
    ensures Has(s.connections, p.header.handle) && p.header.boundary == ContinuingFragment ==>
              var c := Get(s.connections, p.header.handle);
              && (|c.fragmentBuffer| + |p.data| > 1024 ==> ProcessPacket(reader, s, p) == (s, Err(FragmentBufferFull)))
              && (|c.fragmentBuffer| + |p.data| <= 1024
                  && (c.expectedLength.Some? ==> |c.fragmentBuffer| + |p.data| < c.expectedLength.value) ==>
                    ProcessPacket(reader, s, p).0.proc == s.proc && ProcessPacket(reader, s, p).1 == Ok(()))
  {
    if Has(s.connections, p.header.handle) {
      PutGet(s.connections, p.header.handle);
    }
  }

  /** One operation of an ACL manager. */
  function ManagerStep(reader: LengthReader, s: AclState, op: LinkOp): AclState {
    match op
    case Up(handle, addr) => s.(connections := AddLink(s.connections, handle, addr).1)
    case Down(handle) => s.(connections := Remove(s.connections, handle))
    case Data(p) => ProcessPacket(reader, s, p).0
  }

  function RunManager(reader: LengthReader, s: AclState, ops: seq<LinkOp>): AclState
    decreases |ops|
  {
    if ops == [] then s else RunManager(reader, ManagerStep(reader, s, ops[0]), ops[1..])
  }

  lemma ManagerStepFollows(reader: LengthReader, s: AclState, op: LinkOp)
    ensures ManagerStep(reader, s, op).connections == LinkStep(reader, s.connections, op).0
  {
  }

  /** The links of an ACL manager go through these states, whatever the upper layers make of the frames. */
  lemma {:induction false} ProcessingFollowsLinks(reader: LengthReader, s: AclState, ops: seq<LinkOp>)
    ensures RunManager(reader, s, ops).connections == RunLinks(reader, s.connections, ops).0
    decreases |ops|
  {
    if ops != [] {
      ManagerStepFollows(reader, s, ops[0]);
      ProcessingFollowsLinks(reader, ManagerStep(reader, s, ops[0]), ops[1..]);
    }
  }
}
