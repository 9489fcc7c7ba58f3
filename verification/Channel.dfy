/** L2CAP channels and the channel manager (Vol 3 Part A sections 2.1 and 6). */
module Channel {
  import opened Wrappers
  import opened Words
  import opened IndexMap

  const DYNAMIC_START: u16 := 0x40
  const DYNAMIC_COUNT: nat := 0xFFC0
  const MAX_L2CAP_CHANNELS: nat := 8
  const ALLOCATE_PROBES: nat := 0xFFFF

  datatype L2capError = InsufficientData | PayloadTooLarge

  datatype ChannelState = Closed | WaitConnect | WaitConnectRsp | Config | Open | WaitDisconnect

  datatype ConfigurationState = NotConfigured | InProgress | Complete

  datatype ConfigurationFlags = ConfigurationFlags(localState: ConfigurationState, remoteState: ConfigurationState)

  datatype QosServiceType = NoTraffic | BestEffort | Guaranteed

  datatype QualityOfService = QualityOfService(
    serviceType: QosServiceType, tokenRate: u32, tokenBucketSize: u32,
    peakBandwidth: u32, latency: u32, delayVariation: u32)

  datatype FlowControlMode = BasicMode | RetransmissionMode | FlowMode | EnhancedRetransmissionMode | StreamingMode

  datatype ConfigurationOptions = ConfigurationOptions(
    mtu: u16, flushTimeout: u16, qos: Option<QualityOfService>, flowControlMode: FlowControlMode)

  const DEFAULT_OPTIONS := ConfigurationOptions(672, 0, None, BasicMode)
  const NO_FLAGS := ConfigurationFlags(NotConfigured, NotConfigured)

  datatype L2capChannel = L2capChannel(
    localCid: u16,
    remoteCid: Option<u16>,
    psm: u16,
    remoteAddr: Address,
    connHandle: u16,
    state: ChannelState,
    localConfig: ConfigurationOptions,
    remoteConfig: Option<ConfigurationOptions>,
    configFlags: ConfigurationFlags)
  {
    predicate IsConfigured() {
      configFlags.localState.Complete? && configFlags.remoteState.Complete?
    }
  }

  function NewOutgoing(localCid: u16, psm: u16, remoteAddr: Address, connHandle: u16): L2capChannel {
    L2capChannel(localCid, None, psm, remoteAddr, connHandle, Closed, DEFAULT_OPTIONS, None, NO_FLAGS)
  }

  function NewIncoming(localCid: u16, remoteCid: u16, psm: u16, remoteAddr: Address, connHandle: u16): L2capChannel {
    L2capChannel(localCid, Some(remoteCid), psm, remoteAddr, connHandle, WaitConnectRsp, DEFAULT_OPTIONS, None,
                 NO_FLAGS)
  }

  type Channels = seq<Entry<u16, L2capChannel>>

  /** The fields of a channel manager, as a value. */
  datatype Manager = Manager(channels: Channels, nextLocalCid: u16)

  const NEW_MANAGER := Manager([], DYNAMIC_START)

  ghost predicate ManagerOk(m: Manager) {
    && Distinct(m.channels)
    && |m.channels| <= MAX_L2CAP_CHANNELS
    && DYNAMIC_START <= m.nextLocalCid
  }

  /** The cursor after one probe: 16-bit increment, then skip the reserved CIDs. */
  function NextCid(cid: u16): u16 {
    var next := (cid + 1) % 0x1_0000;
    if next < DYNAMIC_START then DYNAMIC_START else next
  }

  /** At most `probes` rounds of the allocation loop: the CID found, if any, and the cursor left behind. */
  function Probe(channels: Channels, cursor: u16, probes: nat): (Result<u16, L2capError>, u16)
    decreases probes
  {
    if probes == 0 then (Err(PayloadTooLarge), cursor)
    else if !Has(channels, cursor) then (Ok(cursor), NextCid(cursor))
    else Probe(channels, NextCid(cursor), probes - 1)
  }

  /** How far the loop moves the cursor. */
  function ProbeSteps(channels: Channels, cursor: u16, probes: nat): nat
    decreases probes
  {
    if probes == 0 then 0
    else if !Has(channels, cursor) then 1
    else 1 + ProbeSteps(channels, NextCid(cursor), probes - 1)
  }

  function AllocateSteps(m: Manager): nat {
    ProbeSteps(m.channels, m.nextLocalCid, ALLOCATE_PROBES)
  }

  function Allocate(m: Manager): (Manager, Result<u16, L2capError>) {
    var (r, cursor) := Probe(m.channels, m.nextLocalCid, ALLOCATE_PROBES);
    (m.(nextLocalCid := cursor), r)
  }

  /** Stores a channel under a CID that was just allocated; fails when the map is full. */
  function AddChannel(m: Manager, c: L2capChannel): (Manager, Result<u16, L2capError>) {
    match Insert(m.channels, c.localCid, c, MAX_L2CAP_CHANNELS)
    case None => (m, Err(PayloadTooLarge))
    case Some(chs) => (m.(channels := chs), Ok(c.localCid))
  }

  function CreateOutgoing(m: Manager, psm: u16, remoteAddr: Address, connHandle: u16)
    : (Manager, Result<u16, L2capError>)
  {
    var (m1, r) := Allocate(m);
    if r.Err? then (m1, r) else AddChannel(m1, NewOutgoing(r.value, psm, remoteAddr, connHandle))
  }

  function CreateIncoming(m: Manager, remoteCid: u16, psm: u16, remoteAddr: Address, connHandle: u16)
    : (Manager, Result<u16, L2capError>)
  {
    var (m1, r) := Allocate(m);
    if r.Err? then (m1, r) else AddChannel(m1, NewIncoming(r.value, remoteCid, psm, remoteAddr, connHandle))
  }

  function RemoveChannel(m: Manager, cid: u16): Manager {
    m.(channels := Remove(m.channels, cid))
  }

  /** Replaces a present channel; a missing one leaves the manager alone. */
  function SetChannel(m: Manager, cid: u16, c: L2capChannel): Manager
    requires Has(m.channels, cid)
  {
    m.(channels := Put(m.channels, cid, c))
  }

  /** The first channel, in map order, of a link with the given remote CID. */
  function FindByRemoteCid(channels: Channels, remoteCid: u16, connHandle: u16): Option<L2capChannel> {
    if channels == [] then None
    else if channels[0].value.remoteCid == Some(remoteCid) && channels[0].value.connHandle == connHandle
    then Some(channels[0].value)
    else FindByRemoteCid(channels[1..], remoteCid, connHandle)
  }

  ghost predicate HasRemote(c: L2capChannel, remoteCid: u16, connHandle: u16) {
    c.remoteCid == Some(remoteCid) && c.connHandle == connHandle
  }

  /** The lookup finds a channel exactly when the link has one with that remote CID, and then the first. */
  lemma {:induction false} FindByRemoteCidFirst(channels: Channels, remoteCid: u16, connHandle: u16) returns (i: nat)
    ensures i <= |channels|
    ensures forall j :: 0 <= j < i ==> !HasRemote(channels[j].value, remoteCid, connHandle)
    ensures FindByRemoteCid(channels, remoteCid, connHandle) == if i < |channels| then Some(channels[i].value) else None
    ensures i < |channels| ==> HasRemote(channels[i].value, remoteCid, connHandle)
  {
    if channels == [] || HasRemote(channels[0].value, remoteCid, connHandle) {
      i := 0;
    } else {
      var k := FindByRemoteCidFirst(channels[1..], remoteCid, connHandle);
      i := k + 1;
      forall j | 0 <= j < i ensures !HasRemote(channels[j].value, remoteCid, connHandle) {
        if j > 0 {
          assert channels[j] == channels[1..][j - 1];
        }
      }
    }
  }

  /** The cursor k probes later: the dynamic range is walked as a ring of 0xFFC0 CIDs. */
  function CidAfter(cursor: u16, k: nat): u16
    requires DYNAMIC_START <= cursor
  {
    DYNAMIC_START + (cursor - DYNAMIC_START + k) % DYNAMIC_COUNT
  }

  lemma CidAfterNext(cursor: u16, k: nat)
    requires DYNAMIC_START <= cursor
    ensures CidAfter(cursor, 0) == cursor
    ensures CidAfter(cursor, k + 1) == CidAfter(NextCid(cursor), k)
    ensures CidAfter(cursor, k + 1) == NextCid(CidAfter(cursor, k))
  {
  }

  /** Two cursor positions coincide exactly when whole cycles of 0xFFC0 steps lie between them. */
  lemma CidsRepeatByCycle(cursor: u16, i: nat, j: nat)
    requires DYNAMIC_START <= cursor && i <= j
    ensures CidAfter(cursor, i) == CidAfter(cursor, j) <==> (j - i) % DYNAMIC_COUNT == 0
  {
  }

  ghost function CidWindow(cursor: u16, k: nat): set<u16>
    requires DYNAMIC_START <= cursor
  {
    set i | 0 <= i < k :: CidAfter(cursor, i)
  }

  lemma CidWindowGrows(cursor: u16, k: nat)
    requires DYNAMIC_START <= cursor && k < DYNAMIC_COUNT
    ensures CidWindow(cursor, k + 1) == CidWindow(cursor, k) + {CidAfter(cursor, k)}
    ensures CidAfter(cursor, k) !in CidWindow(cursor, k)
  {
    forall i: nat | i < k ensures CidAfter(cursor, i) != CidAfter(cursor, k) {
      CidsRepeatByCycle(cursor, i, k);
    }
  }

  lemma {:induction false} CidWindowSize(cursor: u16, k: nat)
    requires DYNAMIC_START <= cursor && k <= DYNAMIC_COUNT
    ensures |CidWindow(cursor, k)| == k
  {
    if k > 0 {
      CidWindowSize(cursor, k - 1);
      CidWindowGrows(cursor, k - 1);
    }
  }

  lemma {:induction false} KeysSize<V>(m: seq<Entry<u16, V>>)
    ensures |Keys(m)| <= |m|
  {
    if m != [] {
      var n := m[..|m| - 1];
      KeysSize(n);
      assert Keys(m) == Keys(n) + {m[|m| - 1].key} by {
        forall i | 0 <= i < |m| ensures m[i].key in Keys(n) + {m[|m| - 1].key} {
          if i < |m| - 1 {
            assert n[i].key == m[i].key;
          }
        }
        forall i | 0 <= i < |n| ensures n[i].key in Keys(m) {
          assert m[i].key == n[i].key;
        }
      }
    }
  }

  ghost predicate TakenUpTo(channels: Channels, cursor: u16, k: nat)
    requires DYNAMIC_START <= cursor
  {
    forall i :: 0 <= i < k ==> Has(channels, CidAfter(cursor, i))
  }

  /** Pigeonhole: no more probes can hit live CIDs than there are channels. */
  lemma ProbesBounded(channels: Channels, cursor: u16, k: nat)
    requires DYNAMIC_START <= cursor && k <= DYNAMIC_COUNT && TakenUpTo(channels, cursor, k)
    ensures k <= |channels|
  {
    CidWindowSize(cursor, k);
    KeysSize(channels);
    assert CidWindow(cursor, k) <= Keys(channels) by {
      forall i | 0 <= i < k ensures CidAfter(cursor, i) in Keys(channels) {
        assert channels[IndexOf(channels, CidAfter(cursor, i))].key == CidAfter(cursor, i);
      }
    }
    CardinalityOfSubset(CidWindow(cursor, k), Keys(channels));
  }

  /** The first k probes all hit live CIDs and the next one does not. */
  ghost predicate FirstFreeAfter(channels: Channels, cursor: u16, k: nat)
    requires DYNAMIC_START <= cursor
  {
    TakenUpTo(channels, cursor, k) && !Has(channels, CidAfter(cursor, k))
  }

  lemma {:induction false} ProbeFindsFirstFree(channels: Channels, cursor: u16, probes: nat) returns (k: nat)
    requires DYNAMIC_START <= cursor && |channels| < probes && |channels| < DYNAMIC_COUNT
    ensures k <= |channels| && FirstFreeAfter(channels, cursor, k)
    ensures Probe(channels, cursor, probes) == (Ok(CidAfter(cursor, k)), CidAfter(cursor, k + 1))
    ensures ProbeSteps(channels, cursor, probes) == k + 1
  {
    k := 0;
    CidAfterNext(cursor, 0);
    while Has(channels, CidAfter(cursor, k))
      invariant k <= |channels| && TakenUpTo(channels, cursor, k)
      invariant Probe(channels, cursor, probes) == Probe(channels, CidAfter(cursor, k), probes - k)
      invariant ProbeSteps(channels, cursor, probes) == k + ProbeSteps(channels, CidAfter(cursor, k), probes - k)
      decreases |channels| - k
    {
      assert TakenUpTo(channels, cursor, k + 1);
      ProbesBounded(channels, cursor, k + 1);
      CidAfterNext(cursor, k);
      k := k + 1;
    }
    CidAfterNext(cursor, k);
  }

  /**
   Allocation returns the first free CID in cyclic order, within one probe more
   than there are live channels; it never fails and keeps the cursor dynamic.
   */
  lemma AllocateFirstFree(m: Manager) returns (k: nat)
    requires ManagerOk(m)
    ensures k <= |m.channels| && FirstFreeAfter(m.channels, m.nextLocalCid, k)
    ensures Allocate(m).1 == Ok(CidAfter(m.nextLocalCid, k))
    ensures Allocate(m).0 == m.(nextLocalCid := CidAfter(m.nextLocalCid, k + 1)) && AllocateSteps(m) == k + 1
    ensures ManagerOk(Allocate(m).0)
    ensures Allocate(m).1.value !in AsMap(m.channels)
  {
    k := ProbeFindsFirstFree(m.channels, m.nextLocalCid, ALLOCATE_PROBES);
    HasIsIn(m.channels, CidAfter(m.nextLocalCid, k));
  }

  lemma CidAfterAdds(cursor: u16, i: nat, j: nat)
    requires DYNAMIC_START <= cursor
    ensures CidAfter(CidAfter(cursor, i), j) == CidAfter(cursor, i + j)
  {
    var n := cursor - DYNAMIC_START + i;
    assert n + j == DYNAMIC_COUNT * (n / DYNAMIC_COUNT) + (n % DYNAMIC_COUNT + j);
  }

  // ----- Allocations one after the other, whatever becomes of the channels in between -----

  ghost predicate MapsOk(maps: seq<Channels>) {
    forall i :: 0 <= i < |maps| ==> Distinct(maps[i]) && |maps[i]| <= MAX_L2CAP_CHANNELS
  }

  /** The CIDs handed out by one allocation against each of these channel maps in turn. */
  function HandedOut(cursor: u16, maps: seq<Channels>): seq<u16>
    decreases |maps|
  {
    if maps == [] then []
    else
      var (m, r) := Allocate(Manager(maps[0], cursor));
      (if r.Ok? then [r.value] else []) + HandedOut(m.nextLocalCid, maps[1..])
  }

  /** The cursor steps they take in all. */
  function StepsTaken(cursor: u16, maps: seq<Channels>): nat
    decreases |maps|
  {
    if maps == [] then 0
    else
      var m := Manager(maps[0], cursor);
      AllocateSteps(m) + StepsTaken(Allocate(m).0.nextLocalCid, maps[1..])
  }

  /** Each CID handed out stands where the cursor was, further and further along the ring. */
  ghost predicate Along(cursor: u16, cids: seq<u16>, offsets: seq<nat>, limit: nat)
    requires DYNAMIC_START <= cursor
  {
    && |offsets| == |cids|
    && (forall i :: 0 <= i < |cids| ==> cids[i] == CidAfter(cursor, offsets[i]) && offsets[i] < limit)
    && forall i, j :: 0 <= i < j < |cids| ==> offsets[i] < offsets[j]
  }

  lemma AlongCons(cursor: u16, first: nat, steps: nat, cids: seq<u16>, offsets: seq<nat>, limit: nat)
    returns (all: seq<nat>)
    requires DYNAMIC_START <= cursor && first < steps && Along(CidAfter(cursor, steps), cids, offsets, limit)
    ensures Along(cursor, [CidAfter(cursor, first)] + cids, all, steps + limit)
  {
    all := [first] + seq(|offsets|, i requires 0 <= i < |offsets| => steps + offsets[i]);
    forall i | 0 <= i < |cids| ensures cids[i] == CidAfter(cursor, steps + offsets[i]) {
      CidAfterAdds(cursor, steps, offsets[i]);
    }
  }

  lemma {:induction false} HandedOutAlong(cursor: u16, maps: seq<Channels>) returns (offsets: seq<nat>)
    requires DYNAMIC_START <= cursor && MapsOk(maps)
    ensures |HandedOut(cursor, maps)| == |maps|
    ensures Along(cursor, HandedOut(cursor, maps), offsets, StepsTaken(cursor, maps))
    decreases |maps|
  {
    if maps == [] {
      offsets := [];
    } else {
      var m := Manager(maps[0], cursor);
      var k := AllocateFirstFree(m);
      offsets := HandedOutAlong(Allocate(m).0.nextLocalCid, maps[1..]);
      offsets := AlongCons(cursor, k, k + 1, HandedOut(Allocate(m).0.nextLocalCid, maps[1..]), offsets,
                           StepsTaken(Allocate(m).0.nextLocalCid, maps[1..]));
    }
  }

  lemma CidsDiffer(cursor: u16, i: nat, j: nat)
    requires DYNAMIC_START <= cursor && i < j < i + DYNAMIC_COUNT
    ensures CidAfter(cursor, i) != CidAfter(cursor, j)
  {
    CidsRepeatByCycle(cursor, i, j);
  }

  lemma AlongDistinct(cursor: u16, cids: seq<u16>, offsets: seq<nat>, limit: nat)
    requires DYNAMIC_START <= cursor && Along(cursor, cids, offsets, limit) && limit <= DYNAMIC_COUNT
    ensures forall i, j :: 0 <= i < j < |cids| ==> cids[i] != cids[j]
    ensures forall i :: 0 <= i < |cids| ==> DYNAMIC_START <= cids[i]
  {
    forall i, j | 0 <= i < j < |cids| ensures cids[i] != cids[j] {
      CidsDiffer(cursor, offsets[i], offsets[j]);
    }
  }

  /**
   Over any run of allocations against arbitrary channel maps that moves the cursor
   at most once round the dynamic range, every allocation succeeds and the CIDs
   handed out are dynamic and pairwise distinct.
   */
  lemma AllocationsAreDistinct(cursor: u16, maps: seq<Channels>)
    requires DYNAMIC_START <= cursor && MapsOk(maps) && StepsTaken(cursor, maps) <= DYNAMIC_COUNT
    ensures var cids := HandedOut(cursor, maps);
            && |cids| == |maps|
            && (forall i :: 0 <= i < |cids| ==> DYNAMIC_START <= cids[i])
            && forall i, j :: 0 <= i < j < |cids| ==> cids[i] != cids[j]
  {
    var offsets := HandedOutAlong(cursor, maps);
    AlongDistinct(cursor, HandedOut(cursor, maps), offsets, StepsTaken(cursor, maps));
  }

  /** Creating a channel either fills a free CID with it or fails on a full map. */
  lemma AddChannelEffect(m: Manager, c: L2capChannel)
    requires ManagerOk(m) && c.localCid !in AsMap(m.channels)
    ensures var (m1, r) := AddChannel(m, c);
            && ManagerOk(m1) && m1.nextLocalCid == m.nextLocalCid
            && (r.Err? <==> |m.channels| == MAX_L2CAP_CHANNELS)
            && (r.Err? ==> r == Err(PayloadTooLarge) && m1 == m)
            && (r.Ok? ==> r.value == c.localCid && AsMap(m1.channels) == AsMap(m.channels)[c.localCid := c])
  {
    InsertAsMap(m.channels, c.localCid, c, MAX_L2CAP_CHANNELS);
  }

  class ChannelManager {
    var channels: Channels
    var nextLocalCid: u16

    ghost predicate Valid()
      reads this
    {
      ManagerOk(Value())
    }

    function Value(): Manager
      reads this
    {
      Manager(channels, nextLocalCid)
    }

    constructor ()
      ensures Value() == NEW_MANAGER && Valid()
    {
      channels := [];
      nextLocalCid := DYNAMIC_START;
    }

    method AllocateCid() returns (r: Result<u16, L2capError>)
      requires Valid()
      modifies this
      ensures Valid() && (Value(), r) == Allocate(old(Value()))
      ensures r.Ok? && !Has(channels, r.value) && DYNAMIC_START <= r.value
      ensures channels == old(channels)
    {
      ghost var k := AllocateFirstFree(Value());
      for i := 0 to ALLOCATE_PROBES
        invariant channels == old(channels)
        invariant Probe(channels, old(nextLocalCid), ALLOCATE_PROBES)
                  == Probe(channels, nextLocalCid, ALLOCATE_PROBES - i)
      {
        var cid := nextLocalCid;
        nextLocalCid := (nextLocalCid + 1) % 0x1_0000;
        if nextLocalCid < DYNAMIC_START {
          nextLocalCid := DYNAMIC_START;
        }
        if !Has(channels, cid) {
          return Ok(cid);
        }
      }
      return Err(PayloadTooLarge);
    }

    method CreateOutgoingChannel(psm: u16, remoteAddr: Address, connHandle: u16) returns (r: Result<u16, L2capError>)
      requires Valid()
      modifies this
      ensures Valid() && (Value(), r) == CreateOutgoing(old(Value()), psm, remoteAddr, connHandle)
    {
      r := AllocateCid();
      if r.Ok? {
        r := InsertChannel(NewOutgoing(r.value, psm, remoteAddr, connHandle));
      }
    }

    method CreateIncomingChannel(remoteCid: u16, psm: u16, remoteAddr: Address, connHandle: u16)
      returns (r: Result<u16, L2capError>)
      requires Valid()
      modifies this
      ensures Valid() && (Value(), r) == CreateIncoming(old(Value()), remoteCid, psm, remoteAddr, connHandle)
    {
      r := AllocateCid();
      if r.Ok? {
        r := InsertChannel(NewIncoming(r.value, remoteCid, psm, remoteAddr, connHandle));
      }
    }

    method InsertChannel(c: L2capChannel) returns (r: Result<u16, L2capError>)
      requires Valid()
      modifies this
      ensures Valid() && (Value(), r) == AddChannel(old(Value()), c)
      ensures r.Ok? ==> AsMap(channels) == AsMap(old(channels))[c.localCid := c]
      ensures r.Err? ==> Value() == old(Value())
    {
      InsertAsMap(channels, c.localCid, c, MAX_L2CAP_CHANNELS);
      var chs := Insert(channels, c.localCid, c, MAX_L2CAP_CHANNELS);
      if chs.None? {
        return Err(PayloadTooLarge);
      }
      channels := chs.value;
      r := Ok(c.localCid);
    }

    method RemoveChannelByCid(cid: u16)
      requires Valid()
      modifies this
      ensures Valid() && Value() == RemoveChannel(old(Value()), cid)
      ensures AsMap(channels) == AsMap(old(channels)) - {cid}
    {
      RemoveAsMap(channels, cid);
      channels := Remove(channels, cid);
    }

    /** Writes a present channel back after its fields changed. */
    method StoreChannel(cid: u16, c: L2capChannel)
      requires Valid() && Has(channels, cid)
      modifies this
      ensures Valid() && Value() == SetChannel(old(Value()), cid, c)
      ensures AsMap(channels) == AsMap(old(channels))[cid := c]
    {
      PutAsMap(channels, cid, c);
      channels := Put(channels, cid, c);
    }
  }
}
