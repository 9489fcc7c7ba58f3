/** The two connection indexes of the host over every trace of controller events, however far the command queue lags. */
module HostRuns {
  import opened Wrappers
  import opened Words
  import opened IndexMap
  import opened Processor
  import opened Acl
  import opened Host

  type HandleMap = map<Address, u16>
  type AddressMap = map<u16, Address>

  ghost function Addresses(links: Links): AddressMap {
    map h | h in AsMap(links) :: AsMap(links)[h].remoteAddr
  }

  /** Each map undoes the other. */
  ghost predicate Inverse(handles: HandleMap, addrs: AddressMap) {
    && (forall a :: a in handles ==> handles[a] in addrs && addrs[handles[a]] == a)
    && (forall h :: h in addrs ==> addrs[h] in handles && handles[addrs[h]] == h)
  }

  ghost predicate HoldsConnections(m: Connections, live: HandleMap) {
    Distinct(m) && |m| == |live| && AsMap(m) == live
  }

  ghost predicate HoldsLinks(links: Links, n: nat, addrs: AddressMap) {
    LinksOk(links) && |links| == n && Addresses(links) == addrs
  }

  /** Both indexes hold exactly the links in `live`. */
  ghost predicate IndexedBy(m: Connections, links: Links, live: HandleMap) {
    && HoldsConnections(m, live) && HoldsLinks(links, |live|, Addresses(links))
    && Inverse(live, Addresses(links))
  }

  ghost predicate Indexed(s: HostState, live: HandleMap) {
    IndexedBy(s.connections, s.acl.connections, live)
  }

  // ----- Sizes -----

  lemma MinusOne<K, V>(m: map<K, V>, k: K)
    requires k in m
    ensures |m - {k}| == |m| - 1
  {
    assert (m - {k})[k := m[k]] == m;
  }

  // ----- Index maps under the commands -----

  lemma AddressesAfterAdd(links: Links, h: u16, a: Address)
    requires LinksOk(links) && h !in Addresses(links) && |links| < MAX_ACL_CONNECTIONS
    ensures HoldsLinks(AddLink(links, h, a).1, |links| + 1, Addresses(links)[h := a])
  {
    InsertAsMap(links, h, NewAclConnection(h, a), MAX_ACL_CONNECTIONS);
    InsertGrows(links, h, NewAclConnection(h, a), MAX_ACL_CONNECTIONS);
  }

  lemma AddressesAfterRemove(links: Links, h: u16)
    requires LinksOk(links)
    ensures HoldsLinks(Remove(links, h), if h in Addresses(links) then |links| - 1 else |links|, Addresses(links) - {h})
  {
    RemoveAsMap(links, h);
    RemoveShrinks(links, h);
  }

  lemma ConnectionsAfterAdd(m: Connections, live: HandleMap, a: Address, h: u16)
    requires HoldsConnections(m, live) && a !in live && |live| < MAX_CHANNELS
    ensures HoldsConnections(InsertConnection(m, a, h), live[a := h])
  {
    InsertAsMap(m, a, h, MAX_CHANNELS);
    InsertGrows(m, a, h, MAX_CHANNELS);
  }

  /** A key is that of the last entry, or maps as without it. */
  lemma LastEntry(m: Connections, a: Address)
    requires Distinct(m) && m != []
    ensures var (less, last) := (m[..|m| - 1], m[|m| - 1]);
            if a == last.key then a in AsMap(m) && AsMap(m)[a] == last.value && a !in AsMap(less)
            else (a in AsMap(m) <==> a in AsMap(less)) && (a in AsMap(m) ==> AsMap(m)[a] == AsMap(less)[a])
  {
    var n := |m| - 1;
    assert m == m[..n] + [Entry(m[n].key, m[n].value)];
    HasIsIn(m[..n], m[n].key);
    AppendAsMap(m[..n], m[n].key, m[n].value);
  }

  /** A connection takes the place of one to the same address; a ninth address is ignored. */
  lemma InsertConnectionEffect(m: Connections, a: Address, h: u16)
    requires Distinct(m) && |m| <= MAX_CHANNELS
    ensures Distinct(InsertConnection(m, a, h)) && |InsertConnection(m, a, h)| <= 8
    ensures AsMap(InsertConnection(m, a, h)) == if a in AsMap(m) || |m| < 8 then AsMap(m)[a := h] else AsMap(m)
  {
    InsertAsMap(m, a, h, MAX_CHANNELS);
  }

  lemma {:induction false} AddressesOfHolds(m: Connections, h: u16, a: Address)
    requires Distinct(m)
    ensures a in AddressesOf(m, h) <==> a in AsMap(m) && AsMap(m)[a] == h
    decreases |m|
  {
    if m != [] {
      AddressesOfHolds(m[..|m| - 1], h, a);
      LastEntry(m, a);
    }
  }

  /** The links left when those under a handle are gone. */
  function Without(live: HandleMap, h: u16): HandleMap {
    map a | a in live && live[a] != h :: live[a]
  }

  /** Removal by handle removes every address under that handle and no other. */
  lemma RemoveByHandleAsMap(m: Connections, h: u16)
    requires Distinct(m)
    ensures Distinct(RemoveByHandle(m, h)) && AsMap(RemoveByHandle(m, h)) == Without(AsMap(m), h)
  {
    RemoveAllAsMap(m, AddressesOf(m, h));
    forall a ensures a in Elements(AddressesOf(m, h)) <==> a in AsMap(m) && AsMap(m)[a] == h {
      AddressesOfHolds(m, h, a);
    }
  }

  // ----- Events -----

  /** The links the controller has after an event. */
  function NextLive(live: HandleMap, e: HciEvent): HandleMap {
    match e
    case ConnectionComplete(true, addr, handle) => live[addr := handle]
    case DisconnectionComplete(true, handle) => Without(live, handle)
    case _ => live
  }

  /** A completed connection brings an address and a handle that are not live, and a fourth link at most. */
  ghost predicate Fresh(live: HandleMap, e: HciEvent) {
    e.ConnectionComplete? && e.ok ==>
      && |live| < MAX_ACL_CONNECTIONS && e.addr !in live
      && forall a :: a in live ==> live[a] != e.handle
  }

  ghost predicate FreshTrace(live: HandleMap, es: seq<HciEvent>)
    decreases |es|
  {
    es != [] ==> Fresh(live, es[0]) && FreshTrace(NextLive(live, es[0]), es[1..])
  }

  function ExecuteAll(reader: LengthReader, s: HostState, cs: seq<Command>): HostState
    decreases |cs|
  {
    if cs == [] then s else ExecuteAll(reader, Execute(reader, s, cs[0]), cs[1..])
  }

  lemma InverseAdd(live: HandleMap, addrs: AddressMap, a: Address, h: u16)
    requires Inverse(live, addrs) && a !in live && h !in addrs
    ensures Inverse(live[a := h], addrs[h := a])
  {
  }

  lemma InverseRemove(live: HandleMap, addrs: AddressMap, h: u16)
    requires Inverse(live, addrs)
    ensures Inverse(Without(live, h), addrs - {h})
    ensures h in addrs ==> Without(live, h) == live - {addrs[h]} && addrs[h] in live
    ensures h !in addrs ==> Without(live, h) == live
  {
  }

  lemma ConnectIndexed(m: Connections, links: Links, live: HandleMap, a: Address, h: u16)
    requires IndexedBy(m, links, live) && a !in live && |live| < MAX_ACL_CONNECTIONS
    requires forall b :: b in live ==> live[b] != h
    ensures IndexedBy(InsertConnection(m, a, h), AddLink(links, h, a).1, live[a := h])
  {
    ConnectionsAfterAdd(m, live, a, h);
    AddressesAfterAdd(links, h, a);
    InverseAdd(live, Addresses(links), a, h);
  }

  lemma DisconnectIndexed(m: Connections, links: Links, live: HandleMap, h: u16)
    requires IndexedBy(m, links, live)
    ensures IndexedBy(RemoveByHandle(m, h), Remove(links, h), Without(live, h))
  {
    var addrs := Addresses(links);
    RemoveByHandleAsMap(m, h);
    AsMapSize(RemoveByHandle(m, h));
    AddressesAfterRemove(links, h);
    InverseRemove(live, addrs, h);
    if h in addrs {
      MinusOne(live, addrs[h]);
    }
  }

  lemma FeedKeepsLink(reader: LengthReader, c: AclConnection, p: AclPacket)
    ensures var (c1, fed) := Feed(reader, c, p);
            c1.handle == c.handle && c1.remoteAddr == c.remoteAddr && fed != Err(UnknownHandle)
  {
  }

  lemma RouteKnowsLink(proc: Proc, c: AclConnection, handle: u16, data: seq<u8>)
    ensures Route(proc, c, handle, data).1 != Err(UnknownHandle)
  {
  }

  lemma AddressesAfterPut(links: Links, h: u16, c: AclConnection)
    requires LinksOk(links) && h in AsMap(links)
    requires c.handle == h && c.remoteAddr == AsMap(links)[h].remoteAddr
    ensures Has(links, h) && HoldsLinks(Put(links, h, c), |links|, Addresses(links))
  {
    HasIsIn(links, h);
    PutAsMap(links, h, c);
  }

  /**
   An ACL packet changes no handle and no address; it is refused as unknown exactly
   when its handle is not indexed.
   */
  lemma PacketKeepsAddresses(reader: LengthReader, s: AclState, p: AclPacket)
    requires LinksOk(s.connections)
    ensures var (after, r) := ProcessPacket(reader, s, p);
            && HoldsLinks(after.connections, |s.connections|, Addresses(s.connections))
            && (r == Err(UnknownHandle) <==> p.header.handle as u16 !in Addresses(s.connections))
  {
    var h: u16 := p.header.handle;
    HasIsIn(s.connections, h);
    if Has(s.connections, h) {
      var (c, fed) := Feed(reader, Get(s.connections, h), p);
      FeedKeepsLink(reader, Get(s.connections, h), p);
      AddressesAfterPut(s.connections, h, c);
      if fed.Ok? && fed.value.Some? {
        RouteKnowsLink(s.proc, c, h, fed.value.value);
      }
    }
  }

  predicate Live(live: HandleMap, h: u16) {
    exists a :: a in live && live[a] == h
  }

  /** What the log gains from an event: whether its packet finds its link, if it carries one that is passed on. */
  function Known(live: HandleMap, e: HciEvent): seq<bool> {
    if e.AclReceived? && |e.data| <= MAX_ACL_DATA_SIZE then [Live(live, e.handle)] else []
  }

  function KnownAll(live: HandleMap, es: seq<HciEvent>): seq<bool>
    decreases |es|
  {
    if es == [] then [] else Known(live, es[0]) + KnownAll(NextLive(live, es[0]), es[1..])
  }

  /** The log agrees with the expectation: a packet is refused as unknown exactly when its link was not live. */
  ghost predicate Agrees(log: seq<Result<(), AclError>>, known: seq<bool>) {
    |log| == |known| && forall i :: 0 <= i < |log| ==> (log[i] == Err(UnknownHandle) <==> !known[i])
  }

  lemma PacketCarries(e: HciEvent)
    requires e.AclReceived? && |e.data| <= MAX_ACL_DATA_SIZE
    ensures BoundaryBits(e.boundary) <= 3 && BroadcastBits(e.broadcast) <= 3
    ensures var p := PacketOf(e.handle, BoundaryBits(e.boundary), BroadcastBits(e.broadcast), e.data);
            p == AclPacket(AclHeader(e.handle, e.boundary, e.broadcast, |e.data|), e.data)
  {
  }

  /** A packet is refused as unknown exactly when its link is not live. */
  lemma KnownExactly(links: Links, live: HandleMap, h: u16)
    requires Inverse(live, Addresses(links))
    ensures h in Addresses(links) <==> Live(live, h)
  {
    if h in Addresses(links) {
      assert live[Addresses(links)[h]] == h;
    }
  }

  // ----- What one event does -----

  lemma {:induction false} ExecuteAppended(reader: LengthReader, s: HostState, a: seq<Command>, b: seq<Command>)
    ensures ExecuteAll(reader, s, a + b) == ExecuteAll(reader, ExecuteAll(reader, s, a), b)
    decreases |a|
  {
    if a == [] {
      assert a + b == b;
    } else {
      assert (a + b)[1..] == a[1..] + b;
      ExecuteAppended(reader, Execute(reader, s, a[0]), a[1..], b);
    }
  }

  lemma ExecuteOne(reader: LengthReader, s: HostState, c: Command)
    ensures ExecuteAll(reader, s, [c]) == Execute(reader, s, c)
  {
    assert [c][1..] == [];
    assert ExecuteAll(reader, Execute(reader, s, c), []) == Execute(reader, s, c);
  }

  lemma ExecuteTwo(reader: LengthReader, s: HostState, c: Command, d: Command)
    ensures ExecuteAll(reader, s, [c, d]) == Execute(reader, Execute(reader, s, c), d)
  {
    assert [c, d] == [c] + [d];
    ExecuteAppended(reader, s, [c], [d]);
    ExecuteOne(reader, s, c);
    ExecuteOne(reader, Execute(reader, s, c), d);
  }

  /** The two hosts agree on the indexes and the log. */
  ghost predicate SameIndexes(s: HostState, t: HostState) {
    s.connections == t.connections && s.acl == t.acl && s.log == t.log
  }

  /** Commands that touch neither index nor the log. */
  ghost predicate Neutral(cs: seq<Command>) {
    forall i :: 0 <= i < |cs| ==>
                  && !cs[i].AddConnection? && !cs[i].RemoveConnection? && !cs[i].AddAclConnection?
                  && !cs[i].RemoveAclConnection? && !cs[i].ProcessAclData?
  }

  lemma {:induction false} NeutralEffect(reader: LengthReader, s: HostState, cs: seq<Command>)
    requires Neutral(cs)
    ensures SameIndexes(ExecuteAll(reader, s, cs), s)
    decreases |cs|
  {
    if cs != [] {
      NeutralEffect(reader, Execute(reader, s, cs[0]), cs[1..]);
    }
  }

  /** Two commands that matter, and neutral ones. */
  lemma TwoThenNeutral(reader: LengthReader, s: HostState, c: Command, d: Command, rest: seq<Command>)
    requires Neutral(rest)
    ensures SameIndexes(ExecuteAll(reader, s, [c, d] + rest), Execute(reader, Execute(reader, s, c), d))
  {
    ExecuteAppended(reader, s, [c, d], rest);
    ExecuteTwo(reader, s, c, d);
    NeutralEffect(reader, ExecuteAll(reader, s, [c, d]), rest);
  }

  function LinkedUp(s: HostState, a: Address, h: u16): HostState {
    s.(connections := InsertConnection(s.connections, a, h),
       acl := s.acl.(connections := AddLink(s.acl.connections, h, a).1))
  }

  function LinkedDown(s: HostState, h: u16): HostState {
    s.(connections := RemoveByHandle(s.connections, h), acl := s.acl.(connections := Remove(s.acl.connections, h)))
  }

  lemma LinkUpCommands(e: HciEvent) returns (rest: seq<Command>)
    requires e.ConnectionComplete? && e.ok
    ensures Neutral(rest)
    ensures CommandsOf(e) == [AddConnection(e.addr, e.handle), AddAclConnection(e.addr, e.handle)] + rest
  {
    rest := [SetState(Connected), AuthenticationRequested(e.handle)];
  }

  lemma LinkDownCommands(e: HciEvent) returns (rest: seq<Command>)
    requires e.DisconnectionComplete? && e.ok
    ensures Neutral(rest)
    ensures CommandsOf(e) == [RemoveConnection(e.handle), RemoveAclConnection(e.handle)] + rest
  {
    rest := [SetState(PoweredOn)];
  }

  lemma ConnectEffect(reader: LengthReader, s: HostState, e: HciEvent)
    requires e.ConnectionComplete? && e.ok
    ensures SameIndexes(ExecuteAll(reader, s, CommandsOf(e)), LinkedUp(s, e.addr, e.handle))
  {
    var rest := LinkUpCommands(e);
    TwoThenNeutral(reader, s, AddConnection(e.addr, e.handle), AddAclConnection(e.addr, e.handle), rest);
  }

  lemma DisconnectEffect(reader: LengthReader, s: HostState, e: HciEvent)
    requires e.DisconnectionComplete? && e.ok
    ensures SameIndexes(ExecuteAll(reader, s, CommandsOf(e)), LinkedDown(s, e.handle))
  {
    var rest := LinkDownCommands(e);
    TwoThenNeutral(reader, s, RemoveConnection(e.handle), RemoveAclConnection(e.handle), rest);
  }

  /** Events other than links coming and going, and data, leave the indexes and the log alone. */
  ghost predicate Unrelated(e: HciEvent) {
    && (e.ConnectionComplete? ==> !e.ok) && (e.DisconnectionComplete? ==> !e.ok)
    && (e.AclReceived? ==> |e.data| > MAX_ACL_DATA_SIZE)
  }

  lemma UnrelatedCommands(e: HciEvent)
    requires Unrelated(e)
    ensures Neutral(CommandsOf(e))
  {
  }

  /** The packet an event carries. */
  function Carried(e: HciEvent): AclPacket
    requires e.AclReceived? && |e.data| <= MAX_ACL_DATA_SIZE
  {
    AclPacket(AclHeader(e.handle, e.boundary, e.broadcast, |e.data|), e.data)
  }

  lemma DataCommands(reader: LengthReader, s: HostState, e: HciEvent)
    requires e.AclReceived? && |e.data| <= MAX_ACL_DATA_SIZE
    ensures var (acl, r) := ProcessPacket(reader, s.acl, Carried(e));
            ExecuteAll(reader, s, CommandsOf(e)) == s.(acl := acl, log := s.log + [r])
  {
    PacketCarries(e);
    ExecuteOne(reader, s, CommandsOf(e)[0]);
  }

  lemma DataEffect(reader: LengthReader, s: HostState, live: HandleMap, e: HciEvent)
    requires Indexed(s, live) && e.AclReceived? && |e.data| <= MAX_ACL_DATA_SIZE
    ensures var (acl, r) := ProcessPacket(reader, s.acl, Carried(e));
            && IndexedBy(s.connections, acl.connections, live)
            && (r == Err(UnknownHandle) <==> !Live(live, e.handle))
  {
    PacketKeepsAddresses(reader, s.acl, Carried(e));
    KnownExactly(s.acl.connections, live, e.handle);
  }

  lemma AgreesMore(log: seq<Result<(), AclError>>, r: Result<(), AclError>, known: seq<bool>, k: bool)
    requires Agrees(log, known) && (r == Err(UnknownHandle) <==> !k)
    ensures Agrees(log + [r], known + [k])
  {
  }

  /** The event e, executed on s with its links, leaves both indexes and the log as they should be. */
  ghost predicate Follows(after: HostState, live: HandleMap, e: HciEvent, known: seq<bool>) {
    Indexed(after, NextLive(live, e)) && Agrees(after.log, known + Known(live, e))
  }

  lemma FollowsSilently(s: HostState, after: HostState, live: HandleMap, e: HciEvent, known: seq<bool>)
    requires SameIndexes(after, s) && Indexed(s, NextLive(live, e)) && Agrees(s.log, known) && Known(live, e) == []
    ensures Follows(after, live, e, known)
  {
    assert known + [] == known;
  }

  lemma UnrelatedIndexed(reader: LengthReader, s: HostState, live: HandleMap, e: HciEvent, known: seq<bool>)
    requires Indexed(s, live) && Unrelated(e) && Agrees(s.log, known)
    ensures Follows(ExecuteAll(reader, s, CommandsOf(e)), live, e, known)
  {
    UnrelatedCommands(e);
    NeutralEffect(reader, s, CommandsOf(e));
    FollowsSilently(s, ExecuteAll(reader, s, CommandsOf(e)), live, e, known);
  }

  lemma LinkedUpIndexed(s: HostState, live: HandleMap, a: Address, h: u16)
    requires Indexed(s, live) && a !in live && |live| < MAX_ACL_CONNECTIONS
    requires forall b :: b in live ==> live[b] != h
    ensures Indexed(LinkedUp(s, a, h), live[a := h]) && LinkedUp(s, a, h).log == s.log
  {
    ConnectIndexed(s.connections, s.acl.connections, live, a, h);
  }

  lemma UpSilent(live: HandleMap, e: HciEvent)
    requires e.ConnectionComplete? && e.ok
    ensures NextLive(live, e) == live[e.addr := e.handle] && Known(live, e) == []
  {
  }

  lemma UpFollows(s: HostState, after: HostState, live: HandleMap, e: HciEvent, known: seq<bool>)
    requires Indexed(s, live) && e.ConnectionComplete? && e.ok && Fresh(live, e) && Agrees(s.log, known)
    requires SameIndexes(after, LinkedUp(s, e.addr, e.handle))
    ensures Follows(after, live, e, known)
  {
    LinkedUpIndexed(s, live, e.addr, e.handle);
    UpSilent(live, e);
    FollowsSilently(LinkedUp(s, e.addr, e.handle), after, live, e, known);
  }

  lemma LinkUpIndexed(reader: LengthReader, s: HostState, live: HandleMap, e: HciEvent, known: seq<bool>)
    requires Indexed(s, live) && e.ConnectionComplete? && e.ok && Fresh(live, e) && Agrees(s.log, known)
    ensures Follows(ExecuteAll(reader, s, CommandsOf(e)), live, e, known)
  {
    ConnectEffect(reader, s, e);
    UpFollows(s, ExecuteAll(reader, s, CommandsOf(e)), live, e, known);
  }

  lemma LinkedDownIndexed(s: HostState, live: HandleMap, h: u16)
    requires Indexed(s, live)
    ensures Indexed(LinkedDown(s, h), Without(live, h)) && LinkedDown(s, h).log == s.log
  {
    DisconnectIndexed(s.connections, s.acl.connections, live, h);
  }

  lemma DownSilent(live: HandleMap, e: HciEvent)
    requires e.DisconnectionComplete? && e.ok
    ensures NextLive(live, e) == Without(live, e.handle) && Known(live, e) == []
  {
  }

  lemma DownFollows(s: HostState, after: HostState, live: HandleMap, e: HciEvent, known: seq<bool>)
    requires Indexed(s, live) && e.DisconnectionComplete? && e.ok && Agrees(s.log, known)
    requires SameIndexes(after, LinkedDown(s, e.handle))
    ensures Follows(after, live, e, known)
  {
    LinkedDownIndexed(s, live, e.handle);
    DownSilent(live, e);
    FollowsSilently(LinkedDown(s, e.handle), after, live, e, known);
  }

  lemma LinkDownIndexed(reader: LengthReader, s: HostState, live: HandleMap, e: HciEvent, known: seq<bool>)
    requires Indexed(s, live) && e.DisconnectionComplete? && e.ok && Agrees(s.log, known)
    ensures Follows(ExecuteAll(reader, s, CommandsOf(e)), live, e, known)
  {
    DisconnectEffect(reader, s, e);
    DownFollows(s, ExecuteAll(reader, s, CommandsOf(e)), live, e, known);
  }

  lemma DataNext(live: HandleMap, e: HciEvent)
    requires e.AclReceived? && |e.data| <= MAX_ACL_DATA_SIZE
    ensures NextLive(live, e) == live && Known(live, e) == [Live(live, e.handle)]
  {
  }

  lemma DataFollows(s: HostState, acl: AclState, r: Result<(), AclError>, live: HandleMap, e: HciEvent,
                    known: seq<bool>)
    requires e.AclReceived? && |e.data| <= MAX_ACL_DATA_SIZE && Agrees(s.log, known)
    requires IndexedBy(s.connections, acl.connections, live) && (r == Err(UnknownHandle) <==> !Live(live, e.handle))
    ensures Follows(s.(acl := acl, log := s.log + [r]), live, e, known)
  {
    DataNext(live, e);
    AgreesMore(s.log, r, known, Live(live, e.handle));
  }

  lemma DataIndexed(reader: LengthReader, s: HostState, live: HandleMap, e: HciEvent, known: seq<bool>)
    requires Indexed(s, live) && e.AclReceived? && |e.data| <= MAX_ACL_DATA_SIZE && Agrees(s.log, known)
    ensures Follows(ExecuteAll(reader, s, CommandsOf(e)), live, e, known)
  {
    var (acl, r) := ProcessPacket(reader, s.acl, Carried(e));
    DataCommands(reader, s, e);
    DataEffect(reader, s, live, e);
    DataFollows(s, acl, r, live, e, known);
  }

  /** Executing all the commands of a fresh event brings both indexes to the controller's links. */
  lemma EventIndexed(reader: LengthReader, s: HostState, live: HandleMap, e: HciEvent, known: seq<bool>)
    requires Indexed(s, live) && Fresh(live, e) && Agrees(s.log, known)
    ensures var after := ExecuteAll(reader, s, CommandsOf(e));
            Indexed(after, NextLive(live, e)) && Agrees(after.log, known + Known(live, e))
  {
    if Unrelated(e) {
      UnrelatedIndexed(reader, s, live, e, known);
    } else if e.ConnectionComplete? {
      LinkUpIndexed(reader, s, live, e, known);
    } else if e.DisconnectionComplete? {
      LinkDownIndexed(reader, s, live, e, known);
    } else {
      DataIndexed(reader, s, live, e, known);
    }
  }

  // ----- What else an event asks for -----

  /** The mode and the discovery flag once the commands of an event are executed. */
  lemma ModeAfterEvent(reader: LengthReader, s: HostState, e: HciEvent)
    ensures var after := ExecuteAll(reader, s, CommandsOf(e));
            && after.mode == (match e
                              case ConnectionComplete(ok, _, _) => if ok then Connected else PoweredOn
                              case DisconnectionComplete(ok, _) => if ok then PoweredOn else s.mode
                              case InquiryComplete(ok) => if ok then PoweredOn else s.mode
                              case AuthenticationComplete(_) => PoweredOn
                              case _ => s.mode)
            && after.discovering == (s.discovering && !e.InquiryComplete?)
  {
    if e.ConnectionComplete? && e.ok {
      LinkUpMode(reader, s, e);
    } else if e.DisconnectionComplete? && e.ok {
      LinkDownMode(reader, s, e);
    } else if e.InquiryComplete? && e.ok {
      ExecuteTwo(reader, s, SetDiscovering(false), SetState(PoweredOn));
    } else if e.InquiryComplete? || e.AuthenticationComplete? || e.ConnectionComplete? {
      ExecuteOne(reader, s, CommandsOf(e)[0]);
    } else {
      ModeKept(reader, s, CommandsOf(e));
    }
  }

  lemma LinkUpMode(reader: LengthReader, s: HostState, e: HciEvent)
    requires e.ConnectionComplete? && e.ok
    ensures var after := ExecuteAll(reader, s, CommandsOf(e));
            after.mode == Connected && after.discovering == s.discovering
  {
    var first := [AddConnection(e.addr, e.handle), AddAclConnection(e.addr, e.handle)];
    var rest := [SetState(Connected), AuthenticationRequested(e.handle)];
    assert CommandsOf(e) == first + rest;
    ExecuteAppended(reader, s, first, rest);
    ModeKept(reader, s, first);
    ExecuteTwo(reader, ExecuteAll(reader, s, first), rest[0], rest[1]);
  }

  lemma LinkDownMode(reader: LengthReader, s: HostState, e: HciEvent)
    requires e.DisconnectionComplete? && e.ok
    ensures var after := ExecuteAll(reader, s, CommandsOf(e));
            after.mode == PoweredOn && after.discovering == s.discovering
  {
    var first := [RemoveConnection(e.handle), RemoveAclConnection(e.handle)];
    assert CommandsOf(e) == first + [SetState(PoweredOn)];
    ExecuteAppended(reader, s, first, [SetState(PoweredOn)]);
    ModeKept(reader, s, first);
    ExecuteOne(reader, ExecuteAll(reader, s, first), SetState(PoweredOn));
  }

  lemma {:induction false} ModeKept(reader: LengthReader, s: HostState, cs: seq<Command>)
    requires forall i :: 0 <= i < |cs| ==> !cs[i].SetState? && !cs[i].SetDiscovering?
    ensures ExecuteAll(reader, s, cs).mode == s.mode && ExecuteAll(reader, s, cs).discovering == s.discovering
    decreases |cs|
  {
    if cs != [] {
      ModeKept(reader, Execute(reader, s, cs[0]), cs[1..]);
    }
  }

  /** The commands that go on to the controller. */
  predicate ForController(c: Command) {
    c.AuthenticationRequested? || c.PinCodeRequestReply? || c.LinkKeyRequestNegativeReply?
    || c.IoCapabilityRequestReply? || c.UserConfirmationRequestReply?
  }

  function ToController(cs: seq<Command>): seq<Command> {
    if cs == [] then [] else (if ForController(cs[0]) then [cs[0]] else []) + ToController(cs[1..])
  }

  lemma {:induction false} NothingToController(cs: seq<Command>)
    requires forall i :: 0 <= i < |cs| ==> !ForController(cs[i])
    ensures ToController(cs) == []
  {
    if cs != [] {
      NothingToController(cs[1..]);
    }
  }

  lemma {:induction false} LastToController(cs: seq<Command>, c: Command)
    requires forall i :: 0 <= i < |cs| ==> !ForController(cs[i])
    ensures ToController(cs + [c]) == if ForController(c) then [c] else []
  {
    var all := cs + [c];
    if cs == [] {
      assert all[1..] == [];
    } else {
      assert all[1..] == cs[1..] + [c];
      LastToController(cs[1..], c);
    }
  }

  /**
   Every new link is authenticated once; a PIN request is answered with 0000, a link
   key request in the negative, and pairing requests with consent; nothing else is
   sent to the controller.
   */
  lemma ControllerHears(e: HciEvent)
    ensures ToController(CommandsOf(e))
            == match e
               case ConnectionComplete(ok, _, handle) => if ok then [AuthenticationRequested(handle)] else []
               case PinCodeRequest(addr) =>
                 [PinCodeRequestReply(addr, [48, 48, 48, 48, 0, 0, 0, 0, 0, 0, 0, 0, 0, 0, 0, 0])]
               case LinkKeyRequest(addr) => [LinkKeyRequestNegativeReply(addr)]
               case IoCapabilityRequest(addr) => [IoCapabilityRequestReply(addr)]
               case UserConfirmationRequest(addr) => [UserConfirmationRequestReply(addr)]
               case _ => []
  {
    var cs := CommandsOf(e);
    if cs == [] || !ForController(cs[|cs| - 1]) {
      NothingToController(cs);
    } else {
      var n := |cs| - 1;
      assert cs == cs[..n] + [cs[n]];
      LastToController(cs[..n], cs[n]);
      PinPadded();
    }
  }

  lemma PinPadded()
    ensures Padded(DEFAULT_PIN, PIN_LENGTH) == [48, 48, 48, 48, 0, 0, 0, 0, 0, 0, 0, 0, 0, 0, 0, 0]
  {
  }

  /** At most the first eight reported devices are taken, each with its address, strength and class, and no name. */
  lemma DevicesTaken(found: seq<InquiryItem>, i: nat)
    ensures var cs := CommandsOf(InquiryResult(found));
            && |cs| == (if |found| < 8 then |found| else 8)
            && (i < |cs| ==>
                  && cs[i].UpsertDevice?
                  && var (item, d) := (found[i], cs[i].device);
                  && d.addr == item.addr && d.rssi == item.rssi && d.name == None
                  && d.classOfDevice == match item.classOfDevice
                                        case None => None
                                        case Some(b) => ClassNumber(b))
  {
    if i < |found| && found[i].classOfDevice.Some? {
      ClassParsed(found[i].classOfDevice.value);
    }
  }

  /** A class of device of three zero bytes means none; otherwise the first byte weighs least. */
  function ClassNumber(b: ClassBytes): Option<int> {
    if b[0] == 0 && b[1] == 0 && b[2] == 0 then None
    else Some(b[0] as int + 0x100 * b[1] as int + 0x1_0000 * b[2] as int)
  }

  lemma ClassParsed(b: ClassBytes)
    ensures ParseClass(b) == ClassNumber(b)
  {
    assert b == [b[0], b[1], b[2]];
  }

  /** A reported name is cut or padded with zeros to 32 bytes; a key is stored as it is. */
  lemma NamesAndKeys(e: HciEvent)
    ensures e.RemoteNameRequestComplete? && e.ok ==>
              && |CommandsOf(e)| == 1 && CommandsOf(e)[0].UpdateDeviceName? && CommandsOf(e)[0].addr == e.addr
              && var name := CommandsOf(e)[0].name;
              && |name| == 32
              && forall i :: 0 <= i < 32 ==> name[i] == if i < |e.name| then e.name[i] else 0
    ensures e.LinkKeyNotification? ==> CommandsOf(e) == [StoreLinkKey(e.addr, e.key)]
    ensures e.ExtendedInquiryResult? ==>
              CommandsOf(e) == [UpsertDevice(Device(e.addr, None, None, ClassNumber(e.classOfDevice)))]
    ensures (e.RemoteNameRequestComplete? && !e.ok) || e.OtherEvent? ==> CommandsOf(e) == []
  {
    if e.ExtendedInquiryResult? {
      ClassParsed(e.classOfDevice);
    }
  }

  /** A packet whose flags have no meaning is dropped without a trace. */
  lemma MeaninglessFlagsDropped(reader: LengthReader, s: HostState, c: Command)
    requires c.ProcessAclData? && (c.boundary > 3 || c.broadcast > 3)
    ensures Execute(reader, s, c) == s
  {
  }

  // ----- Traces, under any lag -----

  function QueueOf(es: seq<HciEvent>): seq<Command>
    decreases |es|
  {
    if es == [] then [] else CommandsOf(es[0]) + QueueOf(es[1..])
  }

  function LiveAfter(live: HandleMap, es: seq<HciEvent>): HandleMap
    decreases |es|
  {
    if es == [] then live else LiveAfter(NextLive(live, es[0]), es[1..])
  }

  lemma QueueUnfolds(reader: LengthReader, s: HostState, es: seq<HciEvent>)
    requires es != []
    ensures ExecuteAll(reader, s, QueueOf(es))
            == ExecuteAll(reader, ExecuteAll(reader, s, CommandsOf(es[0])), QueueOf(es[1..]))
  {
    ExecuteAppended(reader, s, CommandsOf(es[0]), QueueOf(es[1..]));
  }

  lemma KnownUnfolds(live: HandleMap, es: seq<HciEvent>, known: seq<bool>)
    requires es != []
    ensures known + KnownAll(live, es) == known + Known(live, es[0]) + KnownAll(NextLive(live, es[0]), es[1..])
  {
  }

  lemma {:induction false} TraceIndexed(reader: LengthReader, s: HostState, live: HandleMap, es: seq<HciEvent>,
                                        known: seq<bool>)
    requires Indexed(s, live) && FreshTrace(live, es) && Agrees(s.log, known)
    ensures var after := ExecuteAll(reader, s, QueueOf(es));
            Indexed(after, LiveAfter(live, es)) && Agrees(after.log, known + KnownAll(live, es))
    decreases |es|
  {
    if es == [] {
      assert known + [] == known;
    } else {
      QueueUnfolds(reader, s, es);
      KnownUnfolds(live, es, known);
      EventIndexed(reader, s, live, es[0], known);
      var next := ExecuteAll(reader, s, CommandsOf(es[0]));
      TraceIndexed(reader, next, NextLive(live, es[0]), es[1..], known + Known(live, es[0]));
    }
  }

  datatype System = System(host: HostState, queue: seq<Command>)

  /** The event task queues the commands of an event; the command task takes the oldest one, if there is any. */
  datatype Step = Receive(event: HciEvent) | TakeOne

  function StepSystem(reader: LengthReader, sys: System, step: Step): System {
    match step
    case Receive(e) => System(sys.host, sys.queue + CommandsOf(e))
    case TakeOne => if sys.queue == [] then sys else System(Execute(reader, sys.host, sys.queue[0]), sys.queue[1..])
  }

  function RunSystem(reader: LengthReader, sys: System, steps: seq<Step>): System
    decreases |steps|
  {
    if steps == [] then sys else RunSystem(reader, StepSystem(reader, sys, steps[0]), steps[1..])
  }

  function Received(steps: seq<Step>): seq<HciEvent>
    decreases |steps|
  {
    if steps == [] then []
    else (if steps[0].Receive? then [steps[0].event] else []) + Received(steps[1..])
  }

  function Incoming(step: Step): seq<Command> {
    if step.Receive? then CommandsOf(step.event) else []
  }

  lemma ReceivedCommands(steps: seq<Step>)
    requires steps != []
    ensures QueueOf(Received(steps)) == Incoming(steps[0]) + QueueOf(Received(steps[1..]))
  {
    var rest := Received(steps[1..]);
    if steps[0].Receive? {
      assert Received(steps) == [steps[0].event] + rest;
      assert Received(steps)[1..] == rest;
    } else {
      assert Received(steps) == rest;
      assert [] + QueueOf(rest) == QueueOf(rest);
    }
  }

  lemma QueueRegroups(queue: seq<Command>, more: seq<Command>, rest: seq<Command>)
    ensures queue + more + rest == queue + (more + rest)
  {
  }

  lemma TakeKeepsOutcome(reader: LengthReader, s: HostState, queue: seq<Command>, rest: seq<Command>)
    requires queue != []
    ensures ExecuteAll(reader, Execute(reader, s, queue[0]), queue[1..] + rest) == ExecuteAll(reader, s, queue + rest)
  {
    assert (queue + rest)[1..] == queue[1..] + rest;
  }

  lemma StepKeepsOutcome(reader: LengthReader, sys: System, step: Step, rest: seq<Command>)
    ensures var next := StepSystem(reader, sys, step);
            ExecuteAll(reader, next.host, next.queue + rest)
            == ExecuteAll(reader, sys.host, sys.queue + (Incoming(step) + rest))
  {
    match step {
      case Receive(e) => QueueRegroups(sys.queue, CommandsOf(e), rest);
      case TakeOne =>
        assert [] + rest == rest;
        if sys.queue != [] {
          TakeKeepsOutcome(reader, sys.host, sys.queue, rest);
        }
    }
  }

  /** However far the queue lags, draining it ends where executing every command at once would. */
  lemma {:induction false} LagDoesNotMatter(reader: LengthReader, sys: System, steps: seq<Step>)
    ensures var end := RunSystem(reader, sys, steps);
            ExecuteAll(reader, end.host, end.queue)
              == ExecuteAll(reader, sys.host, sys.queue + QueueOf(Received(steps)))
    decreases |steps|
  {
    if steps == [] {
      assert sys.queue + [] == sys.queue;
    } else {
      LagDoesNotMatter(reader, StepSystem(reader, sys, steps[0]), steps[1..]);
      StepKeepsOutcome(reader, sys, steps[0], QueueOf(Received(steps[1..])));
      ReceivedCommands(steps);
    }
  }

  lemma {:induction false} LogGrows(reader: LengthReader, s: HostState, cs: seq<Command>)
    ensures s.log <= ExecuteAll(reader, s, cs).log
    decreases |cs|
  {
    if cs != [] {
      LogGrows(reader, Execute(reader, s, cs[0]), cs[1..]);
    }
  }

  const NEW_HOST := HostState([], AclState([], NEW_PROC), PoweredOff, false, [])

  lemma NewHostIndexed()
    ensures Indexed(NEW_HOST, map[])
  {
  }

  /**
   For every trace of events with fresh addresses and handles and at most four
   links, and every interleaving of the two tasks: draining the queue leaves the
   two indexes inverse to each other and equal to the controller's links, and an
   ACL packet is refused for an unknown handle exactly when its link was not live
   when it arrived.
   */
  lemma IndexesStayInverse(reader: LengthReader, steps: seq<Step>)
    requires FreshTrace(map[], Received(steps))
    ensures var es := Received(steps);
            var end := RunSystem(reader, System(NEW_HOST, []), steps);
            var drained := ExecuteAll(reader, end.host, end.queue);
            && AsMap(drained.connections) == LiveAfter(map[], es)
            && Inverse(AsMap(drained.connections), Addresses(drained.acl.connections))
            && end.host.log <= drained.log
            && Agrees(drained.log, KnownAll(map[], es))
  {
    var es := Received(steps);
    var end := RunSystem(reader, System(NEW_HOST, []), steps);
    NewHostIndexed();
    LagDoesNotMatter(reader, System(NEW_HOST, []), steps);
    assert [] + QueueOf(es) == QueueOf(es);
    TraceIndexed(reader, NEW_HOST, map[], es, []);
    assert [] + KnownAll(map[], es) == KnownAll(map[], es);
    LogGrows(reader, end.host, end.queue);
  }

  /** Data arrives only while its link is up. */
  ghost predicate DataOnLiveLinks(live: HandleMap, es: seq<HciEvent>)
    decreases |es|
  {
    es != [] ==> (forall k :: k in Known(live, es[0]) ==> k) && DataOnLiveLinks(NextLive(live, es[0]), es[1..])
  }

  lemma {:induction false} DataIsKnown(live: HandleMap, es: seq<HciEvent>)
    requires DataOnLiveLinks(live, es)
    ensures forall k :: k in KnownAll(live, es) ==> k
    decreases |es|
  {
    if es != [] {
      DataIsKnown(NextLive(live, es[0]), es[1..]);
    }
  }

  /** Then no packet ever meets an unknown handle, at any lag. */
  lemma DataFindsItsLink(reader: LengthReader, steps: seq<Step>)
    requires FreshTrace(map[], Received(steps)) && DataOnLiveLinks(map[], Received(steps))
    ensures Err(UnknownHandle) !in RunSystem(reader, System(NEW_HOST, []), steps).host.log
  {
    IndexesStayInverse(reader, steps);
    DataIsKnown(map[], Received(steps));
    var end := RunSystem(reader, System(NEW_HOST, []), steps);
    var drained := ExecuteAll(reader, end.host, end.queue);
    forall i | 0 <= i < |end.host.log| ensures end.host.log[i] != Err(UnknownHandle) {
      assert end.host.log[i] == drained.log[i];
      var k := KnownAll(map[], Received(steps))[i];
      assert k in KnownAll(map[], Received(steps));
    }
  }
}
