/** What every run of additions and removals keeps true of the SDP database. */
module SdpRuns {
  import opened Wrappers
  import opened Words
  import opened IndexMap
  import opened SdpRecord
  import opened SdpServer

  /** A stored record carries the key it is stored under, as its handle and in its handle attribute. */
  ghost predicate Registered(key: u32, r: ServiceRecord) {
    && RecordOk(r) && r.handle == key
    && GetAttribute(r, SERVICE_RECORD_HANDLE) == Some(UnsignedInt32(key))
  }

  ghost predicate Consistent(db: Database) {
    && Distinct(db.records) && |db.records| <= MAX_SERVICE_RECORDS
    && forall k :: k in AsMap(db.records) ==> Registered(k, AsMap(db.records)[k])
  }

  ghost function Missing(r: ServiceRecord, id: u16): nat {
    if id in AsMap(r.attributes) then 0 else 1
  }

  lemma AddAttributeGrows(r: ServiceRecord, id: u16, value: DataElement)
    requires RecordOk(r)
    ensures var a := AddAttribute(r, id, value);
            && (a.Ok? <==> |r.attributes| + Missing(r, id) <= MAX_ATTRIBUTES_PER_RECORD)
            && (a.Ok? ==> |a.value.attributes| == |r.attributes| + Missing(r, id))
  {
    HasIsIn(r.attributes, id);
  }

  /** The attributes with the two identifying ones set. */
  function Identified(m: map<u16, DataElement>, handle: u32, state: u32): map<u16, DataElement> {
    m[SERVICE_RECORD_HANDLE := UnsignedInt32(handle)][SERVICE_RECORD_STATE := UnsignedInt32(state)]
  }

  lemma FirstStamp(record: ServiceRecord, handle: u32)
    requires RecordOk(record)
    ensures var first := StampHandle(record, handle);
            && (first.Ok?
                <==> |record.attributes| + Missing(record, SERVICE_RECORD_HANDLE) <= MAX_ATTRIBUTES_PER_RECORD)
            && (first.Ok? ==>
                  && RecordOk(first.value) && first.value.handle == handle
                  && AsMap(first.value.attributes)
                     == AsMap(record.attributes)[SERVICE_RECORD_HANDLE := UnsignedInt32(handle)]
                  && first.value.state == Bumped(record.state)
                  && |first.value.attributes| == |record.attributes| + Missing(record, SERVICE_RECORD_HANDLE)
                  && Missing(first.value, SERVICE_RECORD_STATE) == Missing(record, SERVICE_RECORD_STATE))
  {
    var r0 := record.(handle := handle);
    AddAttributeEffect(r0, SERVICE_RECORD_HANDLE, UnsignedInt32(handle));
    AddAttributeGrows(r0, SERVICE_RECORD_HANDLE, UnsignedInt32(handle));
  }

  lemma SecondStamp(first: ServiceRecord)
    requires RecordOk(first) && SERVICE_RECORD_HANDLE in AsMap(first.attributes)
    requires AsMap(first.attributes)[SERVICE_RECORD_HANDLE] == UnsignedInt32(first.handle)
    ensures var second := StampState(first);
            && (second.Ok? <==> |first.attributes| + Missing(first, SERVICE_RECORD_STATE) <= MAX_ATTRIBUTES_PER_RECORD)
            && (second.Ok? ==>
                  && Registered(first.handle, second.value)
                  && AsMap(second.value.attributes)
                     == AsMap(first.attributes)[SERVICE_RECORD_STATE := UnsignedInt32(first.state)]
                  && second.value.state == Bumped(first.state))
  {
    var state := UnsignedInt32(first.state);
    AddAttributeEffect(first, SERVICE_RECORD_STATE, state);
    AddAttributeGrows(first, SERVICE_RECORD_STATE, state);
    var second := AddAttribute(first, SERVICE_RECORD_STATE, state);
    if second.Ok? {
      GetAttributeIsIn(second.value, SERVICE_RECORD_HANDLE);
    }
  }

  lemma StampedTwice(record: ServiceRecord, handle: u32)
    requires RecordOk(record)
    ensures var s := Stamped(record, handle);
            && (s.Ok? <==> |record.attributes| + Missing(record, SERVICE_RECORD_HANDLE)
                           + Missing(record, SERVICE_RECORD_STATE) <= MAX_ATTRIBUTES_PER_RECORD)
            && (s.Ok? ==>
                  && Registered(handle, s.value)
                  && AsMap(s.value.attributes)
                     == Identified(AsMap(record.attributes), handle, Bumped(record.state))
                  && s.value.state == Bumped(Bumped(record.state)))
  {
    FirstStamp(record, handle);
    match StampHandle(record, handle) {
      case Err(_) =>
      case Ok(first) => SecondStamp(first);
    }
  }

  lemma BumpedTwice(state: u32)
    ensures Bumped(state) == (state + 1) % 0x1_0000_0000 && Bumped(Bumped(state)) == (state + 2) % 0x1_0000_0000
  {
  }

  lemma StampFails(record: ServiceRecord, handle: u32)
    requires Stamped(record, handle).Err?
    ensures Stamped(record, handle).error == TooManyServices
  {
  }

  /** A record can be stamped exactly when its two identifying attributes still fit it. */
  lemma StampedExactly(record: ServiceRecord, handle: u32)
    requires RecordOk(record)
    ensures var s := Stamped(record, handle);
            && (s.Ok? <==> |record.attributes| + Missing(record, SERVICE_RECORD_HANDLE)
                           + Missing(record, SERVICE_RECORD_STATE) <= MAX_ATTRIBUTES_PER_RECORD)
            && (s.Ok? ==>
                  && Registered(handle, s.value)
                  && AsMap(s.value.attributes)
                     == Identified(AsMap(record.attributes), handle, (record.state + 1) % 0x1_0000_0000)
                  && s.value.state == (record.state + 2) % 0x1_0000_0000)
            && (s.Err? ==> s.error == TooManyServices)
  {
    StampedTwice(record, handle);
    BumpedTwice(record.state);
    if Stamped(record, handle).Err? {
      StampFails(record, handle);
    }
  }

  lemma OneBehind(state: u32)
    ensures (state + 2) % 0x1_0000_0000 == ((state + 1) % 0x1_0000_0000 + 1) % 0x1_0000_0000
    ensures (state + 2) % 0x1_0000_0000 != (state + 1) % 0x1_0000_0000
  {
  }

  lemma StampedState(record: ServiceRecord, handle: u32, lagging: u32)
    requires RecordOk(record) && Stamped(record, handle).Ok? && lagging == (record.state + 1) % 0x1_0000_0000
    ensures GetAttribute(Stamped(record, handle).value, SERVICE_RECORD_STATE) == Some(UnsignedInt32(lagging))
    ensures Stamped(record, handle).value.state == (record.state + 2) % 0x1_0000_0000
  {
    StampedExactly(record, handle);
    GetAttributeIsIn(Stamped(record, handle).value, SERVICE_RECORD_STATE);
  }

  /** After an addition the stored state attribute is one behind the record's state. */
  lemma StateAttributeLags(record: ServiceRecord, handle: u32)
    requires RecordOk(record) && Stamped(record, handle).Ok?
    ensures var s := Stamped(record, handle).value;
            exists lagging: u32 ::
              && GetAttribute(s, SERVICE_RECORD_STATE) == Some(UnsignedInt32(lagging))
              && s.state == (lagging + 1) % 0x1_0000_0000 && lagging != s.state
  {
    var lagging := (record.state + 1) % 0x1_0000_0000;
    StampedState(record, handle, lagging);
    OneBehind(record.state);
  }

  /**
   An addition draws a handle in every case. It succeeds exactly when the record
   can be stamped and the database has room or already holds the handle, and
   then stores the stamped record under the handle it returns.
   */
  lemma AddRecordEffect(db: Database, record: ServiceRecord)
    requires Consistent(db) && RecordOk(record)
    ensures var (r, after) := AddRecord(db, record);
            && Consistent(after)
            && after.nextHandle == (db.nextHandle + 1) % 0x1_0000_0000
            && after.nextTransactionId == db.nextTransactionId
            && (r.Ok? <==> Stamped(record, db.nextHandle).Ok?
                           && (db.nextHandle in AsMap(db.records) || |db.records| < MAX_SERVICE_RECORDS))
            && (r.Ok? ==> r.value == db.nextHandle
                          && AsMap(after.records)
                             == AsMap(db.records)[db.nextHandle := Stamped(record, db.nextHandle).value])
            && (r.Err? ==> r == Err(TooManyServices) && after.records == db.records)
  {
    StampedExactly(record, db.nextHandle);
    var stamped := Stamped(record, db.nextHandle);
    if stamped.Ok? {
      InsertAsMap(db.records, db.nextHandle, stamped.value, MAX_SERVICE_RECORDS);
    }
  }

  lemma RemoveRecordEffect(db: Database, handle: u32)
    requires Consistent(db)
    ensures var (r, after) := RemoveRecord(db, handle);
            && Consistent(after) && after.nextHandle == db.nextHandle
            && AsMap(after.records) == AsMap(db.records) - {handle}
            && r == if handle in AsMap(db.records) then Some(AsMap(db.records)[handle]) else None
  {
    RemoveAsMap(db.records, handle);
    HasIsIn(db.records, handle);
  }

  /** A new record: handle, class list and state, in their first state. */
  lemma NewRecordHolds(handle: u32, serviceClass: u128)
    ensures var r := NewRecord(handle, serviceClass);
            && RecordOk(r) && |r.attributes| == 3 && r.handle == handle && r.state == 1
            && AsMap(r.attributes)
               == map[0x0000 := UnsignedInt32(handle), 0x0001 := UuidList([serviceClass]), 0x0002 := UnsignedInt32(1)]
  {
    var r := NewRecord(handle, serviceClass);
    var m := map[0x0000 := UnsignedInt32(handle), 0x0001 := UuidList([serviceClass]), 0x0002 := UnsignedInt32(1)];
    InKeys(r.attributes, 0);
    InKeys(r.attributes, 1);
    InKeys(r.attributes, 2);
    SameMap(r.attributes, m);
  }

  /** The record has these attributes, at most n of them, and this state. */
  ghost predicate Carries(r: ServiceRecord, m: map<u16, DataElement>, n: nat, state: nat) {
    RecordOk(r) && AsMap(r.attributes) == m && |r.attributes| <= n && r.state == state
  }

  /** One more attribute in a record that has room for it. */
  lemma Extended(r: ServiceRecord, m: map<u16, DataElement>, n: nat, state: nat, id: u16, value: DataElement)
    returns (a: ServiceRecord)
    requires Carries(r, m, n, state) && n < MAX_ATTRIBUTES_PER_RECORD && state < 0xFFFF
    ensures AddAttribute(r, id, value) == Ok(a) && Carries(a, m[id := value], n + 1, state + 1)
  {
    AddAttributeEffect(r, id, value);
    AddAttributeGrows(r, id, value);
    a := AddAttribute(r, id, value).value;
  }

  /** What the server says about itself: its class, its name, the SDP PSM and version 1.0. */
  ghost function OwnAttributes(handle: u32, state: u32): map<u16, DataElement> {
    map[0x0000 := UnsignedInt32(handle), 0x0001 := UuidList([0x0000_1000_8000_0080_5F9B_34FB_0000_0000]),
        0x0002 := UnsignedInt32(state), 0x0004 := UnsignedInt16(1),
        0x0100 := TextString([0x53, 0x44, 0x50, 0x20, 0x53, 0x65, 0x72, 0x76, 0x65, 0x72]),
        0x0200 := UnsignedInt16(0x0100)]
  }

  /** Three more attributes. */
  function Three(r: ServiceRecord, i: u16, x: DataElement, j: u16, y: DataElement, k: u16, z: DataElement)
    : Result<ServiceRecord, SdpError>
  {
    var a :- AddAttribute(r, i, x);
    var b :- AddAttribute(a, j, y);
    AddAttribute(b, k, z)
  }

  lemma ThreeIs(r: ServiceRecord, i: u16, x: DataElement, j: u16, y: DataElement, k: u16, z: DataElement,
                a: ServiceRecord, b: ServiceRecord)
    requires AddAttribute(r, i, x) == Ok(a) && AddAttribute(a, j, y) == Ok(b)
    ensures Three(r, i, x, j, y, k, z) == AddAttribute(b, k, z)
  {
  }

  lemma ThreeHold(r: ServiceRecord, m: map<u16, DataElement>, i: u16, x: DataElement, j: u16, y: DataElement,
                  k: u16, z: DataElement)
    returns (c: ServiceRecord)
    requires Carries(r, m, 3, 1)
    ensures Three(r, i, x, j, y, k, z) == Ok(c) && Carries(c, m[i := x][j := y][k := z], 6, 4)
  {
    var a := Extended(r, m, 3, 1, i, x);
    var b := Extended(a, m[i := x], 4, 2, j, y);
    c := Extended(b, m[i := x][j := y], 5, 3, k, z);
    ThreeIs(r, i, x, j, y, k, z, a, b);
  }

  lemma OwnInOrder(handle: u32, own: u128, name: Text)
    requires own == 0x0000_1000_8000_0080_5F9B_34FB_0000_0000
    requires name == [0x53, 0x44, 0x50, 0x20, 0x53, 0x65, 0x72, 0x76, 0x65, 0x72]
    ensures map[0x0000 := UnsignedInt32(handle), 0x0001 := UuidList([own]), 0x0002 := UnsignedInt32(1)]
            [0x0100 := TextString(name)][0x0004 := UnsignedInt16(1)][0x0200 := UnsignedInt16(0x0100)]
            == OwnAttributes(handle, 1)
  {
  }

  lemma DefaultRecordHolds()
    ensures DefaultRecord().Ok? && Carries(DefaultRecord().value, OwnAttributes(0, 1), 6, 4)
  {
    var plain := NewRecord(0, SERVICE_DISCOVERY_SERVER);
    var name := [0x53, 0x44, 0x50, 0x20, 0x53, 0x65, 0x72, 0x76, 0x65, 0x72];
    NewRecordHolds(0, SERVICE_DISCOVERY_SERVER);
    var own := ThreeHold(plain, AsMap(plain.attributes), SERVICE_NAME, TextString(name),
                         PROTOCOL_DESCRIPTOR_LIST, UnsignedInt16(SDP_PSM), VERSION_LIST, UnsignedInt16(0x0100));
    OwnInOrder(0, SERVICE_DISCOVERY_SERVER, name);
  }

  lemma NothingStored()
    ensures Consistent(Database([], FIRST_HANDLE, 1)) && AsMap(Database([], FIRST_HANDLE, 1).records) == map[]
  {
  }

  lemma StampedNew(record: ServiceRecord, handle: u32) returns (s: ServiceRecord)
    requires RecordOk(record) && |record.attributes| <= 6 && record.state < 0xFFFF
    ensures Stamped(record, handle) == Ok(s)
    ensures AsMap(s.attributes) == Identified(AsMap(record.attributes), handle, record.state + 1)
  {
    StampedExactly(record, handle);
    s := Stamped(record, handle).value;
  }

  lemma StoredFirst(db: Database, record: ServiceRecord)
    requires Consistent(db) && AsMap(db.records) == map[] && db.records == []
    requires RecordOk(record) && |record.attributes| <= 6 && record.state < 0xFFFF
    ensures var (r, after) := AddRecord(db, record);
            && Consistent(after) && after.nextHandle == (db.nextHandle + 1) % 0x1_0000_0000
            && after.nextTransactionId == db.nextTransactionId
            && AsMap(after.records).Keys == {db.nextHandle}
            && AsMap(AsMap(after.records)[db.nextHandle].attributes)
               == Identified(AsMap(record.attributes), db.nextHandle, record.state + 1)
  {
    var s := StampedNew(record, db.nextHandle);
    AddRecordEffect(db, record);
  }

  lemma OpenedHolds(empty: Database, own: Result<ServiceRecord, SdpError>)
    requires Consistent(empty) && AsMap(empty.records) == map[] && empty.records == []
    requires own.Ok? && RecordOk(own.value) && |own.value.attributes| <= 6 && own.value.state < 0xFFFF
    ensures var db := Opened(empty, own);
            && Consistent(db) && db.nextHandle == (empty.nextHandle + 1) % 0x1_0000_0000
            && db.nextTransactionId == empty.nextTransactionId
            && AsMap(db.records).Keys == {empty.nextHandle}
            && AsMap(AsMap(db.records)[empty.nextHandle].attributes)
               == Identified(AsMap(own.value.attributes), empty.nextHandle, own.value.state + 1)
  {
    StoredFirst(empty, own.value);
  }

  lemma OpenedFromNothing(own: Result<ServiceRecord, SdpError>)
    requires own.Ok? && RecordOk(own.value) && |own.value.attributes| <= 6 && own.value.state < 0xFFFF
    ensures var db := Opened(Database([], FIRST_HANDLE, 1), own);
            && Consistent(db) && db.nextHandle == FIRST_HANDLE + 1 && db.nextTransactionId == 1
            && AsMap(db.records).Keys == {FIRST_HANDLE}
            && AsMap(AsMap(db.records)[FIRST_HANDLE].attributes)
               == Identified(AsMap(own.value.attributes), FIRST_HANDLE, own.value.state + 1)
  {
    NothingStored();
    OpenedHolds(Database([], FIRST_HANDLE, 1), own);
  }

  lemma OwnIdentified(handle: u32)
    ensures Identified(OwnAttributes(0, 1), handle, 5) == OwnAttributes(handle, 5)
  {
  }

  /**
   The new server registers itself, and only itself, under the first handle, with
   the attributes it is to have.
   */
  lemma NewDatabaseConsistent()
    ensures Consistent(NewDatabase())
    ensures NewDatabase().nextHandle == 0x0001_0001 && NewDatabase().nextTransactionId == 1
    ensures AsMap(NewDatabase().records).Keys == {0x0001_0000}
    ensures AsMap(AsMap(NewDatabase().records)[0x0001_0000].attributes) == OwnAttributes(0x0001_0000, 5)
  {
    DefaultRecordHolds();
    OpenedFromNothing(DefaultRecord());
    OwnIdentified(FIRST_HANDLE);
  }

  // ----- Runs -----

  datatype Op = Add(record: ServiceRecord) | Drop(handle: u32)

  function Apply(db: Database, op: Op): Database {
    match op
    case Add(record) => AddRecord(db, record).1
    case Drop(handle) => RemoveRecord(db, handle).1
  }

  function Run(db: Database, ops: seq<Op>): Database
    decreases |ops|
  {
    if ops == [] then db else Run(Apply(db, ops[0]), ops[1..])
  }

  ghost predicate WellFormed(ops: seq<Op>) {
    forall i :: 0 <= i < |ops| && ops[i].Add? ==> RecordOk(ops[i].record)
  }

  lemma {:induction false} RunsStayConsistent(db: Database, ops: seq<Op>)
    requires Consistent(db) && WellFormed(ops)
    ensures Consistent(Run(db, ops))
    decreases |ops|
  {
    if ops != [] {
      match ops[0] {
        case Add(record) => AddRecordEffect(db, record);
        case Drop(handle) => RemoveRecordEffect(db, handle);
      }
      RunsStayConsistent(Apply(db, ops[0]), ops[1..]);
    }
  }

  /** Every database reached from a new server holds each record under its own handle. */
  lemma EveryServerIsConsistent(ops: seq<Op>)
    requires WellFormed(ops)
    ensures Consistent(Run(NewDatabase(), ops))
  {
    NewDatabaseConsistent();
    RunsStayConsistent(NewDatabase(), ops);
  }

  /** The handle drawn by the n-th addition. */
  function HandleAt(n: nat): u32 {
    (FIRST_HANDLE + n) % 0x1_0000_0000
  }

  ghost predicate AmongFirst(handle: u32, n: nat) {
    exists j: nat :: j < n && handle == HandleAt(j)
  }

  /** Every live handle was one of the first n drawn, and the next one is the n-th. */
  ghost predicate Drawn(db: Database, n: nat) {
    && db.nextHandle == HandleAt(n)
    && forall k :: k in AsMap(db.records) ==> AmongFirst(k, n)
  }

  function Additions(ops: seq<Op>): nat {
    if ops == [] then 0 else (if ops[0].Add? then 1 else 0) + Additions(ops[1..])
  }

  lemma NextDraw(n: nat)
    ensures HandleAt(n + 1) == (HandleAt(n) + 1) % 0x1_0000_0000
    ensures AmongFirst(HandleAt(n), n + 1)
    ensures forall k :: AmongFirst(k, n) ==> AmongFirst(k, n + 1)
  {
    forall k | AmongFirst(k, n) ensures AmongFirst(k, n + 1) {
      var j: nat :| j < n && k == HandleAt(j);
      assert j < n + 1;
    }
  }

  lemma AddDraws(db: Database, record: ServiceRecord, n: nat)
    requires Consistent(db) && RecordOk(record) && Drawn(db, n)
    ensures Consistent(AddRecord(db, record).1) && Drawn(AddRecord(db, record).1, n + 1)
  {
    AddRecordEffect(db, record);
    NextDraw(n);
  }

  lemma {:induction false} RunsDraw(db: Database, ops: seq<Op>, n: nat)
    requires Consistent(db) && WellFormed(ops) && Drawn(db, n)
    ensures Drawn(Run(db, ops), n + Additions(ops))
    decreases |ops|
  {
    if ops != [] {
      match ops[0] {
        case Add(record) =>
          AddDraws(db, record, n);
          RunsDraw(Apply(db, ops[0]), ops[1..], n + 1);
        case Drop(handle) =>
          RemoveRecordEffect(db, handle);
          RunsDraw(Apply(db, ops[0]), ops[1..], n);
      }
    }
  }

  lemma DrawsDiffer(j: nat, n: nat)
    requires j < n < j + 0x1_0000_0000
    ensures HandleAt(j) != HandleAt(n)
  {
  }

  lemma NextHandleIsFree(db: Database, n: nat)
    requires Drawn(db, n) && n < 0x1_0000_0000
    ensures db.nextHandle !in AsMap(db.records)
  {
    if db.nextHandle in AsMap(db.records) {
      var j: nat :| j < n && db.nextHandle == HandleAt(j);
      DrawsDiffer(j, n);
    }
  }

  lemma NewDatabaseDrewOne()
    ensures Drawn(NewDatabase(), 1)
  {
    NewDatabaseConsistent();
    assert FIRST_HANDLE == HandleAt(0);
    NextDraw(0);
  }

  /**
   While fewer than 2^32 handles were drawn, the handle the next addition draws is
   not live, so an addition that succeeds keeps every record there was.
   */
  lemma AdditionsNeverReplace(ops: seq<Op>, record: ServiceRecord)
    requires WellFormed(ops) && RecordOk(record) && Additions(ops) + 1 < 0x1_0000_0000
    ensures var db := Run(NewDatabase(), ops);
            var (r, after) := AddRecord(db, record);
            && db.nextHandle !in AsMap(db.records)
            && (r.Ok? ==> forall k :: k in AsMap(db.records) ==>
                            k in AsMap(after.records) && AsMap(after.records)[k] == AsMap(db.records)[k])
  {
    EveryServerIsConsistent(ops);
    NewDatabaseConsistent();
    NewDatabaseDrewOne();
    RunsDraw(NewDatabase(), ops, 1);
    var db := Run(NewDatabase(), ops);
    NextHandleIsFree(db, 1 + Additions(ops));
    AddRecordEffect(db, record);
  }
}

/** Searches are exact, and budgeted answers are prefixes of unlimited ones. */
module SdpQueries {
  import opened Wrappers
  import opened Words
  import opened IndexMap
  import opened SdpRecord
  import opened SdpServer
  import opened SdpRuns

  /** The class list of the record, attribute 0x0001, holds the UUID. */
  ghost predicate HasClass(record: ServiceRecord, uuid: u128) {
    var a := AsMap(record.attributes);
    0x0001 in a && a[0x0001].UuidList? && uuid in a[0x0001].uuids
  }

  /** A record is asked for: by no UUID at all, or by one of its classes. */
  ghost predicate Wanted(record: ServiceRecord, uuids: seq<u128>) {
    uuids == [] || exists u :: u in uuids && HasClass(record, u)
  }

  lemma MatchIsClass(record: ServiceRecord, uuid: u128)
    requires RecordOk(record)
    ensures RecordMatchesUuid(record, uuid) <==> HasClass(record, uuid)
  {
    GetAttributeIsIn(record, SERVICE_CLASS_ID_LIST);
  }

  /** The keys of the wanted records, in storage order. */
  ghost function WantedKeys(records: Records, uuids: seq<u128>): (keys: seq<u32>)
    ensures |keys| <= |records|
  {
    if records == [] then []
    else
      var n := |records| - 1;
      var before := WantedKeys(records[..n], uuids);
      if Wanted(records[n].value, uuids) then before + [records[n].key] else before
  }

  lemma {:induction false} MatchesFromExists(record: ServiceRecord, uuids: seq<u128>, k: nat)
    requires k <= |uuids| && RecordOk(record)
    ensures MatchesFrom(record, uuids, k) <==> exists j :: k <= j < |uuids| && HasClass(record, uuids[j])
    decreases |uuids| - k
  {
    if k < |uuids| {
      MatchIsClass(record, uuids[k]);
      MatchesFromExists(record, uuids, k + 1);
    }
  }

  lemma MatchesWanted(record: ServiceRecord, uuids: seq<u128>)
    requires RecordOk(record) && uuids != []
    ensures MatchesFrom(record, uuids, 0) <==> Wanted(record, uuids)
  {
    MatchesFromExists(record, uuids, 0);
  }

  ghost predicate SelfKeyed(records: Records) {
    forall i :: 0 <= i < |records| ==> records[i].value.handle == records[i].key && RecordOk(records[i].value)
  }

  /** The handles once the record was looked at. */
  ghost function Including(handles: seq<u32>, record: ServiceRecord, key: u32, uuids: seq<u128>): seq<u32> {
    if Wanted(record, uuids) then handles + [key] else handles
  }

  lemma SearchFromStep(records: Records, uuids: seq<u128>, i: nat, handles: seq<u32>, next: seq<u32>)
    requires i < |records| && |handles| < MAX_SERVICE_HANDLES && SelfKeyed(records)
    requires next == Including(handles, records[i].value, records[i].key, uuids)
    ensures SearchFrom(records, uuids, i, handles, |handles|) == SearchFrom(records, uuids, i + 1, next, |next|)
  {
    if uuids != [] {
      MatchesWanted(records[i].value, uuids);
    }
  }

  lemma WantedKeysNext(records: Records, uuids: seq<u128>, i: nat)
    requires i < |records|
    ensures WantedKeys(records[..i + 1], uuids)
            == Including(WantedKeys(records[..i], uuids), records[i].value, records[i].key, uuids)
  {
    assert records[..i + 1][..i] == records[..i];
  }

  lemma {:induction false} SearchFromFinds(records: Records, uuids: seq<u128>, i: nat)
    requires i <= |records| <= MAX_SERVICE_HANDLES && SelfKeyed(records)
    ensures var found := WantedKeys(records[..i], uuids);
            SearchFrom(records, uuids, i, found, |found|)
            == SearchResult(WantedKeys(records, uuids), |WantedKeys(records, uuids)|)
    decreases |records| - i
  {
    if i == |records| {
      assert records[..i] == records;
    } else {
      WantedKeysNext(records, uuids, i);
      SearchFromStep(records, uuids, i, WantedKeys(records[..i], uuids), WantedKeys(records[..i + 1], uuids));
      SearchFromFinds(records, uuids, i + 1);
    }
  }

  ghost predicate WantedAt(records: Records, uuids: seq<u128>, h: u32) {
    exists i :: 0 <= i < |records| && records[i].key == h && Wanted(records[i].value, uuids)
  }

  lemma WantedAtNext(records: Records, uuids: seq<u128>, h: u32)
    requires records != []
    ensures var n := |records| - 1;
            WantedAt(records, uuids, h)
            <==> WantedAt(records[..n], uuids, h) || (records[n].key == h && Wanted(records[n].value, uuids))
  {
    var n := |records| - 1;
    if i :| 0 <= i < n && records[..n][i].key == h && Wanted(records[..n][i].value, uuids) {
      assert records[i] == records[..n][i];
    }
    if i :| 0 <= i < n && records[i].key == h && Wanted(records[i].value, uuids) {
      assert records[..n][i] == records[i];
    }
  }

  lemma NotWantedTwice(records: Records, uuids: seq<u128>)
    requires Distinct(records) && records != []
    ensures !WantedAt(records[..|records| - 1], uuids, records[|records| - 1].key)
  {
  }

  lemma {:induction false} WantedKeysExact(records: Records, uuids: seq<u128>, h: u32)
    requires Distinct(records)
    ensures h in WantedKeys(records, uuids) <==> WantedAt(records, uuids, h)
    decreases |records|
  {
    if records != [] {
      WantedKeysExact(records[..|records| - 1], uuids, h);
      WantedAtNext(records, uuids, h);
    }
  }

  lemma {:induction false} WantedKeysDistinct(records: Records, uuids: seq<u128>)
    requires Distinct(records)
    ensures var keys := WantedKeys(records, uuids); forall i, j :: 0 <= i < j < |keys| ==> keys[i] != keys[j]
    decreases |records|
  {
    if records != [] {
      var n := |records| - 1;
      WantedKeysDistinct(records[..n], uuids);
      WantedKeysExact(records[..n], uuids, records[n].key);
      NotWantedTwice(records, uuids);
    }
  }

  lemma RegisteredAt(db: Database, i: nat)
    requires Consistent(db) && i < |db.records|
    ensures Registered(db.records[i].key, db.records[i].value)
  {
    AsMapAt(db.records, i);
  }

  /**
   A search returns the handle of each wanted record exactly once, in storage
   order, and no other handle; the total is the number returned.
   */
  lemma SearchIsExact(db: Database, uuids: seq<u128>)
    requires Consistent(db)
    ensures var s := Search(db.records, uuids);
            && s.handles == WantedKeys(db.records, uuids) && s.total == |s.handles|
            && (forall i, j :: 0 <= i < j < |s.handles| ==> s.handles[i] != s.handles[j])
            && forall h: u32 :: h in s.handles <==>
                 && h in AsMap(db.records)
                 && var attributes := AsMap(AsMap(db.records)[h].attributes);
                 uuids == [] || exists u :: u in uuids && 0x0001 in attributes && attributes[0x0001].UuidList?
                                            && u in attributes[0x0001].uuids
  {
    var records := db.records;
    forall i | 0 <= i < |records| ensures records[i].value.handle == records[i].key && RecordOk(records[i].value) {
      RegisteredAt(db, i);
    }
    assert records[..0] == [];
    SearchFromFinds(records, uuids, 0);
    forall h: u32 ensures h in WantedKeys(records, uuids) <==>
                          h in AsMap(records) && Wanted(AsMap(records)[h], uuids) {
      WantedKeysExact(records, uuids, h);
      HasIsIn(records, h);
      if i :| 0 <= i < |records| && records[i].key == h && Wanted(records[i].value, uuids) {
        AsMapAt(records, i);
      }
    }
    WantedKeysDistinct(records, uuids);
  }

  /** A limited search keeps a prefix of the handles and reports the full total. */
  lemma LimitedSearchKeepsPrefix(db: Database, uuids: seq<u128>, maxRecords: u16)
    requires Consistent(db)
    ensures var all := Search(db.records, uuids);
            var kept := Truncate(all.handles, maxRecords);
            && kept <= all.handles && all.total == |all.handles|
            && |kept| == if |all.handles| < maxRecords then |all.handles| else maxRecords
  {
    SearchIsExact(db, uuids);
  }

  // ----- Attribute answers -----

  /** The entry an answer holds for one requested attribute, if the record has it. */
  function EntryOf(record: ServiceRecord, id: u16): seq<u8> {
    match GetAttribute(record, id)
    case None => []
    case Some(value) => EntryBytes(id, value)
  }

  /** An entry reads back: its identifier, the size of its value, and that many bytes. */
  lemma EntryReadable(id: u16, value: DataElement)
    ensures var b := EntryBytes(id, value);
            && |b| >= 4 && FromBe(b[..2]) == id && FromBe(b[2..4]) == EncodedSize(value) == |b[4..]|
            && forall i :: 4 <= i < |b| ==> b[i] == 0
  {
    var b := EntryBytes(id, value);
    assert b[..2] == Be16(id) && b[2..4] == Be16(EncodedSize(value));
    FromBe16(id);
    FromBe16(EncodedSize(value));
  }

  /** The entries of the requested attributes the record has, in request order. */
  function AllEntries(record: ServiceRecord, ids: seq<u16>): seq<u8>
    decreases |ids|
  {
    if ids == [] then []
    else AllEntries(record, ids[..|ids| - 1]) + EntryOf(record, ids[|ids| - 1])
  }

  /**
   An answer is all the entries of a prefix of the request, and the prefix ends
   only where the next entry no longer fits.
   */
  ghost predicate IsLongestFit(record: ServiceRecord, ids: seq<u16>, k: nat, a: AttributeResult) {
    && k <= |ids| && a.attributes == AllEntries(record, ids[..k])
    && a.size == |a.attributes| <= MAX_SDP_RESPONSE_SIZE
    && (k < |ids| ==> |AllEntries(record, ids[..k + 1])| > MAX_SDP_RESPONSE_SIZE)
  }

  lemma NextEntry(record: ServiceRecord, ids: seq<u16>, i: nat)
    requires i < |ids|
    ensures AllEntries(record, ids[..i + 1]) == AllEntries(record, ids[..i]) + EntryOf(record, ids[i])
  {
    assert ids[..i + 1][..i] == ids[..i];
  }

  ghost function Sofar(bytes: seq<u8>): AttributeResult
    requires |bytes| <= MAX_SDP_RESPONSE_SIZE
  {
    AttributeResult(bytes, |bytes|)
  }

  lemma AnswerStep(record: ServiceRecord, ids: seq<u16>, i: nat, done: seq<u8>)
    requires i < |ids| && |done| <= MAX_SDP_RESPONSE_SIZE
    ensures var next := done + EntryOf(record, ids[i]);
            AnswerFrom(record, ids, i, Sofar(done))
            == if |next| > MAX_SDP_RESPONSE_SIZE then Sofar(done) else AnswerFrom(record, ids, i + 1, Sofar(next))
  {
    assert done + [] == done;
  }

  lemma {:induction false} AnswerFromFits(record: ServiceRecord, ids: seq<u16>, i: nat) returns (k: nat)
    requires i <= |ids| && |AllEntries(record, ids[..i])| <= MAX_SDP_RESPONSE_SIZE
    ensures IsLongestFit(record, ids, k, AnswerFrom(record, ids, i, Sofar(AllEntries(record, ids[..i]))))
    decreases |ids| - i
  {
    if i == |ids| {
      k := i;
    } else {
      NextEntry(record, ids, i);
      AnswerStep(record, ids, i, AllEntries(record, ids[..i]));
      if |AllEntries(record, ids[..i + 1])| > MAX_SDP_RESPONSE_SIZE {
        k := i;
      } else {
        k := AnswerFromFits(record, ids, i + 1);
      }
    }
  }

  /** The size of an answer is its byte count, and the answer is the longest fitting part of the request. */
  lemma AnswerIsLongestFit(records: Records, handle: u32, ids: seq<u16>)
    requires Has(records, handle)
    ensures var a := Answer(records, handle, ids);
            a.Ok? && exists k: nat :: IsLongestFit(Get(records, handle), ids, k, a.value)
  {
    assert ids[..0] == [];
    var k := AnswerFromFits(Get(records, handle), ids, 0);
    assert IsLongestFit(Get(records, handle), ids, k, Answer(records, handle, ids).value);
  }

  function Bytes(results: seq<AttributeResult>): seq<u8> {
    if results == [] then [] else results[0].attributes + Bytes(results[1..])
  }

  ghost predicate Sized(a: AttributeResult) {
    a.size == |a.attributes| <= MAX_SDP_RESPONSE_SIZE
  }

  lemma AnswerSized(records: Records, handle: u32, ids: seq<u16>)
    requires Has(records, handle)
    ensures Answer(records, handle, ids).Ok? && Sized(Answer(records, handle, ids).value)
  {
    AnswerIsLongestFit(records, handle, ids);
  }

  /** The unlimited answers for some handles, in order. */
  ghost function Answers(records: Records, handles: seq<u32>, ids: seq<u16>): (answers: seq<AttributeResult>)
    requires forall h :: h in handles ==> Has(records, h)
    ensures |answers| == |handles|
  {
    if handles == [] then []
    else [Answer(records, handles[0], ids).value] + Answers(records, handles[1..], ids)
  }

  function Min(x: nat, y: nat): nat {
    if x < y then x else y
  }

  /** A limited single answer is the prefix of the unlimited one that fits the budget. */
  lemma CutIsPrefix(a: AttributeResult, budget: u16)
    requires Sized(a)
    ensures Sized(Cut(a, budget)) && Cut(a, budget).attributes == a.attributes[..Min(budget, |a.attributes|)]
  {
  }

  lemma PrefixOfSum(x: seq<u8>, y: seq<u8>, n: nat)
    ensures (x + y)[..Min(n, |x + y|)]
            == x[..Min(n, |x|)] + y[..Min(if n < |x| then 0 else n - |x|, |y|)]
  {
  }

  lemma AnswersUnfold(records: Records, handles: seq<u32>, ids: seq<u16>, i: nat, a: AttributeResult)
    requires i < |handles| && Answer(records, handles[i], ids) == Ok(a)
    requires forall h :: h in handles ==> Has(records, h)
    ensures Bytes(Answers(records, handles[i..], ids))
            == a.attributes + Bytes(Answers(records, handles[i + 1..], ids))
  {
    assert handles[i..][0] == handles[i] && handles[i..][1..] == handles[i + 1..];
    var rest := Answers(records, handles[i + 1..], ids);
    assert ([a] + rest)[1..] == rest;
  }

  lemma CombinedUnfolds(records: Records, handles: seq<u32>, ids: seq<u16>, maxBytes: u16, i: nat, total: u16,
                        room: nat, a: AttributeResult, n: u16, next: u16)
    requires i < |handles| && total < maxBytes && room > 0 && Answer(records, handles[i], ids) == Ok(a)
    requires n == maxBytes - total && next as nat == total as nat + Cut(a, n).size as nat
    ensures CombinedFrom(records, handles, ids, maxBytes, i, total, room)
            == [Cut(a, n)] + CombinedFrom(records, handles, ids, maxBytes, i + 1, next, room - 1)
  {
  }

  /** The results hold the first n bytes of whole, or all of them, in at most count parts. */
  ghost predicate Delivers(results: seq<AttributeResult>, whole: seq<u8>, n: nat, count: nat) {
    && Bytes(results) == whole[..Min(n, |whole|)]
    && |results| <= count
    && forall a :: a in results ==> Sized(a)
  }

  lemma DeliversNothing(whole: seq<u8>, n: nat, count: nat)
    requires n == 0 || whole == []
    ensures Delivers([], whole, n, count)
  {
  }

  lemma DeliversMore(a: AttributeResult, results: seq<AttributeResult>, whole: seq<u8>, n: u16, m: nat, count: nat)
    requires Sized(a) && m == n - Cut(a, n).size && Delivers(results, whole, m, count)
    ensures Delivers([Cut(a, n)] + results, a.attributes + whole, n, count + 1)
  {
    CutIsPrefix(a, n);
    PrefixOfSum(a.attributes, whole, n);
    assert ([Cut(a, n)] + results)[1..] == results;
  }

  lemma OneMoreAnswer(records: Records, handles: seq<u32>, ids: seq<u16>, i: nat, a: AttributeResult,
                      rest: seq<AttributeResult>, n: u16, m: nat, left: nat)
    requires i < |handles| && Answer(records, handles[i], ids) == Ok(a) && Sized(a) && m == n - Cut(a, n).size
    requires forall h :: h in handles ==> Has(records, h)
    requires left > 0 && Delivers(rest, Bytes(Answers(records, handles[i + 1..], ids)), m, left - 1)
    ensures Delivers([Cut(a, n)] + rest, Bytes(Answers(records, handles[i..], ids)), n, left)
  {
    AnswersUnfold(records, handles, ids, i, a);
    DeliversMore(a, rest, Bytes(Answers(records, handles[i + 1..], ids)), n, m, left - 1);
  }

  lemma CombinedStops(records: Records, handles: seq<u32>, ids: seq<u16>, maxBytes: u16, i: nat, total: u16, room: nat,
                      n: nat, left: nat)
    requires i <= |handles| && (i == |handles| || total >= maxBytes) && (n == 0 || i == |handles|)
    requires forall h :: h in handles ==> Has(records, h)
    ensures Delivers(CombinedFrom(records, handles, ids, maxBytes, i, total, room),
                     Bytes(Answers(records, handles[i..], ids)), n, left)
  {
    DeliversNothing(Bytes(Answers(records, handles[i..], ids)), n, left);
  }

  /** The part of an answer that is left of the budget, and the total with it. */
  lemma NextTotal(records: Records, handle: u32, ids: seq<u16>, total: u16, n: u16)
    returns (a: AttributeResult, next: u16)
    requires Has(records, handle) && total as nat + MAX_SDP_RESPONSE_SIZE < 0x1_0000
    ensures Answer(records, handle, ids) == Ok(a) && Sized(a)
    ensures Cut(a, n).size <= n && Cut(a, n).size as nat <= MAX_SDP_RESPONSE_SIZE
    ensures next as nat == total as nat + Cut(a, n).size as nat
  {
    AnswerSized(records, handle, ids);
    a := Answer(records, handle, ids).value;
    CutIsPrefix(a, n);
    next := total + Cut(a, n).size;
  }

  lemma {:induction false} CombinedFromIsPrefix(records: Records, handles: seq<u32>, ids: seq<u16>, maxBytes: u16,
                                                i: nat, total: u16, room: nat, n: u16, left: nat)
    requires i <= |handles| && left == |handles| - i <= room && total <= maxBytes && n == maxBytes - total
    requires total as nat + MAX_SDP_RESPONSE_SIZE * left < 0x1_0000
    requires forall h :: h in handles ==> Has(records, h)
    ensures Delivers(CombinedFrom(records, handles, ids, maxBytes, i, total, room),
                     Bytes(Answers(records, handles[i..], ids)), n, left)
    decreases left
  {
    if left == 0 || n == 0 {
      CombinedStops(records, handles, ids, maxBytes, i, total, room, n, left);
    } else {
      var a, next := NextTotal(records, handles[i], ids, total, n);
      var m := n - Cut(a, n).size;
      CombinedFromIsPrefix(records, handles, ids, maxBytes, i + 1, next, room - 1, m, left - 1);
      CombinedUnfolds(records, handles, ids, maxBytes, i, total, room, a, n, next);
      OneMoreAnswer(records, handles, ids, i, a,
                    CombinedFrom(records, handles, ids, maxBytes, i + 1, next, room - 1), n, m, left);
    }
  }

  /**
   In every reachable server, the byte lists of a budgeted combined query are,
   together, the first bytes of the unlimited answers for all wanted records: as
   many as the budget, or all of them; and each size is its byte count.
   */
  lemma BudgetedQueryIsPrefix(db: Database, uuids: seq<u128>, ids: seq<u16>, maxBytes: u16)
    requires Consistent(db)
    ensures var handles := Search(db.records, uuids).handles;
            var results := Combined(db.records, uuids, ids, maxBytes);
            && (forall h :: h in handles ==> Has(db.records, h))
            && var whole := Bytes(Answers(db.records, handles, ids));
            && Bytes(results) == whole[..Min(maxBytes, |whole|)]
            && |results| <= |handles|
            && forall a :: a in results ==> Sized(a)
  {
    var handles := Search(db.records, uuids).handles;
    SearchIsExact(db, uuids);
    forall h | h in handles ensures Has(db.records, h) {
      HasIsIn(db.records, h);
    }
    assert handles[0..] == handles;
    CombinedFromIsPrefix(db.records, handles, ids, maxBytes, 0, 0, MAX_SERVICE_HANDLES, maxBytes, |handles|);
  }
}
