/** The SDP record database, its queries, and the request handler on top (Vol 3 Part B sections 4.5 to 4.7). */
module SdpServer {
  import opened Wrappers
  import opened Words
  import opened IndexMap
  import opened SdpRecord

  const MAX_SDP_RESPONSE_SIZE: nat := 1024
  const MAX_SERVICE_HANDLES: nat := 16
  const FIRST_HANDLE: u32 := 0x0001_0000
  const SERVICE_NAME: u16 := 0x0100
  const PROTOCOL_DESCRIPTOR_LIST: u16 := 0x0004
  const VERSION_LIST: u16 := 0x0200
  const SDP_PSM: u16 := 0x0001
  const SERVICE_DISCOVERY_SERVER: u128 := 0x0000_1000_8000_0080_5F9B_34FB_0000_0000

  type Records = seq<Entry<u32, ServiceRecord>>

  datatype Database = Database(records: Records, nextHandle: u32, nextTransactionId: u16)

  datatype SearchResult = SearchResult(handles: seq<u32>, total: u16)

  datatype AttributeResult = AttributeResult(attributes: seq<u8>, size: u16)

  function SaturatingAdd(x: u16, y: nat): u16 {
    if x + y < 0x1_0000 then x + y else 0xFFFF
  }

  // ----- Adding and removing records -----

  function StampHandle(record: ServiceRecord, handle: u32): Result<ServiceRecord, SdpError> {
    AddAttribute(record.(handle := handle), SERVICE_RECORD_HANDLE, UnsignedInt32(handle))
  }

  /** The state attribute is read before the store that bumps the state. */
  function StampState(record: ServiceRecord): Result<ServiceRecord, SdpError> {
    AddAttribute(record, SERVICE_RECORD_STATE, UnsignedInt32(record.state))
  }

  /** The record stored for an addition under `handle`. */
  function Stamped(record: ServiceRecord, handle: u32): Result<ServiceRecord, SdpError> {
    match StampHandle(record, handle)
    case Err(e) => Err(e)
    case Ok(first) => StampState(first)
  }

  /** A handle is drawn even when the addition then fails. */
  function AddRecord(db: Database, record: ServiceRecord): (Result<u32, SdpError>, Database) {
    var handle := db.nextHandle;
    var drawn := db.(nextHandle := (handle + 1) % 0x1_0000_0000);
    match Stamped(record, handle)
    case Err(e) => (Err(e), drawn)
    case Ok(stamped) =>
      match Insert(db.records, handle, stamped, MAX_SERVICE_RECORDS)
      case None => (Err(TooManyServices), drawn)
      case Some(records) => (Ok(handle), drawn.(records := records))
  }

  function RemoveRecord(db: Database, handle: u32): (Option<ServiceRecord>, Database) {
    (if Has(db.records, handle) then Some(Get(db.records, handle)) else None,
     db.(records := Remove(db.records, handle)))
  }

  /** The record the server describes itself with. */
  function DefaultRecord(): Result<ServiceRecord, SdpError> {
    var named :- AddAttribute(NewRecord(0, SERVICE_DISCOVERY_SERVER), SERVICE_NAME,
                              TextString([0x53, 0x44, 0x50, 0x20, 0x53, 0x65, 0x72, 0x76, 0x65, 0x72]));
    var withProtocol :- AddAttribute(named, PROTOCOL_DESCRIPTOR_LIST, UnsignedInt16(SDP_PSM));
    AddAttribute(withProtocol, VERSION_LIST, UnsignedInt16(0x0100))
  }

  /** A database that tried to add its own record. */
  function Opened(empty: Database, own: Result<ServiceRecord, SdpError>): Database {
    match own
    case Err(_) => empty
    case Ok(record) => AddRecord(empty, record).1
  }

  function NewDatabase(): Database {
    Opened(Database([], FIRST_HANDLE, 1), DefaultRecord())
  }

  // ----- Queries -----

  predicate RecordMatchesUuid(record: ServiceRecord, uuid: u128) {
    match GetAttribute(record, SERVICE_CLASS_ID_LIST)
    case Some(UuidList(classes)) => uuid in classes
    case _ => false
  }

  /** Some requested UUID from position k on is a class of the record. */
  predicate MatchesFrom(record: ServiceRecord, uuids: seq<u128>, k: nat)
    requires k <= |uuids|
    decreases |uuids| - k
  {
    k < |uuids| && (RecordMatchesUuid(record, uuids[k]) || MatchesFrom(record, uuids, k + 1))
  }

  function SearchFrom(records: Records, uuids: seq<u128>, i: nat, handles: seq<u32>, total: u16): SearchResult
    requires i <= |records|
    decreases |records| - i
  {
    if i == |records| then SearchResult(handles, total)
    else
      var full := |handles| >= MAX_SERVICE_HANDLES;
      var found := handles + [records[i].value.handle];
      if uuids == [] then
        if full then SearchResult(handles, total)
        else SearchFrom(records, uuids, i + 1, found, SaturatingAdd(total, 1))
      else if MatchesFrom(records[i].value, uuids, 0) && !full then
        SearchFrom(records, uuids, i + 1, found, SaturatingAdd(total, 1))
      else SearchFrom(records, uuids, i + 1, handles, total)
  }

  function Search(records: Records, uuids: seq<u128>): SearchResult {
    SearchFrom(records, uuids, 0, [], 0)
  }

  function Zeros(n: nat): (z: seq<u8>)
    ensures |z| == n
  {
    seq(n, _ => 0)
  }

  /** Identifier, size, and a placeholder of that size. */
  function EntryBytes(id: u16, value: DataElement): (b: seq<u8>)
    ensures |b| == EncodedSize(value) + 4
  {
    Be16(id) + Be16(EncodedSize(value)) + Zeros(EncodedSize(value))
  }

  /** The requested attributes the record has, until one no longer fits. */
  function AnswerFrom(record: ServiceRecord, ids: seq<u16>, i: nat, sofar: AttributeResult): AttributeResult
    requires i <= |ids|
    decreases |ids| - i
  {
    if i == |ids| then sofar
    else match GetAttribute(record, ids[i])
      case None => AnswerFrom(record, ids, i + 1, sofar)
      case Some(value) =>
        if |sofar.attributes| + EncodedSize(value) + 4 <= MAX_SDP_RESPONSE_SIZE then
          AnswerFrom(record, ids, i + 1,
                     AttributeResult(sofar.attributes + EntryBytes(ids[i], value),
                                     SaturatingAdd(sofar.size, EncodedSize(value) + 4)))
        else sofar
  }

  function Answer(records: Records, handle: u32, ids: seq<u16>): Result<AttributeResult, SdpError> {
    if Has(records, handle) then Ok(AnswerFrom(Get(records, handle), ids, 0, AttributeResult([], 0)))
    else Err(ServiceNotFound)
  }

  /** Vec::truncate. */
  function Truncate<T>(s: seq<T>, n: nat): seq<T> {
    if |s| > n then s[..n] else s
  }

  /** An answer cut down to a byte budget. */
  function Cut(a: AttributeResult, budget: u16): AttributeResult {
    if a.size > budget then AttributeResult(Truncate(a.attributes, budget), budget) else a
  }

  /**
   The combined query over the handles from position i on, with `total` bytes
   already returned in `room` fewer results.
   */
  function CombinedFrom(records: Records, handles: seq<u32>, ids: seq<u16>, maxBytes: u16,
                        i: nat, total: u16, room: nat): seq<AttributeResult>
    requires i <= |handles|
    decreases |handles| - i
  {
    if i == |handles| || total >= maxBytes then []
    else match Answer(records, handles[i], ids)
      case Err(_) => CombinedFrom(records, handles, ids, maxBytes, i + 1, total, room)
      case Ok(a) =>
        var part := Cut(a, maxBytes - total);
        if room == 0 then []
        else [part] + CombinedFrom(records, handles, ids, maxBytes, i + 1, SaturatingAdd(total, part.size), room - 1)
  }

  /** The results so far, and what the remaining handles will add, make up the whole. */
  ghost predicate Ahead(whole: seq<AttributeResult>, results: seq<AttributeResult>, records: Records,
                        handles: seq<u32>, ids: seq<u16>, maxBytes: u16, i: nat, total: u16, room: nat)
    requires i <= |handles|
  {
    whole == results + CombinedFrom(records, handles, ids, maxBytes, i, total, room)
  }

  lemma AheadEnds(whole: seq<AttributeResult>, results: seq<AttributeResult>, records: Records,
                  handles: seq<u32>, ids: seq<u16>, maxBytes: u16, i: nat, total: u16, room: nat)
    requires i <= |handles| && Ahead(whole, results, records, handles, ids, maxBytes, i, total, room)
    ensures i == |handles| || total >= maxBytes ==> whole == results
    ensures i < |handles| && Answer(records, handles[i], ids).Ok? && room == 0 ==> whole == results
  {
    assert results + [] == results;
  }

  lemma AheadSkips(whole: seq<AttributeResult>, results: seq<AttributeResult>, records: Records,
                   handles: seq<u32>, ids: seq<u16>, maxBytes: u16, i: nat, total: u16, room: nat)
    requires i < |handles| && total < maxBytes && Answer(records, handles[i], ids).Err?
    requires Ahead(whole, results, records, handles, ids, maxBytes, i, total, room)
    ensures Ahead(whole, results, records, handles, ids, maxBytes, i + 1, total, room)
  {
  }

  /** One found handle adds its part to the results. */
  lemma AheadAdds(whole: seq<AttributeResult>, results: seq<AttributeResult>, records: Records, handles: seq<u32>,
                  ids: seq<u16>, maxBytes: u16, i: nat, total: u16, room: nat,
                  a: AttributeResult, part: AttributeResult)
    requires i < |handles| && total < maxBytes && room > 0 && Answer(records, handles[i], ids) == Ok(a)
    requires Ahead(whole, results, records, handles, ids, maxBytes, i, total, room) && part == Cut(a, maxBytes - total)
    ensures Ahead(whole, results + [part], records, handles, ids, maxBytes, i + 1,
                  SaturatingAdd(total, part.size), room - 1)
  {
    var later := CombinedFrom(records, handles, ids, maxBytes, i + 1, SaturatingAdd(total, part.size), room - 1);
    assert results + ([part] + later) == results + [part] + later;
  }

  function Combined(records: Records, uuids: seq<u128>, ids: seq<u16>, maxBytes: u16): seq<AttributeResult> {
    CombinedFrom(records, Search(records, uuids).handles, ids, maxBytes, 0, 0, MAX_SERVICE_HANDLES)
  }

  class SdpServer {
    var records: Records
    var nextHandle: u32
    var nextTransactionId: u16

    function Value(): Database
      reads this
    {
      Database(records, nextHandle, nextTransactionId)
    }

    constructor ()
      ensures Value() == NewDatabase()
    {
      records := [];
      nextHandle := FIRST_HANDLE;
      nextTransactionId := 1;
      new;
      match DefaultRecord() {
        case Err(_) =>
        case Ok(record) => var _ := AddServiceRecord(record);
      }
    }

    method AddServiceRecord(record: ServiceRecord) returns (r: Result<u32, SdpError>)
      modifies this
      ensures (r, Value()) == AddRecord(old(Value()), record)
    {
      var handle := nextHandle;
      nextHandle := (nextHandle + 1) % 0x1_0000_0000;
      var stored := record.(handle := handle);
      stored :- AddAttribute(stored, SERVICE_RECORD_HANDLE, UnsignedInt32(handle));
      stored :- AddAttribute(stored, SERVICE_RECORD_STATE, UnsignedInt32(stored.state));
      match Insert(records, handle, stored, MAX_SERVICE_RECORDS) {
        case None => r := Err(TooManyServices);
        case Some(inserted) =>
          records := inserted;
          r := Ok(handle);
      }
    }

    method RemoveServiceRecord(handle: u32) returns (r: Option<ServiceRecord>)
      modifies this
      ensures (r, Value()) == RemoveRecord(old(Value()), handle)
    {
      r := None;
      if Has(records, handle) {
        r := Some(Get(records, handle));
      }
      records := Remove(records, handle);
    }

    method SearchServices(uuids: seq<u128>) returns (r: SearchResult)
      ensures r == Search(records, uuids)
    {
      var handles: seq<u32>, total: u16 := [], 0;
      var i := 0;
      while i < |records|
        invariant i <= |records|
        invariant SearchFrom(records, uuids, i, handles, total) == Search(records, uuids)
      {
        var record := records[i].value;
        if uuids == [] {
          if |handles| >= MAX_SERVICE_HANDLES {
            break;
          }
          handles, total := handles + [record.handle], SaturatingAdd(total, 1);
        } else {
          ghost var before := SearchResult(handles, total);
          var k := 0;
          while k < |uuids|
            invariant k <= |uuids|
            invariant handles == before.handles && total == before.total
            invariant MatchesFrom(record, uuids, 0) == MatchesFrom(record, uuids, k)
          {
            if RecordMatchesUuid(record, uuids[k]) {
              if |handles| >= MAX_SERVICE_HANDLES {
                break;
              }
              handles, total := handles + [record.handle], SaturatingAdd(total, 1);
              break;
            }
            k := k + 1;
          }
        }
        i := i + 1;
      }
      r := SearchResult(handles, total);
    }

    method GetServiceAttributes(handle: u32, ids: seq<u16>) returns (r: Result<AttributeResult, SdpError>)
      ensures r == Answer(records, handle, ids)
    {
      if !Has(records, handle) {
        return Err(ServiceNotFound);
      }
      var record := Get(records, handle);
      var attributes: seq<u8>, size: u16 := [], 0;
      var i := 0;
      while i < |ids|
        invariant i <= |ids|
        invariant AnswerFrom(record, ids, i, AttributeResult(attributes, size))
                  == AnswerFrom(record, ids, 0, AttributeResult([], 0))
      {
        match GetAttribute(record, ids[i]) {
          case None =>
          case Some(value) =>
            var encodedSize := EncodedSize(value);
            if |attributes| + encodedSize + 4 > MAX_SDP_RESPONSE_SIZE {
              break;
            }
            ghost var before := attributes;
            attributes := attributes + Be16(ids[i]);
            attributes := attributes + Be16(encodedSize);
            var k := 0;
            while k < encodedSize
              invariant k <= encodedSize
              invariant attributes == before + Be16(ids[i]) + Be16(encodedSize) + Zeros(k)
            {
              attributes := attributes + [0];
              k := k + 1;
            }
            assert attributes == before + EntryBytes(ids[i], value);
            size := SaturatingAdd(size, encodedSize + 4);
        }
        i := i + 1;
      }
      r := Ok(AttributeResult(attributes, size));
    }

    method NextTransactionId() returns (id: u16)
      modifies this
      ensures id == old(nextTransactionId)
      ensures Value() == old(Value()).(nextTransactionId := (id + 1) % 0x1_0000)
    {
      id := nextTransactionId;
      nextTransactionId := (nextTransactionId + 1) % 0x1_0000;
    }
  }

  class SdpRequestHandler {
    const server: SdpServer

    constructor (server: SdpServer)
      ensures this.server == server
    {
      this.server := server;
    }

    method HandleServiceSearch(uuids: seq<u128>, maxRecords: u16) returns (r: SearchResult)
      ensures var all := Search(server.records, uuids);
              r == SearchResult(Truncate(all.handles, maxRecords), all.total)
    {
      r := server.SearchServices(uuids);
      if |r.handles| > maxRecords {
        r := r.(handles := r.handles[..maxRecords]);
      }
    }

    method HandleServiceAttribute(handle: u32, ids: seq<u16>, maxBytes: u16)
      returns (r: Result<AttributeResult, SdpError>)
      ensures r == match Answer(server.records, handle, ids)
                   case Err(e) => Err(e)
                   case Ok(a) => Ok(Cut(a, maxBytes))
    {
      var a :- server.GetServiceAttributes(handle, ids);
      if a.size > maxBytes {
        a := AttributeResult(Truncate(a.attributes, maxBytes), maxBytes);
      }
      r := Ok(a);
    }

    method HandleServiceSearchAttribute(uuids: seq<u128>, ids: seq<u16>, maxBytes: u16)
      returns (results: seq<AttributeResult>)
      ensures results == Combined(server.records, uuids, ids, maxBytes)
    {
      var search := server.SearchServices(uuids);
      ghost var records, whole := server.records, Combined(server.records, uuids, ids, maxBytes);
      results := [];
      var total: u16 := 0;
      var i := 0;
      ghost var room: nat := MAX_SERVICE_HANDLES;
      while i < |search.handles|
        invariant i <= |search.handles| && |results| + room == MAX_SERVICE_HANDLES
        invariant Ahead(whole, results, records, search.handles, ids, maxBytes, i, total, room)
      {
        AheadEnds(whole, results, records, search.handles, ids, maxBytes, i, total, room);
        if total >= maxBytes {
          return;
        }
        var answer := server.GetServiceAttributes(search.handles[i], ids);
        if answer.Ok? {
          var part := CutTo(answer.value, maxBytes - total);
          ghost var before := total;
          total := SaturatingAdd(total, part.size);
          if |results| >= MAX_SERVICE_HANDLES {
            return;
          }
          AheadAdds(whole, results, records, search.handles, ids, maxBytes, i, before, room, answer.value, part);
          results, room := results + [part], room - 1;
        } else {
          AheadSkips(whole, results, records, search.handles, ids, maxBytes, i, total, room);
        }
        i := i + 1;
      }
      AheadEnds(whole, results, records, search.handles, ids, maxBytes, i, total, room);
    }

    /** Cuts an answer that exceeds what remains of the budget. */
    method CutTo(answer: AttributeResult, remaining: u16) returns (part: AttributeResult)
      ensures part == Cut(answer, remaining)
    {
      part := answer;
      var size := if part.size < remaining then part.size else remaining;
      if part.size > size {
        part := AttributeResult(Truncate(part.attributes, size), size);
      }
    }
  }
}
