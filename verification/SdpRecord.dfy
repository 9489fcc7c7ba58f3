/** SDP data elements and service records (Vol 3 Part B section 3). */
module SdpRecord {
  import opened Wrappers
  import opened Words
  import opened IndexMap

  const MAX_ATTRIBUTES_PER_RECORD: nat := 32
  const MAX_SERVICE_RECORDS: nat := 16
  const MAX_TEXT: nat := 64
  const MAX_UUIDS: nat := 8

  const SERVICE_RECORD_HANDLE: u16 := 0x0000
  const SERVICE_CLASS_ID_LIST: u16 := 0x0001
  const SERVICE_RECORD_STATE: u16 := 0x0002

  type i8 = x: int | -0x80 <= x < 0x80
  type i16 = x: int | -0x8000 <= x < 0x8000
  type i32 = x: int | -0x8000_0000 <= x < 0x8000_0000
  type u128 = x: int | 0 <= x < 0x1_0000_0000_0000_0000_0000_0000_0000_0000

  type Text = t: seq<u8> | |t| <= MAX_TEXT
  type Uuids = u: seq<u128> | |u| <= MAX_UUIDS

  datatype SdpError = TooManyServices | ServiceNotFound | InvalidData

  datatype DataElement =
    | Nil
    | UnsignedInt8(v8: u8)
    | UnsignedInt16(v16: u16)
    | UnsignedInt32(v32: u32)
    | SignedInt8(s8: i8)
    | SignedInt16(s16: i16)
    | SignedInt32(s32: i32)
    | Uuid16(u16: u16)
    | Uuid32(u32: u32)
    | Uuid128(u128: u128)
    | TextString(text: Text)
    | Boolean(flag: bool)
    | Url(url: Text)
    | UuidList(uuids: Uuids)

  /** The bytes an element takes: type byte, 8-bit length where there is one, contents. */
  function EncodedSize(e: DataElement): (n: nat)
    ensures 1 <= n <= 130
  {
    1 + match e
        case Nil => 0
        case UnsignedInt8(_) => 1
        case SignedInt8(_) => 1
        case Boolean(_) => 1
        case UnsignedInt16(_) => 2
        case SignedInt16(_) => 2
        case Uuid16(_) => 2
        case UnsignedInt32(_) => 4
        case SignedInt32(_) => 4
        case Uuid32(_) => 4
        case Uuid128(_) => 16
        case TextString(t) => 1 + |t|
        case Url(t) => 1 + |t|
        case UuidList(us) => 1 + 16 * |us|
  }

  type Attributes = seq<Entry<u16, DataElement>>

  datatype ServiceRecord = ServiceRecord(handle: u32, attributes: Attributes, state: u32)

  function Bumped(state: u32): u32 {
    (state + 1) % 0x1_0000_0000
  }

  /** Stores an attribute and bumps the record state; a full record refuses a new identifier. */
  function AddAttribute(r: ServiceRecord, id: u16, value: DataElement): Result<ServiceRecord, SdpError> {
    match Insert(r.attributes, id, value, MAX_ATTRIBUTES_PER_RECORD)
    case None => Err(TooManyServices)
    case Some(attributes) => Ok(ServiceRecord(r.handle, attributes, Bumped(r.state)))
  }

  function GetAttribute(r: ServiceRecord, id: u16): Option<DataElement> {
    if Has(r.attributes, id) then Some(Get(r.attributes, id)) else None
  }

  ghost predicate RecordOk(r: ServiceRecord) {
    Distinct(r.attributes) && |r.attributes| <= MAX_ATTRIBUTES_PER_RECORD
  }

  /** A new record carries its handle, its first state and its one class. */
  function NewRecord(handle: u32, serviceClass: u128): ServiceRecord {
    ServiceRecord(handle,
                  [Entry(SERVICE_RECORD_HANDLE, UnsignedInt32(handle)),
                   Entry(SERVICE_RECORD_STATE, UnsignedInt32(1)),
                   Entry(SERVICE_CLASS_ID_LIST, UuidList([serviceClass]))], 1)
  }

  /**
   Adding stores exactly that attribute and keeps every other one; it fails only
   for a new identifier in a full record.
   */
  lemma AddAttributeEffect(r: ServiceRecord, id: u16, value: DataElement)
    requires RecordOk(r)
    ensures var a := AddAttribute(r, id, value);
            && (a.Err? <==> id !in AsMap(r.attributes) && |r.attributes| == MAX_ATTRIBUTES_PER_RECORD)
            && (a.Err? ==> a.error == TooManyServices)
            && (a.Ok? ==>
                  && RecordOk(a.value) && a.value.handle == r.handle
                  && AsMap(a.value.attributes) == AsMap(r.attributes)[id := value]
                  && a.value.state == (r.state + 1) % 0x1_0000_0000)
  {
    InsertAsMap(r.attributes, id, value, MAX_ATTRIBUTES_PER_RECORD);
  }

  lemma GetAttributeIsIn(r: ServiceRecord, id: u16)
    requires RecordOk(r)
    ensures GetAttribute(r, id) == if id in AsMap(r.attributes) then Some(AsMap(r.attributes)[id]) else None
  {
    HasIsIn(r.attributes, id);
  }
}
