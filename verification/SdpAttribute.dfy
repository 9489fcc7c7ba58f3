/** The cursor parser of SDP attribute lists, and the encoding it inverts. */
module SdpAttribute {
  import opened Wrappers
  import opened Words
  import opened SdpRecord

  datatype AttributeEntry = AttributeEntry(id: u16, value: DataElement)

  /** A parser step yields a value, reports an error, or reads outside the buffer and stops the program. */
  datatype Outcome<+T> = Parsed(value: T) | Failed(error: SdpError) | Panicked

  type Bytes = seq<u8>

  /** A big-endian field of n bytes at the cursor, if it lies in the buffer. */
  function Field(data: Bytes, pos: nat, n: nat): (v: Option<nat>)
    ensures v.Some? ==> v.value < Pow256(n)
  {
    if pos + n > |data| then None else Some(FromBe(data[pos..pos + n]))
  }

  lemma PowersOf256()
    ensures Pow256(1) == 0x100 && Pow256(2) == 0x1_0000 && Pow256(4) == 0x1_0000_0000
    ensures Pow256(16) == 0x1_0000_0000_0000_0000_0000_0000_0000_0000
  {
    assert Pow256(4) == 0x1_0000_0000;
    assert Pow256(8) == 0x1_0000_0000_0000_0000;
    assert Pow256(12) == 0x1_0000_0000_0000_0000_0000_0000;
  }

  function ParseUnsigned(data: Bytes, pos: nat, sizeIndex: nat): (Outcome<DataElement>, nat) {
    PowersOf256();
    var n := if sizeIndex == 0 then 1 else if sizeIndex == 1 then 2 else 4;
    if sizeIndex > 2 then (Failed(InvalidData), pos)
    else match Field(data, pos, n)
      case None => (Failed(InvalidData), pos)
      case Some(v) =>
        (Parsed(if sizeIndex == 0 then UnsignedInt8(v) else if sizeIndex == 1 then UnsignedInt16(v)
                else UnsignedInt32(v)),
         pos + n)
  }

  function ParseUuid(data: Bytes, pos: nat, sizeIndex: nat): (Outcome<DataElement>, nat) {
    PowersOf256();
    var n := if sizeIndex == 1 then 2 else if sizeIndex == 2 then 4 else 16;
    if sizeIndex != 1 && sizeIndex != 2 && sizeIndex != 4 then (Failed(InvalidData), pos)
    else match Field(data, pos, n)
      case None => (Failed(InvalidData), pos)
      case Some(v) =>
        (Parsed(if sizeIndex == 1 then Uuid16(v) else if sizeIndex == 2 then Uuid32(v) else Uuid128(v)), pos + n)
  }

  function ParseLength(data: Bytes, pos: nat, sizeIndex: nat): (Outcome<nat>, nat) {
    var n := if sizeIndex == 5 then 1 else if sizeIndex == 6 then 2 else if sizeIndex == 7 then 4 else 0;
    if n == 0 then (Failed(InvalidData), pos)
    else match Field(data, pos, n)
      case None => (Failed(InvalidData), pos)
      case Some(v) => (Parsed(v), pos + n)
  }

  function ParseText(data: Bytes, pos: nat, sizeIndex: nat): (Outcome<DataElement>, nat) {
    match ParseLength(data, pos, sizeIndex)
    case (Failed(e), p) => (Failed(e), p)
    case (Panicked, p) => (Panicked, p)
    case (Parsed(n), p) =>
      if p + n > |data| then (Failed(InvalidData), p)
      else if n > MAX_TEXT then (Failed(TooManyServices), p)
      else (Parsed(TextString(data[p..p + n])), p + n)
  }

  /** Sixteen bytes at the cursor as a UUID. */
  function UuidAt(data: Bytes, pos: nat): u128
    requires pos + 16 <= |data|
  {
    PowersOf256();
    FromBe(data[pos..pos + 16])
  }

  /** The raw 16-byte items of a sequence up to its declared end, which is not checked against the buffer. */
  function ParseItems(data: Bytes, pos: nat, end: nat, found: Uuids): (Outcome<DataElement>, nat)
    decreases |data| - pos
  {
    if pos < end && pos < |data| && pos + 16 <= end then
      if pos + 16 > |data| then (Panicked, pos)
      else if |found| == MAX_UUIDS then (Failed(TooManyServices), pos)
      else ParseItems(data, pos + 16, end, found + [UuidAt(data, pos)])
    else (Parsed(UuidList(found)), pos)
  }

  function ParseSequence(data: Bytes, pos: nat, sizeIndex: nat): (Outcome<DataElement>, nat) {
    match ParseLength(data, pos, sizeIndex)
    case (Failed(e), p) => (Failed(e), p)
    case (Panicked, p) => (Panicked, p)
    case (Parsed(n), p) => ParseItems(data, p, p + n, [])
  }

  /** One data element at the cursor, and where the cursor stops, also after an error. */
  function ParseElement(data: Bytes, pos: nat): (Outcome<DataElement>, nat) {
    if pos >= |data| then (Failed(InvalidData), pos)
    else
      var dataType, sizeIndex := data[pos] / 8, data[pos] % 8;
      match dataType
      case 0 => (Parsed(Nil), pos + 1)
      case 1 => ParseUnsigned(data, pos + 1, sizeIndex)
      case 3 => ParseUuid(data, pos + 1, sizeIndex)
      case 4 => ParseText(data, pos + 1, sizeIndex)
      case 6 => ParseSequence(data, pos + 1, sizeIndex)
      case _ => (Failed(InvalidData), pos + 1)
  }

  /** One attribute at the cursor; none when the declared length or the buffer is used up. */
  function NextEntry(data: Bytes, length: nat, pos: nat): (Outcome<Option<AttributeEntry>>, nat) {
    if pos >= length || pos >= |data| then (Parsed(None), pos)
    else if pos + 2 > |data| then (Failed(InvalidData), pos)
    else
      PowersOf256();
      var id: u16 := FromBe(data[pos..pos + 2]);
      match ParseElement(data, pos + 2)
      case (Failed(e), p) => (Failed(e), p)
      case (Panicked, p) => (Panicked, p)
      case (Parsed(v), p) => (Parsed(Some(AttributeEntry(id, v))), p)
  }

  class AttributeListParser {
    var position: nat
    const length: nat

    constructor (dataLength: nat)
      ensures position == 0 && length == dataLength
    {
      position := 0;
      length := dataLength;
    }

    predicate IsComplete()
      reads this
    {
      position >= length
    }

    method ParseItemsLoop(data: Bytes, end: nat) returns (r: Outcome<DataElement>)
      modifies this
      ensures (r, position) == ParseItems(data, old(position), end, [])
    {
      var found: Uuids := [];
      while position < end && position < |data|
        invariant ParseItems(data, old(position), end, []) == ParseItems(data, position, end, found)
        decreases |data| - position
      {
        if position + 16 <= end {
          if position + 16 > |data| {
            return Panicked;
          }
          var uuid := UuidAt(data, position);
          if |found| == MAX_UUIDS {
            return Failed(TooManyServices);
          }
          found := found + [uuid];
          position := position + 16;
        } else {
          break;
        }
      }
      r := Parsed(UuidList(found));
    }

    method ParseDataElement(data: Bytes) returns (r: Outcome<DataElement>)
      modifies this
      ensures (r, position) == ParseElement(data, old(position))
    {
      if position >= |data| {
        return Failed(InvalidData);
      }
      var descriptor := data[position];
      position := position + 1;
      var dataType, sizeIndex := descriptor / 8, descriptor % 8;
      if dataType == 0 {
        return Parsed(Nil);
      } else if dataType == 1 {
        r, position := ParseUnsigned(data, position, sizeIndex).0, ParseUnsigned(data, position, sizeIndex).1;
      } else if dataType == 3 {
        r, position := ParseUuid(data, position, sizeIndex).0, ParseUuid(data, position, sizeIndex).1;
      } else if dataType == 4 {
        r, position := ParseText(data, position, sizeIndex).0, ParseText(data, position, sizeIndex).1;
      } else if dataType == 6 {
        var (declared, start) := ParseLength(data, position, sizeIndex);
        position := start;
        match declared {
          case Failed(e) => return Failed(e);
          case Panicked => return Panicked;
          case Parsed(n) => r := ParseItemsLoop(data, position + n);
        }
      } else {
        return Failed(InvalidData);
      }
    }

    method ParseNext(data: Bytes) returns (r: Outcome<Option<AttributeEntry>>)
      modifies this
      ensures (r, position) == NextEntry(data, length, old(position))
    {
      if position >= length || position >= |data| {
        return Parsed(None);
      }
      if position + 2 > |data| {
        return Failed(InvalidData);
      }
      PowersOf256();
      var id: u16 := FromBe(data[position..position + 2]);
      position := position + 2;
      var value := ParseDataElement(data);
      match value {
        case Failed(e) => r := Failed(e);
        case Panicked => r := Panicked;
        case Parsed(v) => r := Parsed(Some(AttributeEntry(id, v)));
      }
    }
  }

  // ----- Iterating the parser -----

  type Listing = seq<AttributeEntry>

  /** A step at pos returns the entry a and leaves the cursor at p. */
  predicate Yields(data: Bytes, length: nat, pos: nat, a: AttributeEntry, p: nat) {
    NextEntry(data, length, pos) == (Parsed(Some(a)), p)
  }

  datatype Parse = Parse(entries: Listing, last: Outcome<Option<AttributeEntry>>, position: nat)

  /** At most `limit` entries parsed one after the other, and how and where parsing ended. */
  function ParseAll(data: Bytes, length: nat, pos: nat, limit: nat): Parse
    decreases limit
  {
    var (r, p) := NextEntry(data, length, pos);
    if limit == 0 || !r.Parsed? || r.value.None? then Parse([], r, p)
    else
      var rest := ParseAll(data, length, p, limit - 1);
      Parse([r.value.value] + rest.entries, rest.last, rest.position)
  }

  lemma ParseAllUnfolds(data: Bytes, length: nat, pos: nat, limit: nat, a: AttributeEntry, p: nat)
    requires limit > 0 && Yields(data, length, pos, a, p)
    ensures var rest := ParseAll(data, length, p, limit - 1);
            ParseAll(data, length, pos, limit) == Parse([a] + rest.entries, rest.last, rest.position)
  {
  }

  // ----- Progress, and the unchecked end of a sequence -----

  /**
   More items declared up to `end` than the buffer holds whole, part of one left
   over, and the whole ones fit `room`.
   */
  predicate Overruns(data: Bytes, pos: nat, end: nat, room: int)
    requires pos <= |data| && pos <= end
  {
    && (end - pos) / 16 > (|data| - pos) / 16
    && (|data| - pos) % 16 != 0
    && (|data| - pos) / 16 <= room
  }

  /** Where the items of the sequence at pos start, and their declared end. */
  datatype Extent = Extent(start: nat, end: nat)

  function SequenceExtent(data: Bytes, pos: nat): (e: Option<Extent>)
    ensures e.Some? ==> pos < e.value.start <= |data| && e.value.start <= e.value.end
  {
    if pos >= |data| || data[pos] / 8 != 6 then None
    else match ParseLength(data, pos + 1, data[pos] % 8)
      case (Parsed(n), start) => Some(Extent(start, start + n))
      case _ => None
  }

  /** The element at pos is a sequence that overruns the buffer. */
  predicate ElementOverruns(data: Bytes, pos: nat) {
    var e := SequenceExtent(data, pos);
    e.Some? && Overruns(data, e.value.start, e.value.end, MAX_UUIDS)
  }

  /** Every whole item the sequence at pos declares lies in the buffer; true of every other element. */
  predicate Fits(data: Bytes, pos: nat) {
    var e := SequenceExtent(data, pos);
    e.Some? ==> (e.value.end - e.value.start) / 16 <= (|data| - e.value.start) / 16
  }

  lemma SequenceParsed(data: Bytes, pos: nat)
    requires SequenceExtent(data, pos).Some?
    ensures var e := SequenceExtent(data, pos).value; ParseElement(data, pos) == ParseItems(data, e.start, e.end, [])
  {
  }

  /** Every element but a sequence is parsed inside the buffer. */
  lemma OthersStayInside(data: Bytes, pos: nat)
    requires SequenceExtent(data, pos).None? && pos <= |data|
    ensures var (r, p) := ParseElement(data, pos); !r.Panicked? && pos <= p <= |data| && (r.Parsed? ==> pos < p)
  {
  }

  lemma {:induction false} ItemsAdvance(data: Bytes, pos: nat, end: nat, found: Uuids)
    requires pos <= |data| && pos <= end
    ensures pos <= ParseItems(data, pos, end, found).1 <= |data|
    decreases |data| - pos
  {
    if pos + 16 <= end && pos + 16 <= |data| && |found| < MAX_UUIDS {
      ItemsAdvance(data, pos + 16, end, found + [UuidAt(data, pos)]);
    }
  }

  lemma OneItemLess(n: int)
    ensures (n - 16) / 16 == n / 16 - 1 && (n - 16) % 16 == n % 16
  {
  }

  lemma OverrunsFromNext(data: Bytes, pos: nat, end: nat, room: int)
    requires pos + 16 <= |data| && pos + 16 <= end
    ensures Overruns(data, pos, end, room) <==> Overruns(data, pos + 16, end, room - 1)
  {
    OneItemLess(|data| - pos);
    OneItemLess(end - pos);
  }

  lemma {:induction false} ItemsPanicExactly(data: Bytes, pos: nat, end: nat, found: Uuids)
    requires pos <= |data| && pos <= end
    ensures ParseItems(data, pos, end, found).0.Panicked? <==> Overruns(data, pos, end, MAX_UUIDS - |found|)
    decreases |data| - pos
  {
    if pos + 16 <= end && pos + 16 <= |data| && |found| < MAX_UUIDS {
      ItemsPanicExactly(data, pos + 16, end, found + [UuidAt(data, pos)]);
      OverrunsFromNext(data, pos, end, MAX_UUIDS - |found|);
    }
  }

  /**
   An element stops the program exactly when it is a sequence that declares more
   items than the buffer holds whole, a part of one is left over, and the whole
   ones fit the list.
   */
  lemma SequencePanicsExactly(data: Bytes, pos: nat)
    ensures ParseElement(data, pos).0.Panicked? <==> ElementOverruns(data, pos)
  {
    match SequenceExtent(data, pos) {
      case None =>
        if pos <= |data| {
          OthersStayInside(data, pos);
        }
      case Some(e) =>
        SequenceParsed(data, pos);
        ItemsPanicExactly(data, e.start, e.end, []);
    }
  }

  lemma FittingDoesNotOverrun(data: Bytes, pos: nat)
    requires Fits(data, pos)
    ensures !ElementOverruns(data, pos)
  {
  }

  lemma ElementStaysInside(data: Bytes, pos: nat)
    requires pos <= |data|
    ensures var (r, p) := ParseElement(data, pos); pos <= p <= |data| && (r.Parsed? ==> pos < p)
  {
    match SequenceExtent(data, pos) {
      case None => OthersStayInside(data, pos);
      case Some(e) =>
        SequenceParsed(data, pos);
        ItemsAdvance(data, e.start, e.end, []);
    }
  }

  /**
   A step stays inside the buffer, takes at least three bytes for an entry, and
   panics exactly when its element overruns.
   */
  lemma StepsAdvance(data: Bytes, length: nat, pos: nat)
    requires pos <= |data|
    ensures var (r, p) := NextEntry(data, length, pos);
            && pos <= p <= |data|
            && (r.Parsed? && r.value.Some? ==> pos + 3 <= p)
            && (r.Panicked? <==> pos < length && ElementOverruns(data, pos + 2))
  {
    SequencePanicsExactly(data, pos + 2);
    if pos + 2 <= |data| {
      ElementStaysInside(data, pos + 2);
    }
  }

  /**
   Iteration ends by itself within a third of the remaining bytes, with the cursor
   inside the buffer, whatever the data.
   */
  lemma {:induction false} IterationEnds(data: Bytes, length: nat, pos: nat, limit: nat)
    requires pos <= |data| && |data| - pos < 3 * limit + 3
    ensures var all := ParseAll(data, length, pos, limit);
            && !(all.last.Parsed? && all.last.value.Some?)
            && pos + 3 * |all.entries| <= all.position <= |data|
    decreases limit
  {
    StepsAdvance(data, length, pos);
    var (r, p) := NextEntry(data, length, pos);
    if r.Parsed? && r.value.Some? && limit > 0 {
      IterationEnds(data, length, p, limit - 1);
    }
  }

  /** Where the elements stand that an iteration comes to. */
  function ReachedElements(data: Bytes, length: nat, pos: nat, limit: nat): seq<nat>
    decreases limit
  {
    if pos >= length || pos + 2 > |data| then []
    else
      var (r, p) := NextEntry(data, length, pos);
      [pos + 2] + if limit > 0 && r.Parsed? && r.value.Some? then ReachedElements(data, length, p, limit - 1) else []
  }

  ghost predicate SomeOverruns(data: Bytes, reached: seq<nat>) {
    exists k :: k in reached && ElementOverruns(data, k)
  }

  lemma SomeOverrunsCons(data: Bytes, k: nat, reached: seq<nat>)
    ensures SomeOverruns(data, [k] + reached) <==> ElementOverruns(data, k) || SomeOverruns(data, reached)
    ensures SomeOverruns(data, [k]) <==> ElementOverruns(data, k)
  {
    assert [k][0] == k && ([k] + reached)[0] == k;
    forall x | x in [k] + reached ensures x == k || x in reached {
    }
    forall x | x in reached ensures x in [k] + reached {
    }
  }

  lemma ReachedUnfolds(data: Bytes, length: nat, pos: nat, limit: nat, a: AttributeEntry, p: nat)
    requires limit > 0 && Yields(data, length, pos, a, p)
    ensures ReachedElements(data, length, pos, limit) == [pos + 2] + ReachedElements(data, length, p, limit - 1)
  {
  }

  lemma IterationStops(data: Bytes, length: nat, pos: nat, limit: nat, r: Outcome<Option<AttributeEntry>>, p: nat)
    requires NextEntry(data, length, pos) == (r, p) && (limit == 0 || !r.Parsed? || r.value.None?)
    ensures ParseAll(data, length, pos, limit) == Parse([], r, p)
    ensures ReachedElements(data, length, pos, limit)
            == if pos >= length || pos + 2 > |data| then [] else [pos + 2]
  {
  }

  lemma EntryDoesNotOverrun(data: Bytes, length: nat, pos: nat, a: AttributeEntry, p: nat)
    requires pos <= |data| && Yields(data, length, pos, a, p)
    ensures p <= |data| && !ElementOverruns(data, pos + 2)
  {
    StepsAdvance(data, length, pos);
  }

  lemma SomeReached(data: Bytes, length: nat, pos: nat, limit: nat, a: AttributeEntry, p: nat)
    requires limit > 0 && Yields(data, length, pos, a, p) && !ElementOverruns(data, pos + 2)
    ensures SomeOverruns(data, ReachedElements(data, length, pos, limit))
            <==> SomeOverruns(data, ReachedElements(data, length, p, limit - 1))
  {
    ReachedUnfolds(data, length, pos, limit, a, p);
    SomeOverrunsCons(data, pos + 2, ReachedElements(data, length, p, limit - 1));
  }

  lemma LastStepPanicsExactly(data: Bytes, length: nat, pos: nat, limit: nat,
                              r: Outcome<Option<AttributeEntry>>, p: nat)
    requires pos <= |data| && NextEntry(data, length, pos) == (r, p) && (limit == 0 || !r.Parsed? || r.value.None?)
    ensures ParseAll(data, length, pos, limit).last.Panicked?
            <==> SomeOverruns(data, ReachedElements(data, length, pos, limit))
  {
    IterationStops(data, length, pos, limit, r, p);
    StepsAdvance(data, length, pos);
    SomeOverrunsCons(data, pos + 2, []);
  }

  /** An iteration panics exactly when an element it comes to overruns. */
  lemma {:induction false} IterationPanicsExactly(data: Bytes, length: nat, pos: nat, limit: nat)
    requires pos <= |data|
    ensures ParseAll(data, length, pos, limit).last.Panicked?
            <==> SomeOverruns(data, ReachedElements(data, length, pos, limit))
    decreases limit
  {
    var (r, p) := NextEntry(data, length, pos);
    if limit > 0 && r.Parsed? && r.value.Some? {
      EntryDoesNotOverrun(data, length, pos, r.value.value, p);
      IterationPanicsExactly(data, length, p, limit - 1);
      ParseAllUnfolds(data, length, pos, limit, r.value.value, p);
      SomeReached(data, length, pos, limit, r.value.value, p);
    } else {
      LastStepPanicsExactly(data, length, pos, limit, r, p);
    }
  }

  /** With the whole items of every element it comes to in the buffer, an iteration never panics. */
  lemma IterationIsSafe(data: Bytes, length: nat, pos: nat, limit: nat)
    requires pos <= |data|
    requires forall k :: k in ReachedElements(data, length, pos, limit) ==> Fits(data, k)
    ensures !ParseAll(data, length, pos, limit).last.Panicked?
  {
    IterationPanicsExactly(data, length, pos, limit);
    forall k | k in ReachedElements(data, length, pos, limit) ensures !ElementOverruns(data, k) {
      FittingDoesNotOverrun(data, k);
    }
  }

  // ----- What a successful parse depends on -----

  /** The buffers agree on their first p bytes. */
  predicate SameUpTo(data: Bytes, other: Bytes, p: nat) {
    p <= |data| && p <= |other| && data[..p] == other[..p]
  }

  lemma SameSlice(data: Bytes, other: Bytes, p: nat, i: nat, j: nat)
    requires SameUpTo(data, other, p) && i <= j <= p
    ensures data[i..j] == other[i..j]
  {
    assert data[i..j] == data[..p][i..j];
    assert other[i..j] == other[..p][i..j];
  }

  lemma {:induction false} ItemsUnchanged(data: Bytes, other: Bytes, pos: nat, end: nat, found: Uuids)
    requires pos <= |data| && pos <= end && (end - pos) / 16 <= (|data| - pos) / 16
    requires ParseItems(data, pos, end, found).0.Parsed?
    requires SameUpTo(data, other, ParseItems(data, pos, end, found).1)
    ensures ParseItems(other, pos, end, found) == ParseItems(data, pos, end, found)
    decreases |data| - pos
  {
    var p := ParseItems(data, pos, end, found).1;
    if pos + 16 <= end {
      ItemsAdvance(data, pos + 16, end, found + [UuidAt(data, pos)]);
      SameSlice(data, other, p, pos, pos + 16);
      ItemsUnchanged(data, other, pos + 16, end, found + [UuidAt(data, pos)]);
    }
  }

  lemma FieldUnchanged(data: Bytes, other: Bytes, p: nat, pos: nat, n: nat)
    requires SameUpTo(data, other, p) && pos + n <= p
    ensures Field(other, pos, n) == Field(data, pos, n)
  {
    SameSlice(data, other, p, pos, pos + n);
  }

  lemma LengthUnchanged(data: Bytes, other: Bytes, p: nat, pos: nat, sizeIndex: nat)
    requires ParseLength(data, pos, sizeIndex).0.Parsed?
    requires SameUpTo(data, other, p) && ParseLength(data, pos, sizeIndex).1 <= p
    ensures ParseLength(other, pos, sizeIndex) == ParseLength(data, pos, sizeIndex)
  {
    FieldUnchanged(data, other, p, pos, ParseLength(data, pos, sizeIndex).1 - pos);
  }

  lemma ExtentUnchanged(data: Bytes, other: Bytes, p: nat, pos: nat)
    requires SequenceExtent(data, pos).Some? && SameUpTo(data, other, p) && SequenceExtent(data, pos).value.start <= p
    ensures SequenceExtent(other, pos) == SequenceExtent(data, pos)
  {
    assert data[pos] == data[..p][pos] == other[..p][pos] == other[pos];
    LengthUnchanged(data, other, p, pos + 1, data[pos] % 8);
  }

  lemma SequenceUnchanged(data: Bytes, other: Bytes, pos: nat)
    requires SequenceExtent(data, pos).Some? && Fits(data, pos) && ParseElement(data, pos).0.Parsed?
    requires SameUpTo(data, other, ParseElement(data, pos).1)
    ensures ParseElement(other, pos) == ParseElement(data, pos)
  {
    var e, p := SequenceExtent(data, pos).value, ParseElement(data, pos).1;
    SequenceParsed(data, pos);
    ItemsAdvance(data, e.start, e.end, []);
    ExtentUnchanged(data, other, p, pos);
    ItemsUnchanged(data, other, e.start, e.end, []);
    SequenceParsed(other, pos);
  }

  lemma OthersUnchanged(data: Bytes, other: Bytes, pos: nat)
    requires pos <= |data| && SequenceExtent(data, pos).None? && ParseElement(data, pos).0.Parsed?
    requires SameUpTo(data, other, ParseElement(data, pos).1)
    ensures ParseElement(other, pos) == ParseElement(data, pos)
  {
    var p := ParseElement(data, pos).1;
    OthersStayInside(data, pos);
    assert data[pos] == data[..p][pos] == other[..p][pos] == other[pos];
    if data[pos] / 8 == 4 {
      TextUnchanged(data, other, pos + 1, data[pos] % 8);
    } else if data[pos] / 8 == 1 || data[pos] / 8 == 3 {
      FieldUnchanged(data, other, p, pos + 1, p - pos - 1);
    }
  }

  lemma TextUnchanged(data: Bytes, other: Bytes, pos: nat, sizeIndex: nat)
    requires pos <= |data| && ParseText(data, pos, sizeIndex).0.Parsed?
    requires SameUpTo(data, other, ParseText(data, pos, sizeIndex).1)
    ensures ParseText(other, pos, sizeIndex) == ParseText(data, pos, sizeIndex)
  {
    var p := ParseText(data, pos, sizeIndex).1;
    LengthUnchanged(data, other, p, pos, sizeIndex);
    var (n, start) := ParseLength(data, pos, sizeIndex);
    SameSlice(data, other, p, start, start + n.value);
  }

  lemma SuccessIsStable(data: Bytes, other: Bytes, pos: nat)
    requires Fits(data, pos) && ParseElement(data, pos).0.Parsed?
    requires SameUpTo(data, other, ParseElement(data, pos).1)
    ensures ParseElement(other, pos) == ParseElement(data, pos)
  {
    if SequenceExtent(data, pos).Some? {
      SequenceUnchanged(data, other, pos);
    } else {
      OthersUnchanged(data, other, pos);
    }
  }

  /** A sequence that ends for want of data used the buffer up, with room in the list. */
  lemma {:induction false} ItemsStopShort(data: Bytes, pos: nat, end: nat, found: Uuids)
    requires pos <= |data| && pos <= end && (end - pos) / 16 > (|data| - pos) / 16
    requires ParseItems(data, pos, end, found).0.Parsed?
    ensures (|data| - pos) % 16 == 0 && |found| + (|data| - pos) / 16 <= MAX_UUIDS
    ensures ParseItems(data, pos, end, found).1 == |data|
    decreases |data| - pos
  {
    if pos < |data| {
      OneItemLess(|data| - pos);
      OneItemLess(end - pos);
      ItemsStopShort(data, pos + 16, end, found + [UuidAt(data, pos)]);
    }
  }

  lemma ShortByOne(data: Bytes, start: nat, end: nat)
    requires start <= |data| && start <= end && (end - start) / 16 > (|data| - start) / 16
    requires (|data| - start) % 16 == 0 && (|data| - start) / 16 <= MAX_UUIDS
    ensures Overruns(data + [0], start, end, MAX_UUIDS)
  {
    var w := (|data| - start) / 16;
    assert |data + [0]| - start == 16 * w + 1;
  }

  /** One more byte then makes the same sequence panic. */
  lemma OneMoreBytePanics(data: Bytes, pos: nat)
    requires ParseElement(data, pos).0.Parsed? && !Fits(data, pos)
    ensures ParseElement(data, pos).1 == |data| && ParseElement(data + [0], pos).0.Panicked?
  {
    var other, e := data + [0], SequenceExtent(data, pos).value;
    SequenceParsed(data, pos);
    ItemsStopShort(data, e.start, e.end, []);
    assert other[..|data|] == data[..|data|];
    ExtentUnchanged(data, other, |data|, pos);
    SequenceParsed(other, pos);
    ShortByOne(data, e.start, e.end);
    ItemsPanicExactly(other, e.start, e.end, []);
  }

  /** A successful parse depends on the bytes it consumed and on no others exactly when its whole items fit. */
  lemma SuccessIsStableExactly(data: Bytes, pos: nat)
    requires ParseElement(data, pos).0.Parsed?
    ensures (forall other :: SameUpTo(data, other, ParseElement(data, pos).1) ==>
                               ParseElement(other, pos) == ParseElement(data, pos))
            <==> Fits(data, pos)
  {
    var p := ParseElement(data, pos).1;
    if Fits(data, pos) {
      forall other | SameUpTo(data, other, p) ensures ParseElement(other, pos) == ParseElement(data, pos) {
        SuccessIsStable(data, other, pos);
      }
    } else {
      OneMoreBytePanics(data, pos);
      assert SameUpTo(data, data + [0], p);
    }
  }

  lemma EntryIsStable(data: Bytes, other: Bytes, length: nat, pos: nat)
    requires var (r, p) := NextEntry(data, length, pos); r.Parsed? && r.value.Some? && SameUpTo(data, other, p)
    requires ParseElement(other, pos + 2) == ParseElement(data, pos + 2) && pos + 2 <= NextEntry(data, length, pos).1
    ensures NextEntry(other, length, pos) == NextEntry(data, length, pos)
  {
    SameSlice(data, other, NextEntry(data, length, pos).1, pos, pos + 2);
  }

  /** The same for a whole step that returned an entry. */
  lemma EntryIsStableExactly(data: Bytes, length: nat, pos: nat)
    requires var r := NextEntry(data, length, pos).0; r.Parsed? && r.value.Some?
    ensures (forall other :: SameUpTo(data, other, NextEntry(data, length, pos).1) ==>
                               NextEntry(other, length, pos) == NextEntry(data, length, pos))
            <==> Fits(data, pos + 2)
  {
    var p := NextEntry(data, length, pos).1;
    StepsAdvance(data, length, pos);
    if Fits(data, pos + 2) {
      forall other | SameUpTo(data, other, p) ensures NextEntry(other, length, pos) == NextEntry(data, length, pos) {
        SuccessIsStable(data, other, pos + 2);
        EntryIsStable(data, other, length, pos);
      }
    } else {
      var other := data + [0];
      OneMoreBytePanics(data, pos + 2);
      assert SameUpTo(data, other, p);
      StepsAdvance(other, length, pos);
      SequencePanicsExactly(other, pos + 2);
    }
  }
}
