/** The encoding of attribute lists that the cursor parser inverts, and every outcome of parsing one element. */
module SdpEncoding {
  import opened Wrappers
  import opened Words
  import opened SdpRecord
  import opened SdpAttribute

  /** The width of a length field; the size index 5, 6 or 7 of the descriptor announces it. */
  datatype LengthForm = InByte | InWord | InLong

  function FormWidth(f: LengthForm): nat {
    match f
    case InByte => 1
    case InWord => 2
    case InLong => 4
  }

  function FormIndex(f: LengthForm): nat {
    match f
    case InByte => 5
    case InWord => 6
    case InLong => 7
  }

  /** Elements with a length field; every other one has the width its descriptor implies. */
  predicate Sized(e: DataElement) {
    e.TextString? || e.Url? || e.UuidList?
  }

  function EncodeItems(us: seq<u128>): (b: Bytes)
    ensures |b| == 16 * |us|
  {
    PowersOf256();
    if us == [] then [] else ToBe(us[0], 16) + EncodeItems(us[1..])
  }

  function Contents(e: DataElement): (b: Bytes)
    requires Sized(e)
    ensures |b| <= 128
  {
    match e
    case TextString(t) => t
    case Url(t) => t
    case UuidList(us) => EncodeItems(us)
  }

  /** The type of a sized element, in the upper five bits of its descriptor. */
  function SizedType(e: DataElement): nat
    requires Sized(e)
  {
    match e
    case TextString(_) => 4
    case UuidList(_) => 6
    case Url(_) => 8
  }

  function Width(e: DataElement): nat
    requires !Sized(e)
  {
    match e
    case Nil => 0
    case UnsignedInt8(_) => 1
    case SignedInt8(_) => 1
    case Boolean(_) => 1
    case UnsignedInt16(_) => 2
    case SignedInt16(_) => 2
    case Uuid16(_) => 2
    case UnsignedInt32(_) => 4
    case SignedInt32(_) => 4
    case Uuid32(_) => 4
    case Uuid128(_) => 16
  }

  /** The contents of a fixed element as a number; signed ones in two's complement. */
  function Number(e: DataElement): (v: nat)
    requires !Sized(e)
    ensures v < Pow256(Width(e))
  {
    PowersOf256();
    match e
    case Nil => 0
    case UnsignedInt8(v) => v
    case UnsignedInt16(v) => v
    case UnsignedInt32(v) => v
    case SignedInt8(v) => v % 0x100
    case SignedInt16(v) => v % 0x1_0000
    case SignedInt32(v) => v % 0x1_0000_0000
    case Boolean(b) => if b then 1 else 0
    case Uuid16(v) => v
    case Uuid32(v) => v
    case Uuid128(v) => v
  }

  function Descriptor(e: DataElement): u8
    requires !Sized(e)
  {
    match e
    case Nil => 0x00
    case UnsignedInt8(_) => 0x08
    case UnsignedInt16(_) => 0x09
    case UnsignedInt32(_) => 0x0A
    case SignedInt8(_) => 0x10
    case SignedInt16(_) => 0x11
    case SignedInt32(_) => 0x12
    case Uuid16(_) => 0x19
    case Uuid32(_) => 0x1A
    case Uuid128(_) => 0x1C
    case Boolean(_) => 0x28
  }

  /** A descriptor, a length in one of the three forms, and the contents. */
  function EncodeSized(kind: nat, f: LengthForm, contents: Bytes): Bytes
    requires kind <= 8 && |contents| < 0x100
  {
    PowersOf256();
    [(8 * kind + FormIndex(f)) as u8] + ToBe(|contents|, FormWidth(f)) + contents
  }

  /** An element with its length, if it has one, in the given form (Vol 3 Part B section 3.2). */
  function EncodeElement(e: DataElement, f: LengthForm): Bytes {
    if Sized(e) then EncodeSized(SizedType(e), f, Contents(e)) else [Descriptor(e)] + ToBe(Number(e), Width(e))
  }

  function EncodeEntry(a: AttributeEntry, f: LengthForm): Bytes {
    Be16(a.id) + EncodeElement(a.value, f)
  }

  /** The elements the parser can produce. */
  predicate Supported(e: DataElement) {
    e.Nil? || e.UnsignedInt8? || e.UnsignedInt16? || e.UnsignedInt32? || e.Uuid16? || e.Uuid32? || e.Uuid128?
    || e.TextString? || e.UuidList?
  }

  predicate AllSupported(list: Listing) {
    forall i :: 0 <= i < |list| ==> Supported(list[i].value)
  }

  /** The attributes of a list one after the other, each with the form chosen for it. */
  function EncodeAll(list: Listing, forms: seq<LengthForm>): Bytes
    requires |forms| == |list|
  {
    if list == [] then [] else EncodeEntry(list[0], forms[0]) + EncodeAll(list[1..], forms[1..])
  }

  lemma SizedSize(e: DataElement, f: LengthForm)
    requires Sized(e)
    ensures |EncodeElement(e, f)| == EncodedSize(e) + FormWidth(f) - 1
  {
  }

  /**
   The size accounted for an element of any kind is that of its encoding with an
   8-bit length; a wider length field makes the difference.
   */
  lemma EncodingHasEncodedSize(e: DataElement, f: LengthForm)
    ensures |EncodeElement(e, f)|
            == EncodedSize(e) + if e.TextString? || e.Url? || e.UuidList? then (match f
                                                                              case InByte => 0
                                                                              case InWord => 1
                                                                              case InLong => 3) else 0
  {
    if Sized(e) {
      SizedSize(e, f);
    }
  }

  // ----- Reading back -----

  /** The bytes b stand at position pos of data. */
  predicate At(data: Bytes, pos: nat, b: Bytes) {
    pos + |b| <= |data| && data[pos..pos + |b|] == b
  }

  lemma AtParts(data: Bytes, pos: nat, a: Bytes, b: Bytes, next: nat)
    requires At(data, pos, a + b) && next == pos + |a|
    ensures At(data, pos, a) && At(data, next, b)
  {
    var whole := data[pos..pos + |a + b|];
    assert a == whole[..|a|] == data[pos..pos + |a|];
    assert b == whole[|a|..] == data[pos + |a|..pos + |a| + |b|];
  }

  lemma FieldAt(data: Bytes, pos: nat, v: nat, n: nat)
    requires v < Pow256(n) && At(data, pos, ToBe(v, n))
    ensures Field(data, pos, n) == Some(v)
  {
    BeRoundTrip(v, n);
  }

  lemma UuidParsed(data: Bytes, pos: nat, u: u128)
    requires u < Pow256(16) && At(data, pos, ToBe(u, 16))
    ensures pos + 16 <= |data| && UuidAt(data, pos) == u
  {
    BeRoundTrip(u, 16);
  }

  lemma ItemsSplit(data: Bytes, pos: nat, us: seq<u128>)
    requires us != [] && At(data, pos, EncodeItems(us))
    ensures pos + 16 <= |data| && UuidAt(data, pos) == us[0] && At(data, pos + 16, EncodeItems(us[1..]))
  {
    PowersOf256();
    AtParts(data, pos, ToBe(us[0], 16), EncodeItems(us[1..]), pos + 16);
    UuidParsed(data, pos, us[0]);
  }

  lemma {:induction false} ItemsParsed(data: Bytes, pos: nat, us: seq<u128>, found: Uuids, end: nat)
    requires |found| + |us| <= MAX_UUIDS && At(data, pos, EncodeItems(us)) && end == pos + 16 * |us|
    ensures ParseItems(data, pos, end, found) == (Parsed(UuidList(found + us)), end)
    decreases |us|
  {
    if us == [] {
      assert found + us == found;
    } else {
      ItemsSplit(data, pos, us);
      ItemsParsed(data, pos + 16, us[1..], found + [us[0]], end);
      assert found + [us[0]] + us[1..] == found + us;
    }
  }

  lemma FirstByte(data: Bytes, pos: nat, d: u8)
    requires At(data, pos, [d])
    ensures pos < |data| && data[pos] == d
  {
    assert data[pos] == data[pos..pos + 1][0];
  }

  /** A descriptor followed by a big-endian field of n bytes. */
  lemma FixedParsed(data: Bytes, pos: nat, descriptor: u8, v: nat, n: nat)
    requires v < Pow256(n) && At(data, pos, [descriptor] + ToBe(v, n))
    ensures pos < |data| && data[pos] == descriptor && Field(data, pos + 1, n) == Some(v)
  {
    AtParts(data, pos, [descriptor], ToBe(v, n), pos + 1);
    FirstByte(data, pos, descriptor);
    FieldAt(data, pos + 1, v, n);
  }

  lemma LengthRead(data: Bytes, pos: nat, f: LengthForm, n: nat)
    requires Field(data, pos, FormWidth(f)) == Some(n)
    ensures ParseLength(data, pos, FormIndex(f)) == (Parsed(n), pos + FormWidth(f))
  {
  }

  /** The head of a sized element at pos: its descriptor and its length, with the contents from `start` on. */
  predicate Heads(data: Bytes, pos: nat, kind: nat, f: LengthForm, n: nat, start: nat) {
    && pos < |data| && data[pos] as nat == 8 * kind + FormIndex(f)
    && ParseLength(data, pos + 1, FormIndex(f)) == (Parsed(n), start)
  }

  lemma SizedParsed(data: Bytes, pos: nat, kind: nat, f: LengthForm, contents: Bytes,
                    n: nat, start: nat)
    requires kind <= 8 && |contents| < 0x100 && At(data, pos, EncodeSized(kind, f, contents))
    requires n == |contents| && start == pos + 1 + FormWidth(f)
    ensures Heads(data, pos, kind, f, n, start) && At(data, start, contents)
  {
    PowersOf256();
    var d: u8 := 8 * kind + FormIndex(f);
    var length := ToBe(n, FormWidth(f));
    assert [d] + length + contents == [d] + (length + contents);
    AtParts(data, pos, [d], length + contents, pos + 1);
    AtParts(data, pos + 1, length, contents, start);
    FirstByte(data, pos, d);
    FieldAt(data, pos + 1, n, FormWidth(f));
    LengthRead(data, pos + 1, f, n);
  }

  /** The element e is parsed from pos, and the cursor left at p. */
  predicate Reads(data: Bytes, pos: nat, e: DataElement, p: nat) {
    ParseElement(data, pos) == (Parsed(e), p)
  }

  lemma HeadedExtent(data: Bytes, pos: nat, f: LengthForm, n: nat, start: nat, end: nat)
    requires Heads(data, pos, 6, f, n, start) && end == start + n
    ensures SequenceExtent(data, pos) == Some(Extent(start, end))
  {
  }

  lemma HeadedSequence(data: Bytes, pos: nat, f: LengthForm, n: nat, start: nat, end: nat)
    requires Heads(data, pos, 6, f, n, start) && end == start + n
    ensures ParseElement(data, pos) == ParseItems(data, start, end, [])
  {
    HeadedExtent(data, pos, f, n, start, end);
    SequenceParsed(data, pos);
  }

  lemma AllItemsParsed(data: Bytes, pos: nat, us: Uuids, end: nat)
    requires At(data, pos, EncodeItems(us)) && end == pos + |EncodeItems(us)|
    ensures ParseItems(data, pos, end, []) == (Parsed(UuidList(us)), end)
  {
    ItemsParsed(data, pos, us, [], end);
    assert [] + us == us;
  }

  lemma HeadedItems(data: Bytes, pos: nat, us: Uuids, f: LengthForm, n: nat, start: nat, end: nat)
    requires Heads(data, pos, 6, f, n, start) && At(data, start, EncodeItems(us))
    requires n == |EncodeItems(us)| && end == start + n
    ensures ParseElement(data, pos) == (Parsed(UuidList(us)), end)
  {
    HeadedSequence(data, pos, f, n, start, end);
    AllItemsParsed(data, start, us, end);
  }

  lemma ListParsed(data: Bytes, pos: nat, us: Uuids, f: LengthForm, n: nat, start: nat, end: nat)
    requires At(data, pos, EncodeSized(6, f, EncodeItems(us))) && n == |EncodeItems(us)|
    requires start == pos + 1 + FormWidth(f) && end == start + n
    ensures ParseElement(data, pos) == (Parsed(UuidList(us)), end)
  {
    SizedParsed(data, pos, 6, f, EncodeItems(us), n, start);
    HeadedItems(data, pos, us, f, n, start, end);
  }

  lemma HeadedText(data: Bytes, pos: nat, f: LengthForm, n: nat, start: nat)
    requires Heads(data, pos, 4, f, n, start) && start + n <= |data| && n <= MAX_TEXT
    ensures Reads(data, pos, TextString(data[start..start + n]), start + n)
  {
  }

  lemma TextParsed(data: Bytes, pos: nat, text: Text, f: LengthForm, start: nat, end: nat)
    requires At(data, pos, EncodeSized(4, f, text))
    requires start == pos + 1 + FormWidth(f) && end == start + |text|
    ensures Reads(data, pos, TextString(text), end)
  {
    SizedParsed(data, pos, 4, f, text, |text|, start);
    HeadedText(data, pos, f, |text|, start);
  }

  lemma FixedElementParsed(data: Bytes, pos: nat, e: DataElement, p: nat)
    requires Supported(e) && !Sized(e) && pos < |data| && data[pos] == Descriptor(e)
    requires Field(data, pos + 1, Width(e)) == Some(Number(e)) && p == pos + 1 + Width(e)
    ensures Reads(data, pos, e, p)
  {
  }

  lemma FixedRead(data: Bytes, pos: nat, e: DataElement, f: LengthForm)
    requires !Sized(e) && At(data, pos, EncodeElement(e, f))
    ensures pos < |data| && data[pos] == Descriptor(e) && Field(data, pos + 1, Width(e)) == Some(Number(e))
  {
    FixedParsed(data, pos, Descriptor(e), Number(e), Width(e));
  }

  /**
   An encoded element, with a length field of any form, wherever it stands and
   whatever follows, is parsed back and consumed exactly.
   */
  lemma ElementRoundTrip(data: Bytes, pos: nat, e: DataElement, f: LengthForm, p: nat)
    requires Supported(e) && At(data, pos, EncodeElement(e, f)) && p == pos + |EncodeElement(e, f)|
    ensures ParseElement(data, pos) == (Parsed(e), p)
  {
    match e {
      case TextString(text) => TextParsed(data, pos, text, f, pos + 1 + FormWidth(f), p);
      case UuidList(us) => ListParsed(data, pos, us, f, 16 * |us|, pos + 1 + FormWidth(f), p);
      case _ =>
        FixedRead(data, pos, e, f);
        FixedElementParsed(data, pos, e, p);
    }
  }

  /** Every other element is refused at its descriptor. */
  lemma UnsupportedFails(data: Bytes, pos: nat, e: DataElement, f: LengthForm)
    requires !Supported(e) && At(data, pos, EncodeElement(e, f))
    ensures ParseElement(data, pos) == (Failed(InvalidData), pos + 1)
  {
    if e.Url? {
      SizedParsed(data, pos, 8, f, e.url, |e.url|, pos + 1 + FormWidth(f));
    } else {
      FixedRead(data, pos, e, f);
    }
  }

  // ----- Lists -----

  lemma EntryRoundTrip(data: Bytes, length: nat, pos: nat, a: AttributeEntry, f: LengthForm, p: nat)
    requires Supported(a.value) && pos < length && At(data, pos, EncodeEntry(a, f)) && p == pos + |EncodeEntry(a, f)|
    ensures Yields(data, length, pos, a, p)
  {
    AtParts(data, pos, Be16(a.id), EncodeElement(a.value, f), pos + 2);
    FromBe16(a.id);
    ElementRoundTrip(data, pos + 2, a.value, f, p);
    IdThenElement(data, length, pos, a, p);
  }

  lemma IdThenElement(data: Bytes, length: nat, pos: nat, a: AttributeEntry, p: nat)
    requires pos < length && At(data, pos, Be16(a.id)) && FromBe(Be16(a.id)) == a.id
    requires ParseElement(data, pos + 2) == (Parsed(a.value), p)
    ensures Yields(data, length, pos, a, p)
  {
  }

  lemma EntrySize(a: AttributeEntry, f: LengthForm)
    ensures |EncodeEntry(a, f)| >= 3
  {
    EncodingHasEncodedSize(a.value, f);
  }

  /** The encoded list stands at pos and fills the buffer. */
  predicate Remains(data: Bytes, pos: nat, list: Listing, forms: seq<LengthForm>) {
    && AllSupported(list) && |forms| == |list|
    && At(data, pos, EncodeAll(list, forms)) && pos + |EncodeAll(list, forms)| == |data|
  }

  /** The encoding of a list: that of its head, then that of its tail. */
  lemma RemainsParts(data: Bytes, pos: nat, list: Listing, forms: seq<LengthForm>) returns (p: nat)
    requires Remains(data, pos, list, forms) && list != []
    ensures Supported(list[0].value) && pos < |data| && At(data, pos, EncodeEntry(list[0], forms[0]))
    ensures p == pos + |EncodeEntry(list[0], forms[0])| && Remains(data, p, list[1..], forms[1..])
  {
    EntrySize(list[0], forms[0]);
    p := pos + |EncodeEntry(list[0], forms[0])|;
    AtParts(data, pos, EncodeEntry(list[0], forms[0]), EncodeAll(list[1..], forms[1..]), p);
  }

  lemma FirstEntryParsed(data: Bytes, pos: nat, list: Listing, forms: seq<LengthForm>) returns (p: nat)
    requires Remains(data, pos, list, forms) && list != []
    ensures Yields(data, |data|, pos, list[0], p) && Remains(data, p, list[1..], forms[1..])
  {
    p := RemainsParts(data, pos, list, forms);
    EntryRoundTrip(data, |data|, pos, list[0], forms[0], p);
  }

  lemma NothingRemains(data: Bytes, pos: nat)
    requires Remains(data, pos, [], [])
    ensures ParseAll(data, |data|, pos, 0) == Parse([], Parsed(None), |data|)
  {
  }

  /** Parsing from where an encoded list stands until the end of the buffer returns the list. */
  lemma {:induction false} RemainderRoundTrip(data: Bytes, pos: nat, list: Listing, forms: seq<LengthForm>, n: nat)
    requires Remains(data, pos, list, forms) && n == |list|
    ensures ParseAll(data, |data|, pos, n) == Parse(list, Parsed(None), |data|)
    decreases |list|
  {
    if list == [] {
      assert forms == [];
      NothingRemains(data, pos);
    } else {
      var p := FirstEntryParsed(data, pos, list, forms);
      ParseAllUnfolds(data, |data|, pos, n, list[0], p);
      RemainderRoundTrip(data, p, list[1..], forms[1..], n - 1);
      assert [list[0]] + list[1..] == list;
    }
  }

  /**
   Iterating the parser over the encoding of any list of supported attributes, with
   any choice of length forms, returns exactly that list and ends, complete, at the
   final byte.
   */
  lemma ListRoundTrip(list: Listing, forms: seq<LengthForm>)
    requires AllSupported(list) && |forms| == |list|
    ensures var data := EncodeAll(list, forms);
            ParseAll(data, |data|, 0, |list|) == Parse(list, Parsed(None), |data|)
  {
    var data := EncodeAll(list, forms);
    assert data[0..|data|] == data;
    RemainderRoundTrip(data, 0, list, forms, |list|);
  }

  // ----- Every other outcome -----

  /** Type and size index of a descriptor that begins no element. */
  predicate Unknown(kind: nat, index: nat) {
    || kind == 2 || kind == 5 || kind >= 7
    || (kind == 1 && index > 2)
    || (kind == 3 && index != 1 && index != 2 && index != 4)
    || ((kind == 4 || kind == 6) && index < 5)
  }

  /** Descriptors of type 0 stand for Nil whatever their size index; those of no element are refused. */
  lemma OtherDescriptors(data: Bytes, pos: nat)
    requires pos < |data|
    ensures data[pos] < 8 ==> ParseElement(data, pos) == (Parsed(Nil), pos + 1)
    ensures Unknown(data[pos] as nat / 8, data[pos] as nat % 8) ==>
              ParseElement(data, pos) == (Failed(InvalidData), pos + 1)
  {
  }

  /** A number, or the length field of a text or sequence, that the buffer cuts off. */
  lemma CutFieldFails(data: Bytes, pos: nat, e: DataElement, f: LengthForm)
    requires pos < |data|
    ensures Supported(e) && !Sized(e) && data[pos] == Descriptor(e) && pos + 1 + Width(e) > |data| ==>
              ParseElement(data, pos) == (Failed(InvalidData), pos + 1)
    ensures (data[pos] as nat == 0x20 + FormIndex(f) || data[pos] as nat == 0x30 + FormIndex(f))
            && pos + 1 + FormWidth(f) > |data| ==>
              ParseElement(data, pos) == (Failed(InvalidData), pos + 1)
  {
  }

  /** A text is refused past the end of the buffer, and beyond 64 bytes, with the cursor after its length field. */
  lemma TextOutcome(data: Bytes, pos: nat, f: LengthForm, n: nat, start: nat)
    requires Heads(data, pos, 4, f, n, start)
    ensures ParseElement(data, pos)
            == if start + n > |data| then (Failed(InvalidData), start)
               else if n > 64 then (Failed(TooManyServices), start)
               else (Parsed(TextString(data[start..start + n])), start + n)
  {
  }

  /** k raw items from pos on. */
  function UuidsAt(data: Bytes, pos: nat, k: nat): (us: seq<u128>)
    requires pos + 16 * k <= |data|
    ensures |us| == k
    decreases k
  {
    if k == 0 then [] else [UuidAt(data, pos)] + UuidsAt(data, pos + 16, k - 1)
  }

  function WholeItems(data: Bytes, pos: nat, end: nat): nat
    requires pos <= |data| && pos <= end
  {
    if (end - pos) / 16 < (|data| - pos) / 16 then (end - pos) / 16 else (|data| - pos) / 16
  }

  lemma WholeItemsNext(data: Bytes, pos: nat, end: nat)
    requires pos <= |data| && pos <= end
    ensures WholeItems(data, pos, end) > 0 <==> pos + 16 <= |data| && pos + 16 <= end
    ensures WholeItems(data, pos, end) > 0 ==>
              WholeItems(data, pos + 16, end) == WholeItems(data, pos, end) - 1
  {
    OneItemLess(|data| - pos);
    OneItemLess(end - pos);
  }

  lemma ItemsLieInside(data: Bytes, pos: nat, end: nat)
    requires pos <= |data| && pos <= end
    ensures pos + 16 * WholeItems(data, pos, end) <= |data|
  {
  }

  /** What the item loop ends with when k whole items lie ahead. */
  predicate EndsWith(data: Bytes, pos: nat, end: nat, found: Uuids, k: nat)
    requires pos + 16 * k <= |data|
  {
    && (|found| + k <= 8 ==>
          ParseItems(data, pos, end, found) == (Parsed(UuidList(found + UuidsAt(data, pos, k))), pos + 16 * k))
    && (|found| + k > 8 ==>
          ParseItems(data, pos, end, found) == (Failed(TooManyServices), pos + 16 * (8 - |found|)))
  }

  lemma NoItems(data: Bytes, pos: nat, end: nat, found: Uuids)
    requires pos <= |data| && pos <= end && WholeItems(data, pos, end) == 0
    requires !Overruns(data, pos, end, MAX_UUIDS - |found|)
    ensures EndsWith(data, pos, end, found, 0)
  {
    WholeItemsNext(data, pos, end);
    ItemsPanicExactly(data, pos, end, found);
    assert found + UuidsAt(data, pos, 0) == found;
  }

  lemma OneItemMore(data: Bytes, pos: nat, end: nat, found: Uuids, k: nat, more: Uuids)
    requires k > 0 && pos + 16 * k <= |data| && pos + 16 <= end && |found| < MAX_UUIDS
    requires more == found + [UuidAt(data, pos)] && EndsWith(data, pos + 16, end, more, k - 1)
    ensures EndsWith(data, pos, end, found, k)
  {
    if |found| + k <= 8 {
      assert more + UuidsAt(data, pos + 16, k - 1) == found + UuidsAt(data, pos, k);
    }
  }

  /** Unless they overrun the buffer, the whole items are collected up to eight, and a ninth is refused. */
  lemma {:induction false} ItemsOutcome(data: Bytes, pos: nat, end: nat, found: Uuids, k: nat)
    requires pos <= |data| && pos <= end && k == WholeItems(data, pos, end)
    requires !Overruns(data, pos, end, MAX_UUIDS - |found|)
    ensures pos + 16 * k <= |data| && EndsWith(data, pos, end, found, k)
    decreases |data| - pos
  {
    ItemsLieInside(data, pos, end);
    WholeItemsNext(data, pos, end);
    if k == 0 {
      NoItems(data, pos, end, found);
    } else if |found| < MAX_UUIDS {
      OverrunsFromNext(data, pos, end, MAX_UUIDS - |found|);
      ItemsOutcome(data, pos + 16, end, found + [UuidAt(data, pos)], k - 1);
      OneItemMore(data, pos, end, found, k, found + [UuidAt(data, pos)]);
    }
  }

  lemma AllItemsOutcome(data: Bytes, pos: nat, end: nat, k: nat)
    requires pos <= |data| && pos <= end && k == WholeItems(data, pos, end) && !Overruns(data, pos, end, MAX_UUIDS)
    ensures pos + 16 * k <= |data|
    ensures ParseItems(data, pos, end, [])
            == if k <= 8 then (Parsed(UuidList(UuidsAt(data, pos, k))), pos + 16 * k)
               else (Failed(TooManyServices), pos + 128)
  {
    ItemsOutcome(data, pos, end, [], k);
    if k <= 8 {
      assert [] + UuidsAt(data, pos, k) == UuidsAt(data, pos, k);
    }
  }

  /**
   A sequence that does not overrun the buffer yields its whole items, those the
   buffer holds, in order and at most eight.
   */
  lemma SequenceOutcome(data: Bytes, pos: nat, f: LengthForm, n: nat, start: nat, k: nat)
    requires Heads(data, pos, 6, f, n, start) && start <= |data| && !ElementOverruns(data, pos)
    requires k == if n / 16 < (|data| - start) / 16 then n / 16 else (|data| - start) / 16
    ensures start + 16 * k <= |data|
    ensures ParseElement(data, pos)
            == if k <= 8 then (Parsed(UuidList(UuidsAt(data, start, k))), start + 16 * k)
               else (Failed(TooManyServices), start + 128)
  {
    var end := start + n;
    HeadedExtent(data, pos, f, n, start, end);
    HeadedSequence(data, pos, f, n, start, end);
    AllItemsOutcome(data, start, end, k);
  }
}
