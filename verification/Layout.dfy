/**
 The wire forms in numbers: which byte of a frame, a signalling command or an ACL
 packet says what. Words are little-endian.
 */
module Layout {
  import opened Wrappers
  import opened Words
  import opened Channel
  import opened Packet
  import opened Signaling
  import opened Processor
  import opened Acl

  /** The bytes i and i + 1 hold v. */
  predicate Holds(b: seq<u8>, i: nat, v: nat) {
    i + 1 < |b| && b[i] as nat + 0x100 * b[i + 1] as nat == v
  }

  lemma Le16Holds(before: seq<u8>, v: u16, after: seq<u8>)
    ensures Holds(before + Le16(v) + after, |before|, v)
  {
    var b := before + Le16(v) + after;
    assert b[|before|] == Le16(v)[0] && b[|before| + 1] == Le16(v)[1];
  }

  /** A word is read from the place that holds it. */
  lemma WordHeld(b: seq<u8>, i: nat, v: u16)
    requires i + 1 < |b|
    ensures FromLe16(b[i], b[i + 1]) == v <==> Holds(b, i, v)
  {
  }

  // ----- Signalling commands (Vol 3 Part A sections 4.1 to 4.11) -----

  predicate ConnectionWord(r: ConnectionResult, w: int) {
    match r
    case ConnSuccess => w == 0
    case ConnPending => w == 1
    case PsmNotSupported => w == 2
    case SecurityBlock => w == 3
    case NoResources => w == 4
    case InvalidSourceCid => w == 6
    case SourceCidAlreadyAllocated => w == 7
  }

  predicate ConfigurationWord(r: ConfigurationResult, w: int) {
    match r
    case ConfSuccess => w == 0
    case UnacceptableParameters => w == 1
    case Rejected => w == 2
    case UnknownOptions => w == 3
    case ConfPending => w == 4
    case FlowSpecRejected => w == 5
  }

  /** The codes that carry bytes the host does not interpret. */
  predicate OpaqueCode(code: SignalingCode, n: int) {
    || (code.CommandReject? && n == 0x01)
    || (code.EchoRequest? && n == 0x08)
    || (code.EchoResponse? && n == 0x09)
    || (code.InformationRequest? && n == 0x0A)
    || (code.InformationResponse? && n == 0x0B)
  }

  predicate HeaderLaidOut(b: seq<u8>, h: SignalingHeader) {
    |b| >= 4 && b[1] == h.identifier && Holds(b, 2, h.length)
  }

  predicate TwoWordsLaidOut(b: seq<u8>, v: u16, w: u16) {
    |b| >= 8 && Holds(b, 4, v) && Holds(b, 6, w)
  }

  /** The bytes b, header first, say the command c; bytes after the fields of a fixed form say nothing. */
  predicate LaidOut(b: seq<u8>, c: SignalingCommand) {
    && HeaderLaidOut(b, c.header)
    && match c
       case ConnectionRequest(h, psm, src) => b[0] == 0x02 && h.code.ConnReq? && TwoWordsLaidOut(b, psm, src)
       case ConnectionResponse(h, dst, src, result, status) =>
         && b[0] == 0x03 && h.code.ConnRsp? && |b| >= 12 && TwoWordsLaidOut(b, dst, src)
         && ConnectionWord(result, b[8] as int + 0x100 * b[9] as int) && Holds(b, 10, status)
       case ConfigurationRequest(h, dst, flags, options) =>
         b[0] == 0x04 && h.code.ConfReq? && TwoWordsLaidOut(b, dst, flags) && options == b[8..]
       case ConfigurationResponse(h, src, flags, result, options) =>
         && b[0] == 0x05 && h.code.ConfRsp? && |b| >= 10 && TwoWordsLaidOut(b, src, flags)
         && ConfigurationWord(result, b[8] as int + 0x100 * b[9] as int) && options == b[10..]
       case DisconnectionRequest(h, dst, src) => b[0] == 0x06 && h.code.DiscReq? && TwoWordsLaidOut(b, dst, src)
       case DisconnectionResponse(h, dst, src) => b[0] == 0x07 && h.code.DiscRsp? && TwoWordsLaidOut(b, dst, src)
       case Unknown(h, data) => OpaqueCode(h.code, b[0]) && data == b[4..]
  }

  /** How many bytes a command takes. */
  function FrameSize(c: SignalingCommand): nat {
    match c
    case ConnectionRequest(_, _, _) => 8
    case ConnectionResponse(_, _, _, _, _) => 12
    case ConfigurationRequest(_, _, _, options) => 8 + |options|
    case ConfigurationResponse(_, _, _, _, options) => 10 + |options|
    case DisconnectionRequest(_, _, _) => 8
    case DisconnectionResponse(_, _, _) => 8
    case Unknown(_, data) => 4 + |data|
  }

  /** The bytes whose number is not in a header: options and uninterpreted data. */
  function Tail(c: SignalingCommand): seq<u8> {
    match c
    case ConfigurationRequest(_, _, _, options) => options
    case ConfigurationResponse(_, _, _, _, options) => options
    case Unknown(_, data) => data
    case _ => []
  }

  // ----- Printing -----

  lemma HeaderPrinted(h: SignalingHeader, payload: seq<u8>)
    ensures var b := CommandHeaderBytes(h) + payload;
            HeaderLaidOut(b, h) && b[0] == CodeToByte(h.code) && b[4..] == payload
  {
    Le16Holds([CodeToByte(h.code), h.identifier], h.length, payload);
    assert CommandHeaderBytes(h) + payload == [CodeToByte(h.code), h.identifier] + Le16(h.length) + payload;
  }

  lemma WordsPrinted(head: seq<u8>, v: u16, w: u16, rest: seq<u8>)
    requires |head| == 4
    ensures var b := head + (Le16(v) + Le16(w) + rest);
            TwoWordsLaidOut(b, v, w) && b[8..] == rest
  {
    var b := head + (Le16(v) + Le16(w) + rest);
    Le16Holds(head, v, Le16(w) + rest);
    Le16Holds(head + Le16(v), w, rest);
    assert b == head + Le16(v) + (Le16(w) + rest) == head + Le16(v) + Le16(w) + rest;
  }

  lemma ThirdWordPrinted(head: seq<u8>, v: u16, w: u16, x: u16, rest: seq<u8>)
    requires |head| == 4
    ensures var b := head + (Le16(v) + Le16(w) + Le16(x) + rest);
            TwoWordsLaidOut(b, v, w) && Holds(b, 8, x) && b[10..] == rest
  {
    var b := head + (Le16(v) + Le16(w) + Le16(x) + rest);
    WordsPrinted(head, v, w, Le16(x) + rest);
    assert b == head + (Le16(v) + Le16(w) + (Le16(x) + rest));
    Le16Holds(head + Le16(v) + Le16(w), x, rest);
    assert b == head + Le16(v) + Le16(w) + Le16(x) + rest;
  }

  lemma ConnectionResponsePrinted(head: seq<u8>, c: SignalingCommand)
    requires |head| == 4 && c.ConnectionResponse?
    ensures var b := head + Payload(c);
            && |b| == 12 && TwoWordsLaidOut(b, c.destinationCid, c.sourceCid)
            && ConnectionWord(c.result, b[8] as int + 0x100 * b[9] as int) && Holds(b, 10, c.status)
  {
    var word := ConnectionResultToWord(c.result);
    ThirdWordPrinted(head, c.destinationCid, c.sourceCid, word, Le16(c.status));
    var fields := Le16(c.destinationCid) + Le16(c.sourceCid) + Le16(word);
    Le16Holds(head + fields, c.status, []);
    assert head + Payload(c) == head + fields + Le16(c.status) + [];
  }

  lemma ConfigurationResponsePrinted(head: seq<u8>, c: SignalingCommand)
    requires |head| == 4 && c.ConfigurationResponse?
    ensures var b := head + Payload(c);
            && |b| >= 10 && TwoWordsLaidOut(b, c.sourceCid, c.flags)
            && ConfigurationWord(c.confResult, b[8] as int + 0x100 * b[9] as int) && b[10..] == c.options
  {
    ThirdWordPrinted(head, c.sourceCid, c.flags, ConfigurationResultToWord(c.confResult), c.options);
  }

  lemma TwoFieldsPrinted(head: seq<u8>, v: u16, w: u16)
    requires |head| == 4
    ensures TwoWordsLaidOut(head + (Le16(v) + Le16(w)), v, w)
  {
    WordsPrinted(head, v, w, []);
    assert Le16(v) + Le16(w) + [] == Le16(v) + Le16(w);
  }

  /** Every command that its header names and that fits is printed in the layout of its kind. */
  lemma PrintedLayout(c: SignalingCommand)
    requires CodeMatches(c) && CommandBytes(c).Ok?
    ensures var b := CommandBytes(c).value; LaidOut(b, c) && |b| == FrameSize(c)
  {
    var head := CommandHeaderBytes(c.header);
    HeaderPrinted(c.header, Payload(c));
    match c {
      case ConnectionRequest(_, psm, src) => TwoFieldsPrinted(head, psm, src);
      case ConnectionResponse(_, _, _, _, _) => ConnectionResponsePrinted(head, c);
      case ConfigurationRequest(_, dst, flags, options) => WordsPrinted(head, dst, flags, options);
      case ConfigurationResponse(_, _, _, _, _) => ConfigurationResponsePrinted(head, c);
      case DisconnectionRequest(_, dst, src) => TwoFieldsPrinted(head, dst, src);
      case DisconnectionResponse(_, dst, src) => TwoFieldsPrinted(head, dst, src);
      case Unknown(_, _) =>
    }
  }

  // ----- Parsing -----

  /** The code read from a byte, or none. */
  predicate CodeIs(code: SignalingCode, n: int) {
    || OpaqueCode(code, n)
    || (code.ConnReq? && n == 0x02) || (code.ConnRsp? && n == 0x03)
    || (code.ConfReq? && n == 0x04) || (code.ConfRsp? && n == 0x05)
    || (code.DiscReq? && n == 0x06) || (code.DiscRsp? && n == 0x07)
  }

  lemma CodeRead(n: u8, code: SignalingCode)
    ensures CodeFromByte(n) == Some(code) <==> CodeIs(code, n)
  {
  }

  lemma ConnectionWordRead(w: u16, r: ConnectionResult)
    ensures ConnectionResultFromWord(w) == Some(r) <==> ConnectionWord(r, w)
  {
  }

  lemma ConfigurationWordRead(w: u16, r: ConfigurationResult)
    ensures ConfigurationResultFromWord(w) == Some(r) <==> ConfigurationWord(r, w)
  {
  }

  lemma HeaderRead(b: seq<u8>, h: SignalingHeader)
    ensures CommandHeaderFromBytes(b) == Ok(h) <==> HeaderLaidOut(b, h) && CodeIs(h.code, b[0])
  {
    if |b| >= 4 {
      CodeRead(b[0], h.code);
      WordHeld(b, 2, h.length);
      if CodeFromByte(b[0]).Some? {
        CodeRead(b[0], CodeFromByte(b[0]).value);
      }
    }
  }

  /** The frame of a command: its header and as many bytes as that announces. */
  predicate Framed(b: seq<u8>, h: SignalingHeader, frame: seq<u8>) {
    4 + h.length as nat <= |b| && frame == b[..4 + h.length as nat]
  }

  lemma FrameWords(frame: seq<u8>, i: nat)
    requires 4 <= |frame| && i + 5 < |frame|
    ensures Word(frame[4..], i) as nat == frame[i + 4] as nat + 0x100 * frame[i + 5] as nat
  {
  }

  lemma TwoWordsRead(frame: seq<u8>, v: u16, w: u16)
    requires |frame| >= 8
    ensures Word(frame[4..], 0) == v && Word(frame[4..], 2) == w <==> TwoWordsLaidOut(frame, v, w)
  {
    FrameWords(frame, 0);
    FrameWords(frame, 2);
  }

  lemma ConnectionResponseRead(frame: seq<u8>, h: SignalingHeader, c: SignalingCommand)
    requires |frame| >= 4
    ensures ConnectionResponseFromBytes(h, frame[4..]) == Ok(c)
            <==> c.ConnectionResponse? && c.header == h && |frame| >= 12
                 && TwoWordsLaidOut(frame, c.destinationCid, c.sourceCid)
                 && ConnectionWord(c.result, frame[8] as int + 0x100 * frame[9] as int) && Holds(frame, 10, c.status)
  {
    if |frame| >= 12 && c.ConnectionResponse? {
      TwoWordsRead(frame, c.destinationCid, c.sourceCid);
      FrameWords(frame, 4);
      FrameWords(frame, 6);
      ConnectionWordRead(Word(frame[4..], 4), c.result);
    }
  }

  lemma ConfigurationRequestRead(frame: seq<u8>, h: SignalingHeader, c: SignalingCommand)
    requires |frame| >= 4
    ensures ConfigurationRequestFromBytes(h, frame[4..]) == Ok(c)
            <==> c.ConfigurationRequest? && c.header == h && TwoWordsLaidOut(frame, c.destinationCid, c.flags)
                 && c.options == frame[8..] && |c.options| <= 64
  {
    if |frame| >= 8 {
      assert [] + frame[4..][4..] == frame[8..];
      if c.ConfigurationRequest? {
        TwoWordsRead(frame, c.destinationCid, c.flags);
      }
    }
  }

  lemma ConfigurationResponseRead(frame: seq<u8>, h: SignalingHeader, c: SignalingCommand)
    requires |frame| >= 4
    ensures ConfigurationResponseFromBytes(h, frame[4..]) == Ok(c)
            <==> c.ConfigurationResponse? && c.header == h && |frame| >= 10
                 && TwoWordsLaidOut(frame, c.sourceCid, c.flags)
                 && ConfigurationWord(c.confResult, frame[8] as int + 0x100 * frame[9] as int)
                 && c.options == frame[10..] && |c.options| <= 64
  {
    if |frame| >= 10 {
      assert [] + frame[4..][6..] == frame[10..];
      FrameWords(frame, 4);
      if c.ConfigurationResponse? {
        TwoWordsRead(frame, c.sourceCid, c.flags);
        ConfigurationWordRead(Word(frame[4..], 4), c.confResult);
      }
    }
  }

  lemma PayloadRead(frame: seq<u8>, h: SignalingHeader, c: SignalingCommand)
    requires HeaderLaidOut(frame, h) && CodeIs(h.code, frame[0])
    ensures PayloadFromBytes(h, frame[4..]) == Ok(c) <==> c.header == h && LaidOut(frame, c) && |Tail(c)| <= 64
  {
    match h.code {
      case ConnRsp => ConnectionResponseRead(frame, h, c);
      case ConfReq => ConfigurationRequestRead(frame, h, c);
      case ConfRsp => ConfigurationResponseRead(frame, h, c);
      case ConnReq => TwoWordsCommandRead(frame, h, c);
      case DiscReq => TwoWordsCommandRead(frame, h, c);
      case DiscRsp => TwoWordsCommandRead(frame, h, c);
      case _ => assert [] + frame[4..] == frame[4..];
    }
  }

  lemma TwoWordsCommandRead(frame: seq<u8>, h: SignalingHeader, c: SignalingCommand)
    requires HeaderLaidOut(frame, h) && CodeIs(h.code, frame[0])
    requires h.code.ConnReq? || h.code.DiscReq? || h.code.DiscRsp?
    ensures PayloadFromBytes(h, frame[4..]) == Ok(c) <==> c.header == h && LaidOut(frame, c) && |Tail(c)| <= 64
  {
    if |frame| >= 8 {
      match c {
        case ConnectionRequest(_, psm, src) => TwoWordsRead(frame, psm, src);
        case DisconnectionRequest(_, dst, src) => TwoWordsRead(frame, dst, src);
        case DisconnectionResponse(_, dst, src) => TwoWordsRead(frame, dst, src);
        case _ =>
      }
    }
  }

  /**
   Bytes are parsed to a command exactly when the announced part of them says that
   command, with at most 64 bytes of options or uninterpreted data.
   */
  lemma ParsedExactly(b: seq<u8>, c: SignalingCommand)
    ensures CommandFromBytes(b) == Ok(c)
            <==> 4 + c.header.length as nat <= |b| && LaidOut(b[..4 + c.header.length as nat], c) && |Tail(c)| <= 64
  {
    var h := CommandHeaderFromBytes(b);
    HeaderRead(b, c.header);
    if 4 + c.header.length as nat <= |b| {
      var frame := b[..4 + c.header.length as nat];
      assert frame[4..] == b[4..4 + c.header.length as nat];
      if HeaderLaidOut(frame, c.header) && CodeIs(c.header.code, frame[0]) {
        PayloadRead(frame, c.header, c);
      }
    }
    if h.Ok? {
      HeaderRead(b, h.value);
    }
  }

  // ----- Frames (Vol 3 Part A section 3.1) -----

  /** Length in bytes 0 and 1, channel in bytes 2 and 3, then the payload. */
  predicate FrameLaidOut(b: seq<u8>, p: L2capPacket) {
    && Holds(b, 0, p.header.length) && Holds(b, 2, p.header.channelId)
    && 4 + p.header.length as nat <= |b| && p.payload == b[4..4 + p.header.length as nat]
  }

  lemma FramePrinted(p: L2capPacket)
    requires PacketBytes(p).Ok?
    ensures var b := PacketBytes(p).value;
            && |b| == 4 + |p.payload| && Holds(b, 0, p.header.length) && Holds(b, 2, p.header.channelId)
            && b[4..] == p.payload
    ensures p.header.length == |p.payload| ==> FrameLaidOut(PacketBytes(p).value, p)
  {
    var b := PacketBytes(p).value;
    Le16Holds([], p.header.length, Le16(p.header.channelId) + p.payload);
    Le16Holds(Le16(p.header.length), p.header.channelId, p.payload);
    assert b == [] + Le16(p.header.length) + (Le16(p.header.channelId) + p.payload);
    assert b == Le16(p.header.length) + Le16(p.header.channelId) + p.payload;
  }

  /** Bytes are parsed to a frame exactly when they begin with that frame, of at most 1024 bytes of payload. */
  lemma FrameParsedExactly(b: seq<u8>, p: L2capPacket)
    ensures PacketFromBytes(b) == Ok(p) <==> FrameLaidOut(b, p) && |p.payload| <= 1024
  {
    if |b| >= 4 {
      WordHeld(b, 0, p.header.length);
      WordHeld(b, 2, p.header.channelId);
      var n := FromLe16(b[0], b[1]) as nat;
      if 4 + n <= |b| {
        assert [] + b[4..4 + n] == b[4..4 + n];
      }
    }
  }

  // ----- ACL packets (Vol 4 Part E section 5.4.2) -----

  predicate BoundaryNumber(f: PacketBoundary, n: int) {
    match f
    case FirstNonFlushable => n == 0
    case ContinuingFragment => n == 1
    case FirstFlushable => n == 2
    case CompletePdu => n == 3
  }

  predicate BroadcastNumber(f: BroadcastFlag, n: int) {
    match f
    case PointToPoint => n == 0
    case ActiveBroadcast => n == 1
    case PiconetBroadcast => n == 2
    case Reserved => n == 3
  }

  /** Bits 0 to 11 of the word are the handle, 12 and 13 the boundary flag, 14 and 15 the broadcast flag. */
  predicate FlagsLaidOut(w: int, h: AclHeader) {
    w % 0x1000 == h.handle && BoundaryNumber(h.boundary, w / 0x1000 % 4) && BroadcastNumber(h.broadcast, w / 0x4000)
  }

  predicate AclHeaderLaidOut(b: seq<u8>, h: AclHeader) {
    |b| >= 4 && FlagsLaidOut(b[0] as int + 0x100 * b[1] as int, h) && Holds(b, 2, h.dataLength)
  }

  lemma FlagsPrinted(h: AclHeader)
    ensures FlagsLaidOut(HandleAndFlags(h), h)
  {
    var w, pb, bc := HandleAndFlags(h), BoundaryBits(h.boundary), BroadcastBits(h.broadcast);
    assert w / 0x1000 == pb + 4 * bc && w / 0x4000 == bc;
  }

  lemma AclPrinted(p: AclPacket, capacity: nat)
    requires AclPacketBytes(p, capacity).Ok?
    ensures var b := AclPacketBytes(p, capacity).value;
            |b| == 4 + |p.data| && AclHeaderLaidOut(b, p.header) && b[4..] == p.data
  {
    var h, b := p.header, AclPacketBytes(p, capacity).value;
    Le16Holds([], HandleAndFlags(h), Le16(h.dataLength) + p.data);
    Le16Holds(Le16(HandleAndFlags(h)), h.dataLength, p.data);
    assert b == [] + Le16(HandleAndFlags(h)) + (Le16(h.dataLength) + p.data);
    assert b == Le16(HandleAndFlags(h)) + Le16(h.dataLength) + p.data;
    FlagsPrinted(h);
  }

  lemma BitsRead(n: u8, boundary: PacketBoundary, broadcast: BroadcastFlag)
    requires n < 4
    ensures BoundaryFromBits(n) == boundary <==> BoundaryNumber(boundary, n)
    ensures BroadcastFromBits(n) == broadcast <==> BroadcastNumber(broadcast, n)
  {
  }

  lemma AclHeaderRead(b: seq<u8>, h: AclHeader)
    ensures AclHeaderFromBytes(b) == Ok(h) <==> AclHeaderLaidOut(b, h)
  {
    if |b| >= 4 {
      var w := FromLe16(b[0], b[1]);
      WordHeld(b, 2, h.dataLength);
      assert w / 0x4000 % 4 == w / 0x4000;
      BitsRead(w / 0x1000 % 4, h.boundary, h.broadcast);
      BitsRead(w / 0x4000, h.boundary, h.broadcast);
    }
  }

  /** Bytes are parsed to an ACL packet exactly when they begin with it, of at most 1024 bytes of data. */
  lemma AclParsedExactly(b: seq<u8>, p: AclPacket)
    ensures AclPacketFromBytes(b) == Ok(p)
            <==> AclHeaderLaidOut(b, p.header) && p.header.dataLength <= 1024
                 && 4 + p.header.dataLength as nat <= |b| && p.data == b[4..4 + p.header.dataLength as nat]
  {
    AclHeaderRead(b, p.header);
    if AclHeaderFromBytes(b).Ok? {
      AclHeaderRead(b, AclHeaderFromBytes(b).value);
    }
  }

  // ----- What is refused, and how -----

  /** The announced part of b is there, and has more than 64 bytes of options or uninterpreted data. */
  predicate TailTooLong(b: seq<u8>) {
    && |b| >= 4
    && var n := b[2] as int + 0x100 * b[3] as int;
    && 4 + n <= |b|
    && (b[0] == 0x01 || 0x08 <= b[0] <= 0x0B ==> n > 64)
    && (b[0] == 0x04 ==> n - 4 > 64)
    && (b[0] == 0x05 ==> n - 6 > 64 && b[8] as int + 0x100 * b[9] as int <= 5)
    && (b[0] == 0x01 || b[0] == 0x04 || b[0] == 0x05 || 0x08 <= b[0] <= 0x0B)
  }

  /**
   Bytes that are no command are refused as too large exactly for their tail, and as
   incomplete in every other case.
   */
  lemma CommandErrors(b: seq<u8>)
    requires CommandFromBytes(b).Err?
    ensures CommandFromBytes(b).error == if TailTooLong(b) then PayloadTooLarge else InsufficientData
  {
    if |b| >= 4 && CodeFromByte(b[0]).Some? {
      var h := CommandHeaderFromBytes(b).value;
      CodeRead(b[0], h.code);
      if 4 + h.length as nat <= |b| {
        PayloadErrors(h, b[4..4 + h.length as nat]);
      }
    } else if |b| >= 4 {
      NoCode(b[0]);
    }
  }

  lemma NoCode(n: u8)
    ensures CodeFromByte(n).None? <==> n == 0 || n > 0x0B
  {
  }

  lemma NoConfigurationWord(w: u16)
    ensures ConfigurationResultFromWord(w).Some? <==> w <= 5
  {
  }

  lemma PayloadErrors(h: SignalingHeader, p: seq<u8>)
    requires PayloadFromBytes(h, p).Err?
    ensures PayloadFromBytes(h, p).error
            == if h.code.ConfReq? then (if |p| - 4 > 64 then PayloadTooLarge else InsufficientData)
               else if h.code.ConfRsp? then
                 (if |p| - 6 > 64 && p[4] as int + 0x100 * p[5] as int <= 5 then PayloadTooLarge else InsufficientData)
               else if h.code.ConnReq? || h.code.ConnRsp? || h.code.DiscReq? || h.code.DiscRsp? then InsufficientData
               else PayloadTooLarge
    ensures h.code.CommandReject? || h.code.EchoRequest? || h.code.EchoResponse? || h.code.InformationRequest?
            || h.code.InformationResponse? ==>
              |p| > 64
  {
    if h.code.ConfRsp? && |p| >= 6 {
      NoConfigurationWord(Word(p, 4));
    }
  }

  /** A command is printed exactly when it takes at most 64 bytes. */
  lemma PrintingFits(c: SignalingCommand)
    ensures CommandBytes(c).Ok? <==> FrameSize(c) <= 64
    ensures CommandBytes(c).Err? ==> CommandBytes(c).error == PayloadTooLarge
  {
  }

  /** Frames: a missing byte first, then the size. */
  lemma FrameErrors(b: seq<u8>, p: L2capPacket)
    ensures PacketFromBytes(b).Err? ==>
              PacketFromBytes(b).error
              == if |b| < 4 || 4 + (b[0] as int + 0x100 * b[1] as int) > |b| then InsufficientData else PayloadTooLarge
    ensures PacketBytes(p).Ok? <==> 4 + |p.payload| <= 1024
    ensures PacketBytes(p).Err? ==> PacketBytes(p).error == PayloadTooLarge
  {
  }

  /** ACL packets: a missing byte of the header, of the data, then the size. */
  lemma AclErrors(b: seq<u8>, p: AclPacket, capacity: nat)
    ensures AclPacketFromBytes(b).Err? ==>
              AclPacketFromBytes(b).error
              == if |b| < 4 then ShortHeader
                 else if |b| < 4 + (b[2] as int + 0x100 * b[3] as int) then ShortPacket else DataTooLarge
    ensures AclPacketBytes(p, capacity).Ok? <==> 4 + |p.data| <= capacity
    ensures AclPacketBytes(p, capacity).Err? ==> AclPacketBytes(p, capacity).error == BufferTooSmall
  {
  }

  // ----- What becomes of a frame -----

  /** The number of the channel in a frame. */
  function ChannelOf(data: seq<u8>): nat
    requires |data| >= 4
  {
    data[2] as nat + 0x100 * data[3] as nat
  }

  predicate WholeFrame(data: seq<u8>) {
    |data| >= 4 && var n := data[0] as nat + 0x100 * data[1] as nat; 4 + n <= |data| && n <= 1024
  }

  lemma FrameRead(data: seq<u8>)
    ensures PacketFromBytes(data).Ok? <==> WholeFrame(data)
    ensures PacketFromBytes(data).Ok? ==> PacketFromBytes(data).value.header.channelId == ChannelOf(data)
  {
    if WholeFrame(data) {
      var n := data[0] as nat + 0x100 * data[1] as nat;
      FrameParsedExactly(data, L2capPacket(L2capHeader(n, ChannelOf(data)), data[4..4 + n]));
    }
    if PacketFromBytes(data).Ok? {
      FrameParsedExactly(data, PacketFromBytes(data).value);
    }
  }

  /**
   Only a frame on channel 1 reaches the processor. Channels 2 to 7 are refused as
   unsupported, 0 and 8 to 0x3F as reserved, and from 0x40 on a frame is taken
   without effect. Bytes that are no whole frame are refused.
   */
  lemma RouteByChannel(proc: Proc, c: AclConnection, handle: u16, data: seq<u8>)
    ensures var (after, r) := Route(proc, c, handle, data);
            && (!WholeFrame(data) ==> after == proc && r == Err(BadL2capPacket))
            && (WholeFrame(data) && ChannelOf(data) != 1 ==>
                  after == proc && r == if 2 <= ChannelOf(data) <= 7 then Err(UnsupportedChannel)
                                        else if ChannelOf(data) >= 0x40 then Ok(()) else Err(ReservedChannel))
  {
    FrameRead(data);
  }

  /** On channel 1 the payload is parsed as a command and handled for the link's address, or refused. */
  lemma RouteSignaling(proc: Proc, c: AclConnection, handle: u16, data: seq<u8>)
    requires WholeFrame(data) && ChannelOf(data) == 1
    ensures var payload := data[4..4 + (data[0] as nat + 0x100 * data[1] as nat)];
            var (after, r) := Route(proc, c, handle, data);
            match CommandFromBytes(payload)
            case Err(_) => after == proc && r == Err(BadSignalingCommand)
            case Ok(command) =>
              var (next, reply) := HandleCommand(proc, command, c.remoteAddr, handle);
              after == next && r == if reply.Ok? then Ok(()) else Err(SignalingFailed)
  {
    FrameRead(data);
    FrameParsedExactly(data, PacketFromBytes(data).value);
  }
}
