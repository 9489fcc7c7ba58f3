/** Signalling commands and their wire form (Vol 3 Part A section 4). */
module Signaling {
  import opened Wrappers
  import opened Words
  import opened Channel

  const COMMAND_CAPACITY: nat := 64
  const SIGNALING_HEADER_SIZE: nat := 4

  datatype SignalingCode =
    | CommandReject
    | ConnReq
    | ConnRsp
    | ConfReq
    | ConfRsp
    | DiscReq
    | DiscRsp
    | EchoRequest
    | EchoResponse
    | InformationRequest
    | InformationResponse

  function CodeToByte(c: SignalingCode): u8 {
    match c
    case CommandReject => 0x01
    case ConnReq => 0x02
    case ConnRsp => 0x03
    case ConfReq => 0x04
    case ConfRsp => 0x05
    case DiscReq => 0x06
    case DiscRsp => 0x07
    case EchoRequest => 0x08
    case EchoResponse => 0x09
    case InformationRequest => 0x0A
    case InformationResponse => 0x0B
  }

  function CodeFromByte(b: u8): Option<SignalingCode> {
    match b
    case 0x01 => Some(CommandReject)
    case 0x02 => Some(ConnReq)
    case 0x03 => Some(ConnRsp)
    case 0x04 => Some(ConfReq)
    case 0x05 => Some(ConfRsp)
    case 0x06 => Some(DiscReq)
    case 0x07 => Some(DiscRsp)
    case 0x08 => Some(EchoRequest)
    case 0x09 => Some(EchoResponse)
    case 0x0A => Some(InformationRequest)
    case 0x0B => Some(InformationResponse)
    case _ => None
  }

  datatype SignalingHeader = SignalingHeader(code: SignalingCode, identifier: u8, length: u16)

  datatype ConnectionResult =
    | ConnSuccess
    | ConnPending
    | PsmNotSupported
    | SecurityBlock
    | NoResources
    | InvalidSourceCid
    | SourceCidAlreadyAllocated

  function ConnectionResultToWord(r: ConnectionResult): u16 {
    match r
    case ConnSuccess => 0
    case ConnPending => 1
    case PsmNotSupported => 2
    case SecurityBlock => 3
    case NoResources => 4
    case InvalidSourceCid => 6
    case SourceCidAlreadyAllocated => 7
  }

  function ConnectionResultFromWord(w: u16): Option<ConnectionResult> {
    match w
    case 0 => Some(ConnSuccess)
    case 1 => Some(ConnPending)
    case 2 => Some(PsmNotSupported)
    case 3 => Some(SecurityBlock)
    case 4 => Some(NoResources)
    case 6 => Some(InvalidSourceCid)
    case 7 => Some(SourceCidAlreadyAllocated)
    case _ => None
  }

  datatype ConfigurationResult =
    | ConfSuccess
    | UnacceptableParameters
    | Rejected
    | UnknownOptions
    | ConfPending
    | FlowSpecRejected

  function ConfigurationResultToWord(r: ConfigurationResult): u16 {
    match r
    case ConfSuccess => 0
    case UnacceptableParameters => 1
    case Rejected => 2
    case UnknownOptions => 3
    case ConfPending => 4
    case FlowSpecRejected => 5
  }

  function ConfigurationResultFromWord(w: u16): Option<ConfigurationResult> {
    match w
    case 0 => Some(ConfSuccess)
    case 1 => Some(UnacceptableParameters)
    case 2 => Some(Rejected)
    case 3 => Some(UnknownOptions)
    case 4 => Some(ConfPending)
    case 5 => Some(FlowSpecRejected)
    case _ => None
  }

  datatype SignalingCommand =
    | ConnectionRequest(header: SignalingHeader, psm: u16, sourceCid: u16)
    | ConnectionResponse(header: SignalingHeader, destinationCid: u16, sourceCid: u16,
                         result: ConnectionResult, status: u16)
    | ConfigurationRequest(header: SignalingHeader, destinationCid: u16, flags: u16, options: seq<u8>)
    | ConfigurationResponse(header: SignalingHeader, sourceCid: u16, flags: u16,
                            confResult: ConfigurationResult, options: seq<u8>)
    | DisconnectionRequest(header: SignalingHeader, destinationCid: u16, sourceCid: u16)
    | DisconnectionResponse(header: SignalingHeader, destinationCid: u16, sourceCid: u16)
    | Unknown(header: SignalingHeader, data: seq<u8>)

  /** The bytes after the command header. */
  function Payload(c: SignalingCommand): seq<u8> {
    match c
    case ConnectionRequest(_, psm, src) => Le16(psm) + Le16(src)
    case ConnectionResponse(_, dst, src, result, status) =>
      Le16(dst) + Le16(src) + Le16(ConnectionResultToWord(result)) + Le16(status)
    case ConfigurationRequest(_, dst, flags, options) => Le16(dst) + Le16(flags) + options
    case ConfigurationResponse(_, src, flags, result, options) =>
      Le16(src) + Le16(flags) + Le16(ConfigurationResultToWord(result)) + options
    case DisconnectionRequest(_, dst, src) => Le16(dst) + Le16(src)
    case DisconnectionResponse(_, dst, src) => Le16(dst) + Le16(src)
    case Unknown(_, data) => data
  }

  function CommandHeaderBytes(h: SignalingHeader): seq<u8> {
    [CodeToByte(h.code), h.identifier] + Le16(h.length)
  }

  /** A command on the wire, when it fits a buffer of the given capacity. */
  function CommandBytesIn(c: SignalingCommand, capacity: nat): Result<seq<u8>, L2capError> {
    var b := CommandHeaderBytes(c.header) + Payload(c);
    if |b| <= capacity then Ok(b) else Err(PayloadTooLarge)
  }

  /** The processor's commands use 64-byte buffers. */
  function CommandBytes(c: SignalingCommand): Result<seq<u8>, L2capError> {
    CommandBytesIn(c, COMMAND_CAPACITY)
  }

  method ConfigurationRequestToBytes(dst: u16, flags: u16, options: seq<u8>, capacity: nat)
    returns (r: Result<seq<u8>, L2capError>)
    ensures r == if 4 + |options| <= capacity then Ok(Le16(dst) + Le16(flags) + options) else Err(PayloadTooLarge)
  {
    var bytes := [];
    bytes :- Extend(bytes, Le16(dst), capacity, PayloadTooLarge);
    bytes :- Extend(bytes, Le16(flags), capacity, PayloadTooLarge);
    bytes :- Extend(bytes, options, capacity, PayloadTooLarge);
    assert bytes == Le16(dst) + Le16(flags) + options;
    r := Ok(bytes);
  }

  method ConfigurationResponseToBytes(src: u16, flags: u16, result: ConfigurationResult, options: seq<u8>,
                                      capacity: nat)
    returns (r: Result<seq<u8>, L2capError>)
    ensures r == if 6 + |options| <= capacity
                 then Ok(Le16(src) + Le16(flags) + Le16(ConfigurationResultToWord(result)) + options)
                 else Err(PayloadTooLarge)
  {
    var bytes := [];
    bytes :- Extend(bytes, Le16(src), capacity, PayloadTooLarge);
    bytes :- Extend(bytes, Le16(flags), capacity, PayloadTooLarge);
    bytes :- Extend(bytes, Le16(ConfigurationResultToWord(result)), capacity, PayloadTooLarge);
    bytes :- Extend(bytes, options, capacity, PayloadTooLarge);
    assert bytes == Le16(src) + Le16(flags) + Le16(ConfigurationResultToWord(result)) + options;
    r := Ok(bytes);
  }

  method CommandToBytes(c: SignalingCommand, capacity: nat) returns (r: Result<seq<u8>, L2capError>)
    ensures r == CommandBytesIn(c, capacity)
  {
    var bytes := [];
    bytes :- Extend(bytes, CommandHeaderBytes(c.header), capacity, PayloadTooLarge);
    match c {
      case ConfigurationRequest(_, dst, flags, options) =>
        var payload :- ConfigurationRequestToBytes(dst, flags, options, capacity);
        bytes :- Extend(bytes, payload, capacity, PayloadTooLarge);
      case ConfigurationResponse(_, src, flags, result, options) =>
        var payload :- ConfigurationResponseToBytes(src, flags, result, options, capacity);
        bytes :- Extend(bytes, payload, capacity, PayloadTooLarge);
      case _ =>
        bytes :- Extend(bytes, Payload(c), capacity, PayloadTooLarge);
    }
    assert bytes == CommandHeaderBytes(c.header) + Payload(c);
    r := Ok(bytes);
  }

  function CommandHeaderFromBytes(b: seq<u8>): Result<SignalingHeader, L2capError> {
    if |b| < 4 then Err(InsufficientData)
    else match CodeFromByte(b[0])
      case None => Err(InsufficientData)
      case Some(code) => Ok(SignalingHeader(code, b[1], FromLe16(b[2], b[3])))
  }

  function Word(b: seq<u8>, i: nat): u16
    requires i + 1 < |b|
  {
    FromLe16(b[i], b[i + 1])
  }

  function ConnectionResponseFromBytes(h: SignalingHeader, b: seq<u8>): Result<SignalingCommand, L2capError> {
    if |b| < 8 then Err(InsufficientData)
    else match ConnectionResultFromWord(Word(b, 4))
      case None => Err(InsufficientData)
      case Some(result) => Ok(ConnectionResponse(h, Word(b, 0), Word(b, 2), result, Word(b, 6)))
  }

  function ConfigurationRequestFromBytes(h: SignalingHeader, b: seq<u8>): Result<SignalingCommand, L2capError> {
    if |b| < 4 then Err(InsufficientData)
    else
      var options :- Extend([], b[4..], COMMAND_CAPACITY, PayloadTooLarge);
      Ok(ConfigurationRequest(h, Word(b, 0), Word(b, 2), options))
  }

  function ConfigurationResponseFromBytes(h: SignalingHeader, b: seq<u8>): Result<SignalingCommand, L2capError> {
    if |b| < 6 then Err(InsufficientData)
    else match ConfigurationResultFromWord(Word(b, 4))
      case None => Err(InsufficientData)
      case Some(result) =>
        var options :- Extend([], b[6..], COMMAND_CAPACITY, PayloadTooLarge);
        Ok(ConfigurationResponse(h, Word(b, 0), Word(b, 2), result, options))
  }

  function PayloadFromBytes(h: SignalingHeader, b: seq<u8>): Result<SignalingCommand, L2capError> {
    match h.code
    case ConnReq =>
      if |b| < 4 then Err(InsufficientData) else Ok(ConnectionRequest(h, Word(b, 0), Word(b, 2)))
    case ConnRsp => ConnectionResponseFromBytes(h, b)
    case ConfReq => ConfigurationRequestFromBytes(h, b)
    case ConfRsp => ConfigurationResponseFromBytes(h, b)
    case DiscReq =>
      if |b| < 4 then Err(InsufficientData) else Ok(DisconnectionRequest(h, Word(b, 0), Word(b, 2)))
    case DiscRsp =>
      if |b| < 4 then Err(InsufficientData) else Ok(DisconnectionResponse(h, Word(b, 0), Word(b, 2)))
    case _ =>
      var data :- Extend([], b, COMMAND_CAPACITY, PayloadTooLarge);
      Ok(Unknown(h, data))
  }

  function CommandFromBytes(b: seq<u8>): Result<SignalingCommand, L2capError> {
    var h :- CommandHeaderFromBytes(b);
    if |b| < SIGNALING_HEADER_SIZE + h.length then Err(InsufficientData)
    else PayloadFromBytes(h, b[SIGNALING_HEADER_SIZE..SIGNALING_HEADER_SIZE + h.length])
  }

  /** The header names the payload's kind. */
  predicate CodeMatches(c: SignalingCommand) {
    match c
    case ConnectionRequest(h, _, _) => h.code.ConnReq?
    case ConnectionResponse(h, _, _, _, _) => h.code.ConnRsp?
    case ConfigurationRequest(h, _, _, _) => h.code.ConfReq?
    case ConfigurationResponse(h, _, _, _, _) => h.code.ConfRsp?
    case DisconnectionRequest(h, _, _) => h.code.DiscReq?
    case DisconnectionResponse(h, _, _) => h.code.DiscRsp?
    case Unknown(h, _) =>
      h.code.CommandReject? || h.code.EchoRequest? || h.code.EchoResponse?
      || h.code.InformationRequest? || h.code.InformationResponse?
  }

  predicate WellFormed(c: SignalingCommand) {
    CodeMatches(c) && c.header.length == |Payload(c)|
  }

  lemma HeaderRoundTrip(h: SignalingHeader, rest: seq<u8>)
    ensures CommandHeaderFromBytes(CommandHeaderBytes(h) + rest) == Ok(h)
  {
    Le16RoundTrip(h.length, 0, 0);
  }

  lemma CodeReprints(b: u8)
    requires CodeFromByte(b).Some?
    ensures CodeToByte(CodeFromByte(b).value) == b
  {
  }

  lemma HeaderReprints(b: seq<u8>)
    requires CommandHeaderFromBytes(b).Ok?
    ensures CommandHeaderBytes(CommandHeaderFromBytes(b).value) == b[..4]
  {
    CodeReprints(b[0]);
    WordReprints(b, 2);
    assert b[..4] == [b[0], b[1]] + b[2..4];
  }

  /** A printed word is read back at its offset. */
  lemma WordAt(before: seq<u8>, v: u16, after: seq<u8>)
    ensures Word(before + Le16(v) + after, |before|) == v
  {
    Le16RoundTrip(v, 0, 0);
    var b := before + Le16(v) + after;
    assert b[|before|] == Le16(v)[0] && b[|before| + 1] == Le16(v)[1];
  }

  lemma TwoWords(v0: u16, v1: u16, rest: seq<u8>)
    ensures var b := Le16(v0) + Le16(v1) + rest;
            Word(b, 0) == v0 && Word(b, 2) == v1 && b[4..] == rest
  {
    WordAt([], v0, Le16(v1) + rest);
    assert [] + Le16(v0) + (Le16(v1) + rest) == Le16(v0) + Le16(v1) + rest;
    WordAt(Le16(v0), v1, rest);
  }

  lemma ThreeWords(v0: u16, v1: u16, v2: u16, rest: seq<u8>)
    ensures var b := Le16(v0) + Le16(v1) + Le16(v2) + rest;
            Word(b, 0) == v0 && Word(b, 2) == v1 && Word(b, 4) == v2 && b[6..] == rest
  {
    TwoWords(v0, v1, Le16(v2) + rest);
    assert Le16(v0) + Le16(v1) + (Le16(v2) + rest) == Le16(v0) + Le16(v1) + Le16(v2) + rest;
    WordAt(Le16(v0) + Le16(v1), v2, rest);
  }

  lemma ConnectionResponseRoundTrip(c: SignalingCommand)
    requires c.ConnectionResponse?
    ensures ConnectionResponseFromBytes(c.header, Payload(c)) == Ok(c)
  {
    var word := ConnectionResultToWord(c.result);
    ThreeWords(c.destinationCid, c.sourceCid, word, Le16(c.status));
    WordAt(Le16(c.destinationCid) + Le16(c.sourceCid) + Le16(word), c.status, []);
    assert Payload(c) == Payload(c) + [];
  }

  lemma PayloadRoundTrip(c: SignalingCommand)
    requires CodeMatches(c) && |Payload(c)| <= COMMAND_CAPACITY
    ensures PayloadFromBytes(c.header, Payload(c)) == Ok(c)
  {
    match c {
      case ConnectionRequest(_, psm, src) =>
        TwoWords(psm, src, []);
        assert Payload(c) == Le16(psm) + Le16(src) + [];
      case ConnectionResponse(_, _, _, _, _) =>
        ConnectionResponseRoundTrip(c);
      case ConfigurationRequest(_, dst, flags, options) =>
        TwoWords(dst, flags, options);
        assert [] + options == options;
      case ConfigurationResponse(_, src, flags, result, options) =>
        ThreeWords(src, flags, ConfigurationResultToWord(result), options);
        assert [] + options == options;
      case DisconnectionRequest(_, dst, src) =>
        TwoWords(dst, src, []);
        assert Payload(c) == Le16(dst) + Le16(src) + [];
      case DisconnectionResponse(_, dst, src) =>
        TwoWords(dst, src, []);
        assert Payload(c) == Le16(dst) + Le16(src) + [];
      case Unknown(_, data) =>
        assert [] + data == data;
    }
  }

  /** Parsing a printed command, whatever follows it, returns that command. */
  lemma CommandRoundTrip(c: SignalingCommand, rest: seq<u8>)
    requires WellFormed(c) && CommandBytes(c).Ok?
    ensures CommandFromBytes(CommandBytes(c).value + rest) == Ok(c)
  {
    var h, p := CommandHeaderBytes(c.header), Payload(c);
    assert h + p + rest == h + (p + rest);
    HeaderRoundTrip(c.header, p + rest);
    assert (h + p + rest)[4..4 + |p|] == p;
    PayloadRoundTrip(c);
  }

  /** The payload bytes a fixed-size command reads; the variable ones read them all. */
  function Consumed(c: SignalingCommand): nat {
    match c
    case ConnectionRequest(_, _, _) => 4
    case ConnectionResponse(_, _, _, _, _) => 8
    case DisconnectionRequest(_, _, _) => 4
    case DisconnectionResponse(_, _, _) => 4
    case _ => c.header.length
  }

  lemma WordReprints(b: seq<u8>, i: nat)
    requires i + 1 < |b|
    ensures Le16(Word(b, i)) == b[i..i + 2]
  {
    var lo, hi := b[i], b[i + 1];
    Le16RoundTrip(0, lo, hi);
    assert b[i..i + 2] == [lo, hi];
  }

  lemma FourBytes(b: seq<u8>)
    requires |b| >= 4
    ensures Le16(Word(b, 0)) + Le16(Word(b, 2)) == b[..4]
  {
    WordReprints(b, 0);
    WordReprints(b, 2);
  }

  lemma ConnectionResponseReprints(h: SignalingHeader, b: seq<u8>)
    requires ConnectionResponseFromBytes(h, b).Ok?
    ensures Payload(ConnectionResponseFromBytes(h, b).value) == b[..8]
  {
    FourBytes(b);
    WordReprints(b, 4);
    WordReprints(b, 6);
    assert b[..4] + b[4..6] + b[6..8] == b[..8];
  }

  lemma ConfigurationRequestReprints(h: SignalingHeader, b: seq<u8>)
    requires ConfigurationRequestFromBytes(h, b).Ok?
    ensures Payload(ConfigurationRequestFromBytes(h, b).value) == b
  {
    FourBytes(b);
    assert [] + b[4..] == b[4..] && b[..4] + b[4..] == b;
  }

  lemma ResultWordReprints(w: u16)
    requires ConfigurationResultFromWord(w).Some?
    ensures ConfigurationResultToWord(ConfigurationResultFromWord(w).value) == w
  {
  }

  lemma ConfigurationResponseReprints(h: SignalingHeader, b: seq<u8>)
    requires ConfigurationResponseFromBytes(h, b).Ok?
    ensures Payload(ConfigurationResponseFromBytes(h, b).value) == b
  {
    FourBytes(b);
    WordReprints(b, 4);
    ResultWordReprints(Word(b, 4));
    assert [] + b[6..] == b[6..] && b[..4] + b[4..6] + b[6..] == b;
  }

  lemma PayloadReprints(h: SignalingHeader, b: seq<u8>)
    requires PayloadFromBytes(h, b).Ok? && h.length == |b|
    ensures var c := PayloadFromBytes(h, b).value;
            CodeMatches(c) && c.header == h && Consumed(c) <= |b| && Payload(c) == b[..Consumed(c)]
  {
    assert [] + b == b == b[..|b|];
    match h.code {
      case ConnReq => FourBytes(b);
      case ConnRsp => ConnectionResponseReprints(h, b);
      case ConfReq => ConfigurationRequestReprints(h, b);
      case ConfRsp => ConfigurationResponseReprints(h, b);
      case DiscReq => FourBytes(b);
      case DiscRsp => FourBytes(b);
      case _ =>
    }
  }

  /**
   Printing a parsed command returns the header and the payload bytes that were
   read. These are exactly the bytes the parser consumed if and only if the
   length field equals the size of the payload kind, which holds always for the
   variable-size kinds.
   */
  lemma CommandReprints(b: seq<u8>)
    requires CommandFromBytes(b).Ok?
    ensures var c := CommandFromBytes(b).value;
            && CodeMatches(c)
            && Consumed(c) <= c.header.length <= |b| - SIGNALING_HEADER_SIZE
            && (CommandBytes(c).Ok? <==> SIGNALING_HEADER_SIZE + Consumed(c) <= COMMAND_CAPACITY)
            && (CommandBytes(c).Ok? ==> CommandBytes(c).value == b[..SIGNALING_HEADER_SIZE + Consumed(c)])
            && (CommandBytes(c).Ok? ==>
                  (CommandBytes(c).value == b[..SIGNALING_HEADER_SIZE + c.header.length]
                   <==> c.header.length == Consumed(c)))
  {
    var h := CommandHeaderFromBytes(b).value;
    var p := b[SIGNALING_HEADER_SIZE..SIGNALING_HEADER_SIZE + h.length];
    HeaderReprints(b);
    PayloadReprints(h, p);
    var c := CommandFromBytes(b).value;
    assert b[..SIGNALING_HEADER_SIZE] + p[..Consumed(c)] == b[..SIGNALING_HEADER_SIZE + Consumed(c)];
    if c.header.length != Consumed(c) {
      assert |b[..SIGNALING_HEADER_SIZE + c.header.length]| != |b[..SIGNALING_HEADER_SIZE + Consumed(c)]|;
    }
  }
}
