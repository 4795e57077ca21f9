/** The binary frame format of crates/protocol/src/frame.rs: a 23-byte header and a payload,
    with one opcode byte nested in the payload of WebSocket frames. */
module Frame {
  import opened Prelude

  const LEGACY_PROTOCOL_VERSION: byte := 1
  const PROTOCOL_VERSION: byte := 2
  const HEADER_LEN: nat := 1 + 1 + 16 + 4 + 1

  predicate IsSupported(version: byte) {
    version == LEGACY_PROTOCOL_VERSION || version == PROTOCOL_VERSION
  }

  datatype StreamKind = RequestBody | ResponseBody | WsClientFrame | WsLocalFrame

  datatype WsOpcode = OpText | OpBinary | OpPing | OpPong | OpClose

  datatype ChunkHeader = ChunkHeader(kind: StreamKind, requestId: Uuid, seqNo: u32, fin: bool)

  datatype ChunkDecodeError =
    | FrameTooShort
    | UnsupportedVersion(version: byte)
    | InvalidStreamKind(kind: byte)
    | MissingWsOpcode
    | InvalidWsOpcode(opcode: byte)

  type Decoded = Result<(ChunkHeader, Bytes), ChunkDecodeError>

  function KindByte(kind: StreamKind): byte {
    match kind
    case RequestBody => 0
    case ResponseBody => 1
    case WsClientFrame => 2
    case WsLocalFrame => 3
  }

  function KindOf(value: byte): Result<StreamKind, ChunkDecodeError> {
    if value == 0 then Ok(RequestBody)
    else if value == 1 then Ok(ResponseBody)
    else if value == 2 then Ok(WsClientFrame)
    else if value == 3 then Ok(WsLocalFrame)
    else Err(InvalidStreamKind(value))
  }

  function OpcodeByte(opcode: WsOpcode): byte {
    match opcode
    case OpText => 0
    case OpBinary => 1
    case OpPing => 2
    case OpPong => 3
    case OpClose => 4
  }

  function OpcodeOf(value: byte): Result<WsOpcode, ChunkDecodeError> {
    if value == 0 then Ok(OpText)
    else if value == 1 then Ok(OpBinary)
    else if value == 2 then Ok(OpPing)
    else if value == 3 then Ok(OpPong)
    else if value == 4 then Ok(OpClose)
    else Err(InvalidWsOpcode(value))
  }

  function BigEndian(n: u32): (b: Bytes)
    ensures |b| == 4
  {
    [(n / 0x100_0000) as byte, (n / 0x1_0000 % 0x100) as byte, (n / 0x100 % 0x100) as byte, (n % 0x100) as byte]
  }

  function FromBigEndian(b: Bytes): u32
    requires |b| == 4
  {
    (b[0] as int * 0x100_0000 + b[1] as int * 0x1_0000 + b[2] as int * 0x100 + b[3] as int) as u32
  }

  lemma BigEndianInverse(n: u32)
    ensures FromBigEndian(BigEndian(n)) == n
  {
    var m := n as int;
    Digits(m);
    assert BigEndian(n)[0] as int == m / 0x100_0000;
    assert BigEndian(n)[1] as int == m / 0x1_0000 % 0x100;
    assert BigEndian(n)[2] as int == m / 0x100 % 0x100;
    assert BigEndian(n)[3] as int == m % 0x100;
  }

  lemma Digits(m: int)
    requires 0 <= m < 0x1_0000_0000
    ensures m == m / 0x100_0000 * 0x100_0000 + m / 0x1_0000 % 0x100 * 0x1_0000 + m / 0x100 % 0x100 * 0x100 + m % 0x100
  {
    assert m / 0x1_0000 == m / 0x100 / 0x100;
    assert m / 0x100_0000 == m / 0x1_0000 / 0x100;
  }

  lemma FromBigEndianInverse(b: Bytes)
    requires |b| == 4
    ensures BigEndian(FromBigEndian(b)) == b
  {
    var n := FromBigEndian(b) as int;
    assert n / 0x100_0000 == b[0] as int;
    assert n / 0x1_0000 == b[0] as int * 0x100 + b[1] as int;
    assert n / 0x100 == (b[0] as int * 0x100 + b[1] as int) * 0x100 + b[2] as int;
  }

  function FinByte(fin: bool): byte { if fin then 1 else 0 }

  /** What a frame looks like on the wire. */
  function EncodeFrame(version: byte, header: ChunkHeader, payload: Bytes): Bytes {
    [version, KindByte(header.kind)] + header.requestId + BigEndian(header.seqNo) + [FinByte(header.fin)] + payload
  }

  /** Byte by byte: the version, the kind, the sixteen bytes of the id, the sequence number with its most
      significant byte first, the flag, and the payload from byte 23 on. */
  lemma FrameLayout(version: byte, header: ChunkHeader, payload: Bytes)
    ensures var f := EncodeFrame(version, header, payload);
            && |f| == 23 + |payload| && f[0] == version && f[2..18] == header.requestId && f[23..] == payload
            && (f[1] == 0 <==> header.kind.RequestBody?) && (f[1] == 1 <==> header.kind.ResponseBody?)
            && (f[1] == 2 <==> header.kind.WsClientFrame?) && (f[1] == 3 <==> header.kind.WsLocalFrame?)
            && header.seqNo as int == ((f[18] as int * 256 + f[19] as int) * 256 + f[20] as int) * 256 + f[21] as int
            && f[22] == if header.fin then 1 else 0
  {
    var f := EncodeFrame(version, header, payload);
    assert f[18..22] == BigEndian(header.seqNo);
    BigEndianInverse(header.seqNo);
    assert f[18] == f[18..22][0] && f[19] == f[18..22][1] && f[20] == f[18..22][2] && f[21] == f[18..22][3];
  }

  function DecodeFrame(frame: Bytes): Decoded {
    if |frame| < HEADER_LEN then Err(FrameTooShort)
    else if !IsSupported(frame[0]) then Err(UnsupportedVersion(frame[0]))
    else
      match KindOf(frame[1])
      case Err(e) => Err(e)
      case Ok(kind) =>
        Ok((ChunkHeader(kind, frame[2..18], FromBigEndian(frame[18..22]), frame[22] % 2 == 1), frame[HEADER_LEN..]))
  }

  method EncodeChunkFrame(version: byte, header: ChunkHeader, payload: Bytes) returns (out: Bytes)
    ensures out == EncodeFrame(version, header, payload)
  {
    out := [];
    out := out + [version];
    out := out + [KindByte(header.kind)];
    out := out + header.requestId;
    out := out + BigEndian(header.seqNo);
    out := out + [FinByte(header.fin)];
    out := out + payload;
  }

  /** Copies the id and the sequence number into local arrays, as the source does. */
  method DecodeChunkHeader(frame: Bytes) returns (r: Decoded)
    ensures r == DecodeFrame(frame)
  {
    if |frame| < HEADER_LEN {
      return Err(FrameTooShort);
    }
    var version := frame[0];
    if !IsSupported(version) {
      return Err(UnsupportedVersion(version));
    }
    var kind := KindOf(frame[1]);
    if kind.Err? {
      return Err(kind.error);
    }
    var idBytes := new byte[16](_ => 0);
    CopyFromSlice(idBytes, frame[2..18]);
    var seqBytes := new byte[4](_ => 0);
    CopyFromSlice(seqBytes, frame[18..22]);
    assert idBytes[..] == frame[2..18];
    var flags := frame[22];
    return Ok((ChunkHeader(kind.value, idBytes[..], FromBigEndian(seqBytes[..]), flags % 2 == 1), frame[HEADER_LEN..]));
  }

  method CopyFromSlice(dst: array<byte>, src: Bytes)
    requires dst.Length == |src|
    modifies dst
    ensures dst[..] == src
  {
    for i := 0 to dst.Length
      invariant dst[..i] == src[..i]
    {
      dst[i] := src[i];
    }
  }

  /** Decoding undoes encoding, whatever the header and the payload. */
  lemma FrameRoundTrip(version: byte, header: ChunkHeader, payload: Bytes)
    requires IsSupported(version)
    ensures DecodeFrame(EncodeFrame(version, header, payload)) == Ok((header, payload))
  {
    var f := EncodeFrame(version, header, payload);
    assert f[2..18] == header.requestId;
    assert f[18..22] == BigEndian(header.seqNo);
    assert f[HEADER_LEN..] == payload;
    BigEndianInverse(header.seqNo);
  }

  /** The byte strings that decode, and what each other one is refused for. */
  lemma DecodesExactly(frame: Bytes)
    ensures DecodeFrame(frame).Ok? <==> |frame| >= 23 && (frame[0] == 1 || frame[0] == 2) && frame[1] <= 3
    ensures DecodeFrame(frame) == Err(FrameTooShort) <==> |frame| < 23
    ensures forall v :: DecodeFrame(frame) == Err(UnsupportedVersion(v)) <==>
                        |frame| >= 23 && v == frame[0] && v != 1 && v != 2
    ensures forall k :: DecodeFrame(frame) == Err(InvalidStreamKind(k)) <==>
                        |frame| >= 23 && (frame[0] == 1 || frame[0] == 2) && k == frame[1] && k > 3
  {
  }

  /** Re-encoding what was decoded gives the frame back, but for the unused bits of byte 22. */
  lemma Reencode(frame: Bytes)
    requires DecodeFrame(frame).Ok?
    ensures var (header, payload) := DecodeFrame(frame).value;
            EncodeFrame(frame[0], header, payload) == frame[22 := frame[22] % 2]
  {
    var (header, payload) := DecodeFrame(frame).value;
    FromBigEndianInverse(frame[18..22]);
    assert frame == frame[..2] + frame[2..18] + frame[18..22] + [frame[22]] + frame[23..];
  }

  /** No two (version, header, payload) triples share an encoding. */
  lemma EncodeInjective(v1: byte, h1: ChunkHeader, p1: Bytes, v2: byte, h2: ChunkHeader, p2: Bytes)
    requires EncodeFrame(v1, h1, p1) == EncodeFrame(v2, h2, p2)
    ensures v1 == v2 && h1 == h2 && p1 == p2
  {
    FrameRoundTrip(PROTOCOL_VERSION, h1, p1);
    FrameRoundTrip(PROTOCOL_VERSION, h2, p2);
    var f1, f2 := EncodeFrame(v1, h1, p1), EncodeFrame(v2, h2, p2);
    assert f1[0] == v1 && f2[0] == v2;
    assert f1[1..] == EncodeFrame(PROTOCOL_VERSION, h1, p1)[1..];
    assert f2[1..] == EncodeFrame(PROTOCOL_VERSION, h2, p2)[1..];
    assert EncodeFrame(PROTOCOL_VERSION, h1, p1) == [PROTOCOL_VERSION] + f1[1..];
    assert EncodeFrame(PROTOCOL_VERSION, h2, p2) == [PROTOCOL_VERSION] + f2[1..];
  }

  function EncodeWsPayload(opcode: WsOpcode, payload: Bytes): Bytes {
    [OpcodeByte(opcode)] + payload
  }

  function DecodeWsPayload(payload: Bytes): Result<(WsOpcode, Bytes), ChunkDecodeError> {
    if payload == [] then Err(MissingWsOpcode)
    else
      match OpcodeOf(payload[0])
      case Err(e) => Err(e)
      case Ok(opcode) => Ok((opcode, payload[1..]))
  }

  /** The nested layer is a bijection between (opcode, data) pairs and the payloads that decode. */
  lemma WsPayloadInverse(opcode: WsOpcode, data: Bytes, payload: Bytes)
    ensures DecodeWsPayload(payload) == Ok((opcode, data)) <==> payload == EncodeWsPayload(opcode, data)
    ensures DecodeWsPayload(payload).Ok? <==> payload != [] && payload[0] <= 4
    ensures DecodeWsPayload(payload) == Err(MissingWsOpcode) <==> payload == []
    ensures payload != [] && payload[0] > 4 ==> DecodeWsPayload(payload) == Err(InvalidWsOpcode(payload[0]))
    ensures DecodeWsPayload(payload) == Ok((opcode, data)) ==>
              payload[0] == if opcode.OpText? then 0 else if opcode.OpBinary? then 1
                            else if opcode.OpPing? then 2 else if opcode.OpPong? then 3 else 4
  {
    assert EncodeWsPayload(opcode, data)[1..] == data;
    if DecodeWsPayload(payload) == Ok((opcode, data)) {
      assert payload == [payload[0]] + payload[1..];
    }
  }
}
