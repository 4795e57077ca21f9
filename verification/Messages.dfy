/** Control messages, what travels on an agent link, and what each message means to the end that reads it. */
module Messages {
  import opened Prelude
  import opened Frame

  type Headers = seq<(string, string)>

  const CAP_WS_TUNNEL_V1: string := "ws_tunnel_v1"

  datatype ControlMessage =
    | RegisterAgent(tunnelId: string, token: string, protocolVersion: Option<byte>, capabilities: seq<string>)
    | RegisterAck(ok: bool, reason: Option<string>, protocolVersion: Option<byte>, capabilities: seq<string>)
    | HttpRequestStart(requestId: Uuid, verb: string, pathAndQuery: string, headers: Headers)
    | HttpRequestEnd(requestId: Uuid)
    | HttpResponseStart(requestId: Uuid, status: nat, headers: Headers)
    | HttpResponseEnd(requestId: Uuid)
    | WsConnect(streamId: Uuid, pathAndQuery: string, headers: Headers, subprotocols: seq<string>)
    | WsConnectAck(streamId: Uuid, ok: bool, selectedSubprotocol: Option<string>, reason: Option<string>)
    | WsClose(streamId: Uuid, code: Option<nat>, reason: Option<string>)
    | ErrorMessage(errorId: Option<Uuid>, errorCode: string, message: string)
    | Ping(ts: nat)
    | Pong(ts: nat)

  /** One message of an agent link: JSON text, kept as its value, or a binary frame, kept as its bytes. */
  datatype Wire = Text(msg: ControlMessage) | Binary(bytes: Bytes)

  datatype RelayEvent =
    | Start(status: nat, headers: Headers)
    | Body(bytes: Bytes)
    | End
    | Error(code: string, message: string)
  {
    predicate IsTerminal() { End? || Error? }
  }

  datatype Ack = Ack(ok: bool, selectedSubprotocol: Option<string>, reason: Option<string>)

  /** Events on the channel of a WebSocket stream, at either end of the tunnel. */
  datatype WsEvent =
    | WsFrame(opcode: WsOpcode, payload: Bytes)
    | WsEnd(code: Option<nat>, reason: Option<string>)

  /** The request or stream a link message belongs to. */
  datatype Target = NoTarget | HttpId(id: Uuid) | WsId(id: Uuid)

  /** What a message asks of the relay. */
  datatype UpEvent = UHttp(ev: RelayEvent) | UAck(ack: Ack) | UWs(ws: WsEvent)

  /** What a message asks of the agent. */
  datatype DownEvent =
    | DStart(verb: string, pathAndQuery: string, headers: Headers)
    | DBody(bytes: Bytes)
    | DEnd
    | DAbort
    | DConnect(pathAndQuery: string, headers: Headers, subprotocols: seq<string>)
    | DWs(ws: WsEvent)

  function TargetOfText(msg: ControlMessage): Target {
    match msg
    case HttpRequestStart(r, _, _, _) => HttpId(r)
    case HttpRequestEnd(r) => HttpId(r)
    case HttpResponseStart(r, _, _) => HttpId(r)
    case HttpResponseEnd(r) => HttpId(r)
    case ErrorMessage(r, _, _) => if r.Some? then HttpId(r.value) else NoTarget
    case WsConnect(x, _, _, _) => WsId(x)
    case WsConnectAck(x, _, _, _) => WsId(x)
    case WsClose(x, _, _) => WsId(x)
    case _ => NoTarget
  }

  function TargetOf(m: Wire): Target {
    match m
    case Text(msg) => TargetOfText(msg)
    case Binary(bytes) =>
      match DecodeFrame(bytes)
      case Err(_) => NoTarget
      case Ok((header, _)) =>
        if header.kind.RequestBody? || header.kind.ResponseBody? then HttpId(header.requestId)
        else WsId(header.requestId)
  }

  /** The relay's reading of a message; what it ignores or only logs is the empty list. */
  function UpOf(m: Wire): seq<UpEvent> {
    match m
    case Text(HttpResponseStart(_, status, headers)) => [UHttp(Start(status, headers))]
    case Text(HttpResponseEnd(_)) => [UHttp(End)]
    case Text(ErrorMessage(r, code, message)) => if r.Some? then [UHttp(Error(code, message))] else []
    case Text(WsConnectAck(_, ok, sub, reason)) => [UAck(Ack(ok, sub, reason))]
    case Text(WsClose(_, code, reason)) => [UWs(WsEnd(code, reason))]
    case Text(_) => []
    case Binary(bytes) =>
      match DecodeFrame(bytes)
      case Err(_) => []
      case Ok((header, payload)) =>
        match header.kind
        case ResponseBody => [UHttp(Body(payload))] + if header.fin then [UHttp(End)] else []
        case WsLocalFrame =>
          (match DecodeWsPayload(payload)
           case Err(_) => []
           case Ok((opcode, data)) => [UWs(WsFrame(opcode, data))])
        case _ => []
  }

  /** The agent's reading of a message. */
  function DownOf(m: Wire): seq<DownEvent> {
    match m
    case Text(HttpRequestStart(_, verb, path, headers)) => [DStart(verb, path, headers)]
    case Text(HttpRequestEnd(_)) => [DEnd]
    case Text(ErrorMessage(r, _, _)) => if r.Some? then [DAbort] else []
    case Text(WsConnect(_, path, headers, subprotocols)) => [DConnect(path, headers, subprotocols)]
    case Text(WsClose(_, code, reason)) => [DWs(WsEnd(code, reason))]
    case Text(_) => []
    case Binary(bytes) =>
      match DecodeFrame(bytes)
      case Err(_) => []
      case Ok((header, payload)) =>
        match header.kind
        case RequestBody => [DBody(payload)] + if header.fin then [DEnd] else []
        case WsClientFrame =>
          (match DecodeWsPayload(payload)
           case Err(_) => []
           case Ok((opcode, data)) => [DWs(WsFrame(opcode, data))])
        case _ => []
  }

  /** A body chunk as both body loops send it: one frame, never final. */
  function BodyFrame(kind: StreamKind, version: byte, requestId: Uuid, seqNo: u32, chunk: Bytes): Wire {
    Binary(EncodeFrame(version, ChunkHeader(kind, requestId, seqNo, false), chunk))
  }

  /** A WebSocket message as both ends send it: one frame, sequence number 0, final. */
  function WsFrameWire(kind: StreamKind, version: byte, streamId: Uuid, opcode: WsOpcode, payload: Bytes): Wire {
    Binary(EncodeFrame(version, ChunkHeader(kind, streamId, 0, true), EncodeWsPayload(opcode, payload)))
  }

  /** A body frame means exactly its chunk, to the end that expects it and to nobody else. */
  lemma BodyFrameMeaning(kind: StreamKind, version: byte, r: Uuid, seqNo: u32, chunk: Bytes)
    requires IsSupported(version)
    requires kind.RequestBody? || kind.ResponseBody?
    ensures var m := BodyFrame(kind, version, r, seqNo, chunk);
            && TargetOf(m) == HttpId(r)
            && UpOf(m) == (if kind.ResponseBody? then [UHttp(Body(chunk))] else [])
            && DownOf(m) == (if kind.RequestBody? then [DBody(chunk)] else [])
  {
    FrameRoundTrip(version, ChunkHeader(kind, r, seqNo, false), chunk);
  }

  lemma WsFrameMeaning(kind: StreamKind, version: byte, x: Uuid, opcode: WsOpcode, payload: Bytes)
    requires IsSupported(version)
    requires kind.WsClientFrame? || kind.WsLocalFrame?
    ensures var m := WsFrameWire(kind, version, x, opcode, payload);
            && TargetOf(m) == WsId(x)
            && UpOf(m) == (if kind.WsLocalFrame? then [UWs(WsFrame(opcode, payload))] else [])
            && DownOf(m) == (if kind.WsClientFrame? then [DWs(WsFrame(opcode, payload))] else [])
            && DecodeFrame(m.bytes) == Ok((ChunkHeader(kind, x, 0, true), [OpcodeByte(opcode)] + payload))
  {
    FrameRoundTrip(version, ChunkHeader(kind, x, 0, true), EncodeWsPayload(opcode, payload));
    WsPayloadInverse(opcode, payload, EncodeWsPayload(opcode, payload));
  }

  // ---- Projection of a link's log on one request or stream ----

  function UpFor(t: Target, log: seq<Wire>): seq<UpEvent> {
    if log == [] then [] else
      var last := log[|log| - 1];
      UpFor(t, log[..|log| - 1]) + if TargetOf(last) == t then UpOf(last) else []
  }

  function DownFor(t: Target, log: seq<Wire>): seq<DownEvent> {
    if log == [] then [] else
      var last := log[|log| - 1];
      DownFor(t, log[..|log| - 1]) + if TargetOf(last) == t then DownOf(last) else []
  }

  lemma UpForSnoc(t: Target, log: seq<Wire>, m: Wire)
    ensures UpFor(t, log + [m]) == UpFor(t, log) + if TargetOf(m) == t then UpOf(m) else []
  {
    assert (log + [m])[..|log|] == log;
  }

  lemma DownForSnoc(t: Target, log: seq<Wire>, m: Wire)
    ensures DownFor(t, log + [m]) == DownFor(t, log) + if TargetOf(m) == t then DownOf(m) else []
  {
    assert (log + [m])[..|log|] == log;
  }

  /** What has been read of a link is, for each id, a prefix of what was put on it. */
  lemma {:induction false} UpForPrefix(t: Target, log: seq<Wire>, n: nat)
    requires n <= |log|
    ensures UpFor(t, log[..n]) <= UpFor(t, log)
    decreases |log|
  {
    if n == |log| {
      assert log[..n] == log;
    } else {
      var init := log[..|log| - 1];
      assert init[..n] == log[..n];
      UpForPrefix(t, init, n);
    }
  }

  lemma {:induction false} DownForPrefix(t: Target, log: seq<Wire>, n: nat)
    requires n <= |log|
    ensures DownFor(t, log[..n]) <= DownFor(t, log)
    decreases |log|
  {
    if n == |log| {
      assert log[..n] == log;
    } else {
      var init := log[..|log| - 1];
      assert init[..n] == log[..n];
      DownForPrefix(t, init, n);
    }
  }

  /** A log of which every message means one event to one request or stream. */
  lemma {:induction false} UpForEach(t: Target, log: seq<Wire>, evs: seq<UpEvent>)
    requires |log| == |evs| && forall i | 0 <= i < |log| :: TargetOf(log[i]) == t && UpOf(log[i]) == [evs[i]]
    ensures UpFor(t, log) == evs
  {
    if log != [] {
      var n := |log| - 1;
      UpForEach(t, log[..n], evs[..n]);
      assert evs[..n] + [evs[n]] == evs;
    }
  }

  lemma {:induction false} DownForEach(t: Target, log: seq<Wire>, evs: seq<DownEvent>)
    requires |log| == |evs| && forall i | 0 <= i < |log| :: TargetOf(log[i]) == t && DownOf(log[i]) == [evs[i]]
    ensures DownFor(t, log) == evs
  {
    if log != [] {
      var n := |log| - 1;
      DownForEach(t, log[..n], evs[..n]);
      assert evs[..n] + [evs[n]] == evs;
    }
  }

  /** All of `sent` is about `t`, and what it asks of the agent is the beginning of `asked`. */
  ghost predicate Asks(sent: seq<Wire>, t: Target, asked: seq<DownEvent>) {
    (forall i | 0 <= i < |sent| :: TargetOf(sent[i]) == t) && DownFor(t, sent) <= asked
  }

  /** All of `sent` is about `t`, and what it tells the relay is the beginning of `told`. */
  ghost predicate Tells(sent: seq<Wire>, t: Target, told: seq<UpEvent>) {
    (forall i | 0 <= i < |sent| :: TargetOf(sent[i]) == t) && UpFor(t, sent) <= told
  }

  // ---- the chunks of a body, as events ----

  function BodyEvents(chunks: seq<Bytes>): (evs: seq<UpEvent>)
    ensures |evs| == |chunks|
  {
    seq(|chunks|, i requires 0 <= i < |chunks| => UHttp(Body(chunks[i])))
  }

  function BodyDowns(chunks: seq<Bytes>): (evs: seq<DownEvent>)
    ensures |evs| == |chunks|
  {
    seq(|chunks|, i requires 0 <= i < |chunks| => DBody(chunks[i]))
  }
}
