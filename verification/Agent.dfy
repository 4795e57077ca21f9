/** The agent's side of the link, crates/agent/src/relay_client.rs and inflight.rs: joining, reading
    messages, and proxying one request to the local server. */
module Agent {
  import opened Prelude
  import opened Frame
  import opened Messages
  import opened RelayState
  import opened Framing
  import opened Ingress

  datatype RegisterAckInfo = RegisterAckInfo(relayProtocolVersion: byte, relaySupportsWs: bool)

  /** wait_register_ack: what the first message from the relay must be. */
  function JoinFrom(first: Option<Wire>): Option<RegisterAckInfo> {
    match first
    case Some(Text(RegisterAck(true, _, protocolVersion, capabilities))) =>
      var version := protocolVersion.GetOr(LEGACY_PROTOCOL_VERSION);
      if IsSupported(version) then Some(RegisterAckInfo(version, CAP_WS_TUNNEL_V1 in capabilities)) else None
    case _ => None
  }

  /** An agent joins on an accepting ack and nothing else, in the version the ack names, 1 if it names none. */
  lemma JoinMeaning(first: Option<Wire>)
    ensures JoinFrom(first).Some? <==>
            && first.Some? && first.value.Text? && first.value.msg.RegisterAck? && first.value.msg.ok
            && first.value.msg.protocolVersion in {None, Some(1), Some(2)}
    ensures JoinFrom(first).Some? ==>
              var info, ack := JoinFrom(first).value, first.value.msg;
              && info.relayProtocolVersion == (if ack.protocolVersion.Some? then ack.protocolVersion.value else 1)
              && (info.relaySupportsWs <==> "ws_tunnel_v1" in ack.capabilities)
  {
  }

  // ---- the reader's maps ----

  /** `inflight` and `sessions` hold senders; `bodies` and `inputs` are the channels they lead to. */
  datatype AgentBoard = AgentBoard(
    inflight: map<Uuid, Uuid>, bodies: map<Uuid, Queue<Bytes>>,
    sessions: map<Uuid, Uuid>, inputs: map<Uuid, Queue<WsEvent>>)
  {
    predicate BodyOpen(ch: Uuid) { ch in bodies && bodies[ch].open }

    predicate InputOpen(ch: Uuid) { ch in inputs && inputs[ch].open }

    /** A request starts: a new body channel `ch`, its sender kept under the request's id. */
    function StartBody(r: Uuid, ch: Uuid): AgentBoard {
      this.(inflight := inflight[r := ch], bodies := bodies[ch := NewQueue()])
    }

    function EndBody(r: Uuid): AgentBoard { this.(inflight := inflight - {r}) }

    function FeedBody(r: Uuid, bytes: Bytes): AgentBoard {
      if r !in inflight then this
      else if BodyOpen(inflight[r]) then
        var q := bodies[inflight[r]];
        this.(bodies := bodies[inflight[r] := q.(sent := q.sent + [bytes])])
      else EndBody(r)
    }

    function FeedWs(x: Uuid, ev: WsEvent): AgentBoard {
      if x !in sessions || !InputOpen(sessions[x]) then this
      else
        var q := inputs[sessions[x]];
        this.(inputs := inputs[sessions[x] := q.(sent := q.sent + [ev])])
    }

    /** One event of a message about `id`; `ch` is the channel made if the message starts a request. */
    function Apply(id: Uuid, ev: DownEvent, ch: Uuid): AgentBoard {
      match ev
      case DStart(_, _, _) => StartBody(id, ch)
      case DBody(bytes) => FeedBody(id, bytes)
      case DEnd => EndBody(id)
      case DAbort => EndBody(id)
      case DConnect(_, _, _) => this
      case DWs(ws) => FeedWs(id, ws)
    }

    function Read(m: Wire, ch: Uuid): AgentBoard {
      var evs := DownOf(m);
      if evs == [] || TargetOf(m).NoTarget? then this
      else if |evs| == 1 then Apply(TargetOf(m).id, evs[0], ch)
      else Apply(TargetOf(m).id, evs[0], ch).Apply(TargetOf(m).id, evs[1], ch)
    }
  }

  /** What the reader does besides updating its maps. */
  datatype Action =
    | Idle
    | Reply(msg: ControlMessage)
    | SpawnProxy(requestId: Uuid, request: DownEvent)
    | SpawnWs(streamId: Uuid, connect: DownEvent)

  const NO_WS_CAPABILITY: string := "relay does not support websocket tunnel capability"

  function ActionOn(m: Wire, relaySupportsWs: bool): Action {
    match m
    case Text(HttpRequestStart(r, verb, path, headers)) => SpawnProxy(r, DStart(verb, path, headers))
    case Text(WsConnect(x, path, headers, subprotocols)) =>
      if relaySupportsWs then SpawnWs(x, DConnect(path, headers, subprotocols))
      else Reply(WsConnectAck(x, false, None, Some(NO_WS_CAPABILITY)))
    case Text(Ping(ts)) => Reply(Pong(ts))
    case _ => Idle
  }

  /** inflight.rs */
  class Inflight {
    var senders: map<Uuid, Uuid>

    constructor ()
      ensures senders == map[]
    {
      senders := map[];
    }

    method Insert(requestId: Uuid, tx: Uuid)
      modifies this
      ensures senders == old(senders)[requestId := tx]
    {
      senders := senders[requestId := tx];
    }

    method Lookup(requestId: Uuid) returns (tx: Option<Uuid>)
      ensures tx == Get(senders, requestId)
    {
      tx := Get(senders, requestId);
    }

    method Remove(requestId: Uuid)
      modifies this
      ensures senders == old(senders) - {requestId}
    {
      senders := senders - {requestId};
    }

    method Clear()
      modifies this
      ensures senders == map[]
    {
      senders := map[];
    }
  }

  class Reader {
    const inflight: Inflight
    const relaySupportsWs: bool
    var bodies: map<Uuid, Queue<Bytes>>
    var sessions: map<Uuid, Uuid>
    var inputs: map<Uuid, Queue<WsEvent>>

    function View(): AgentBoard
      reads this, inflight
    {
      AgentBoard(inflight.senders, bodies, sessions, inputs)
    }

    constructor (relaySupportsWs: bool)
      ensures fresh(inflight) && this.relaySupportsWs == relaySupportsWs
      ensures View() == AgentBoard(map[], map[], map[], map[])
    {
      inflight := new Inflight();
      this.relaySupportsWs := relaySupportsWs;
      bodies, sessions, inputs := map[], map[], map[];
    }

    /** `bodyChannel` is the channel created if the message starts a request. */
    method HandleTextMessage(msg: ControlMessage, bodyChannel: Uuid) returns (action: Action)
      modifies this, inflight
      ensures View() == old(View()).Read(Text(msg), bodyChannel)
      ensures action == ActionOn(Text(msg), relaySupportsWs)
      ensures msg.HttpRequestStart? ==>
                && action == SpawnProxy(msg.requestId, DStart(msg.verb, msg.pathAndQuery, msg.headers))
                && inflight.senders == old(inflight.senders)[msg.requestId := bodyChannel]
                && bodies == old(bodies)[bodyChannel := Queue([], 0, true)]
      ensures msg.HttpRequestEnd? ==> inflight.senders == old(inflight.senders) - {msg.requestId}
      ensures msg.ErrorMessage? && msg.errorId.Some? ==>
                inflight.senders == old(inflight.senders) - {msg.errorId.value}
      ensures msg.WsConnect? ==>
                if relaySupportsWs then
                  action == SpawnWs(msg.streamId, DConnect(msg.pathAndQuery, msg.headers, msg.subprotocols))
                else
                  action == Reply(WsConnectAck(msg.streamId, false, None,
                                               Some("relay does not support websocket tunnel capability")))
      ensures msg.Ping? ==> action == Reply(Pong(msg.ts))
      ensures !(msg.HttpRequestStart? || msg.WsConnect? || msg.Ping?) ==> action == Idle
      ensures !(msg.HttpRequestStart? || msg.HttpRequestEnd? || msg.ErrorMessage?) ==>
                inflight.senders == old(inflight.senders) && bodies == old(bodies)
      ensures sessions == old(sessions) && (!msg.WsClose? ==> inputs == old(inputs))
    {
      match msg {
        case HttpRequestStart(requestId, verb, path, headers) =>
          bodies := bodies[bodyChannel := NewQueue()];
          inflight.Insert(requestId, bodyChannel);
          return SpawnProxy(requestId, DStart(verb, path, headers));
        case HttpRequestEnd(requestId) =>
          inflight.Remove(requestId);
        case WsConnect(streamId, path, headers, subprotocols) =>
          if !relaySupportsWs {
            return Reply(WsConnectAck(streamId, false, None, Some(NO_WS_CAPABILITY)));
          }
          return SpawnWs(streamId, DConnect(path, headers, subprotocols));
        case WsClose(streamId, code, reason) =>
          FeedInput(streamId, WsEnd(code, reason));
        case Ping(ts) =>
          return Reply(Pong(ts));
        case ErrorMessage(requestId, _, _) =>
          if requestId.Some? {
            inflight.Remove(requestId.value);
          }
        case _ =>
      }
      return Idle;
    }

    method HandleBinaryMessage(bytes: Bytes)
      modifies this, inflight
      ensures forall ch :: View() == old(View()).Read(Binary(bytes), ch)
    {
      var decoded := DecodeChunkHeader(bytes);
      if decoded.Err? {
        return;
      }
      var (header, payload) := decoded.value;
      match header.kind {
        case RequestBody =>
          var sender := inflight.Lookup(header.requestId);
          if sender.Some? {
            if sender.value in bodies && bodies[sender.value].open {
              var q := bodies[sender.value];
              bodies := bodies[sender.value := q.(sent := q.sent + [payload])];
            } else {
              inflight.Remove(header.requestId);
            }
          }
          if header.fin {
            inflight.Remove(header.requestId);
          }
        case WsClientFrame =>
          var ws := DecodeWsPayload(payload);
          if ws.Ok? {
            var (opcode, data) := ws.value;
            FeedInput(header.requestId, WsFrame(opcode, data));
          }
        case ResponseBody =>
        case WsLocalFrame =>
      }
    }

    method FeedInput(streamId: Uuid, ev: WsEvent)
      modifies this`inputs
      ensures View() == old(View()).FeedWs(streamId, ev)
    {
      if streamId in sessions && sessions[streamId] in inputs && inputs[sessions[streamId]].open {
        var q := inputs[sessions[streamId]];
        inputs := inputs[sessions[streamId] := q.(sent := q.sent + [ev])];
      }
    }
  }

  // ---- one proxied request ----

  /** What the local server does: no answer at all, or an answer whose body may fail (None). */
  datatype LocalAnswer =
    | Unreachable
    | Answered(status: nat, headers: Headers, body: seq<Option<Bytes>>)

  const LOCAL_PROXY_ERROR: string := "local_proxy_error"

  predicate BodyComplete(body: seq<Option<Bytes>>) { forall i | 0 <= i < |body| :: body[i].Some? }

  /** All that the agent says about a request, if the link lets it. */
  function ResponseWires(version: byte, requestId: Uuid, local: LocalAnswer, message: string): seq<Wire> {
    var failure := Text(ErrorMessage(Some(requestId), LOCAL_PROXY_ERROR, message));
    match local
    case Unreachable => [failure]
    case Answered(status, headers, body) =>
      [Text(HttpResponseStart(requestId, status, headers))]
        + BodyFrames(ResponseBody, version, requestId, NonEmpty(ReadOk(body)))
        + [if BodyComplete(body) then Text(HttpResponseEnd(requestId)) else failure]
  }

  /** What the relay reads in a start, a body and one message more, as far as they are sent. */
  lemma WiresMeaning(version: byte, requestId: Uuid, status: nat, headers: Headers, chunks: seq<Bytes>, last: Wire,
                     ev: UpEvent, sent: seq<Wire>)
    requires IsSupported(version) && TargetOf(last) == HttpId(requestId) && UpOf(last) == [ev]
    requires sent <= [Text(HttpResponseStart(requestId, status, headers))]
                     + BodyFrames(ResponseBody, version, requestId, chunks) + [last]
    ensures var told := [UHttp(Start(status, headers))] + BodyEvents(chunks) + [ev];
            Tells(sent, HttpId(requestId), told) && UpFor(HttpId(requestId), sent) == told[..|sent|]
  {
    hide BodyFrame, TargetOf, UpOf, UpFor;
    var told := [UHttp(Start(status, headers))] + BodyEvents(chunks) + [ev];
    forall i | 0 <= i < |sent| ensures TargetOf(sent[i]) == HttpId(requestId) && UpOf(sent[i]) == [told[i]] {
      StartMeaning(requestId, status, headers);
      if 1 <= i < |told| - 1 {
        BodyFrameMeaning(StreamKind.ResponseBody, version, requestId, SeqNo(i - 1), chunks[i - 1]);
      }
    }
    UpForEach(HttpId(requestId), sent, told[..|sent|]);
  }

  lemma StartMeaning(requestId: Uuid, status: nat, headers: Headers)
    ensures var m := Text(HttpResponseStart(requestId, status, headers));
            TargetOf(m) == HttpId(requestId) && UpOf(m) == [UHttp(Start(status, headers))]
  {
  }

  lemma ResponseMeaning(version: byte, requestId: Uuid, local: LocalAnswer, message: string, sent: seq<Wire>)
    requires IsSupported(version) && sent <= ResponseWires(version, requestId, local, message)
    ensures var error := UHttp(RelayEvent.Error("local_proxy_error", message));
            var told := match local
                        case Unreachable => [error]
                        case Answered(status, headers, body) =>
                          [UHttp(Start(status, headers))] + BodyEvents(NonEmpty(ReadOk(body)))
                            + [if forall i | 0 <= i < |body| :: body[i].Some? then UHttp(RelayEvent.End) else error];
            && |told| == |ResponseWires(version, requestId, local, message)|
            && Tells(sent, HttpId(requestId), told) && UpFor(HttpId(requestId), sent) == told[..|sent|]
  {
    hide NonEmpty, ReadOk, BodyFrame, TargetOf, UpOf, UpFor;
    var error := UHttp(RelayEvent.Error("local_proxy_error", message));
    LastMeaning(requestId, message);
    match local {
      case Unreachable => UpForEach(HttpId(requestId), sent, [error][..|sent|]);
      case Answered(status, headers, body) =>
        var wires := ResponseWires(version, requestId, local, message);
        WiresMeaning(version, requestId, status, headers, NonEmpty(ReadOk(body)), wires[|wires| - 1],
                     if BodyComplete(body) then UHttp(RelayEvent.End) else error, sent);
    }
  }

  lemma LastMeaning(requestId: Uuid, message: string)
    ensures var m := Text(HttpResponseEnd(requestId));
            TargetOf(m) == HttpId(requestId) && UpOf(m) == [UHttp(RelayEvent.End)]
    ensures var m := Text(ErrorMessage(Some(requestId), LOCAL_PROXY_ERROR, message));
            && TargetOf(m) == HttpId(requestId)
            && UpOf(m) == [UHttp(RelayEvent.Error("local_proxy_error", message))]
  {
  }

  function Take<T>(s: seq<T>, n: nat): seq<T> { if n <= |s| then s[..n] else s }

  /** proxy_one_request with the error report of its caller; the link accepts `accepts` more messages.
      A closed link cuts what is said short, and nothing else does. */
  method ProxyOneRequest(version: byte, requestId: Uuid, local: LocalAnswer, message: string, accepts: nat)
    returns (sent: seq<Wire>)
    ensures sent == Take(ResponseWires(version, requestId, local, message), accepts)
    ensures IsSupported(version) ==>
              var error := UHttp(RelayEvent.Error("local_proxy_error", message));
              var told := match local
                          case Unreachable => [error]
                          case Answered(status, headers, body) =>
                            [UHttp(Start(status, headers))] + BodyEvents(NonEmpty(ReadOk(body)))
                              + [if forall i | 0 <= i < |body| :: body[i].Some? then UHttp(RelayEvent.End) else error];
              && |sent| == (if |told| <= accepts then |told| else accepts)
              && Tells(sent, HttpId(requestId), told)
              && (|told| <= accepts ==> UpFor(HttpId(requestId), sent) == told)
  {
    hide NonEmpty, ReadOk, BodyEvents, BodyFrames, Tells, UpFor, IsSupported;
    var ok;
    sent, ok := RelayResponse(version, requestId, local, message, accepts);
    if !ok {
      var failure := Text(ErrorMessage(Some(requestId), LOCAL_PROXY_ERROR, message));
      if |sent| < accepts {
        sent := sent + [failure];
      }
    }
    if IsSupported(version) {
      ResponseMeaning(version, requestId, local, message, sent);
    }
  }

  /** The task as far as its error report: a start, the body, an end. */
  method RelayResponse(version: byte, requestId: Uuid, local: LocalAnswer, ghost message: string, accepts: nat)
    returns (sent: seq<Wire>, ok: bool)
    ensures ok ==> local.Answered? && BodyComplete(local.body)
    ensures ok ==> sent == ResponseWires(version, requestId, local, message) && |sent| <= accepts
    ensures !ok && |sent| < accepts ==>
              var all := ResponseWires(version, requestId, local, message);
              sent == all[..|all| - 1] && (local.Unreachable? || !BodyComplete(local.body))
    ensures !ok && |sent| >= accepts ==>
              sent == Take(ResponseWires(version, requestId, local, message), accepts)
    ensures IsSupported(version) && local.Answered? ==>
              var told := [UHttp(Start(local.status, local.headers))] + BodyEvents(NonEmpty(ReadOk(local.body)));
              && Tells(sent, HttpId(requestId), told + [UHttp(RelayEvent.End)])
              && (ok ==> UpFor(HttpId(requestId), sent) == told + [UHttp(RelayEvent.End)])
              && (!ok ==> UpFor(HttpId(requestId), sent) <= told)
              && (ok <==> (forall i | 0 <= i < |local.body| :: local.body[i].Some?) && |told| + 1 <= accepts)
    ensures local.Unreachable? ==> !ok && sent == []
  {
    if local.Unreachable? {
      return [], false;
    }
    hide NonEmpty, ReadOk, BodyFrames, BodyEvents, Tells, UpFor;
    NothingSent(requestId);
    var start := Text(HttpResponseStart(requestId, local.status, local.headers));
    if accepts == 0 {
      return [], false;
    }
    var frames, complete := StreamBody(ResponseBody, version, requestId, local.body, accepts - 1);
    sent := [start] + frames;
    if IsSupported(version) {
      ProperMeaning(version, requestId, local, sent);
    }
    if !complete || |sent| == accepts {
      return sent, false;
    }
    sent, ok := sent + [Text(HttpResponseEnd(requestId))], true;
    if IsSupported(version) {
      ProperMeaning(version, requestId, local, sent);
    }
  }

  lemma NothingSent(requestId: Uuid)
    ensures forall told :: Tells([], HttpId(requestId), told)
    ensures UpFor(HttpId(requestId), []) == []
  {
  }

  /** A response without an error, as far as it is sent. */
  lemma ProperMeaning(version: byte, requestId: Uuid, local: LocalAnswer, sent: seq<Wire>)
    requires IsSupported(version) && local.Answered?
    requires sent <= [Text(HttpResponseStart(requestId, local.status, local.headers))]
                     + BodyFrames(ResponseBody, version, requestId, NonEmpty(ReadOk(local.body)))
                     + [Text(HttpResponseEnd(requestId))]
    ensures var told := [UHttp(Start(local.status, local.headers))] + BodyEvents(NonEmpty(ReadOk(local.body)));
            && Tells(sent, HttpId(requestId), told + [UHttp(RelayEvent.End)])
            && (|sent| <= |told| ==> UpFor(HttpId(requestId), sent) <= told)
            && (|sent| > |told| ==> UpFor(HttpId(requestId), sent) == told + [UHttp(RelayEvent.End)])
  {
    hide NonEmpty, ReadOk, Tells, UpFor;
    LastMeaning(requestId, "");
    WiresMeaning(version, requestId, local.status, local.headers, NonEmpty(ReadOk(local.body)),
                 Text(HttpResponseEnd(requestId)), UHttp(RelayEvent.End), sent);
  }
}
