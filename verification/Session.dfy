/** One agent connection at the relay, crates/relay-server/src/ws_session.rs: the registration gate, the
    two message handlers, and a session's life. */
module Session {
  import opened Prelude
  import opened Frame
  import opened Messages
  import opened RelayState
  import opened SharedState
  import Demux

  /** What the gate makes of a connection's first message. */
  datatype Verdict =
    | Silent
    | Rejected(reason: string)
    | Passed(tunnelId: string, version: byte, capabilities: set<string>)

  function Decimal(n: nat): string {
    if n < 10 then [('0' as int + n) as char] else Decimal(n / 10) + [('0' as int + n % 10) as char]
  }

  function FromDecimal(digits: string): int {
    if digits == "" then 0
    else FromDecimal(digits[..|digits| - 1]) * 10 + digits[|digits| - 1] as int - '0' as int
  }

  /** A number in decimal digits, without leading zeros. */
  lemma {:induction false} DecimalMeaning(n: nat)
    ensures FromDecimal(Decimal(n)) == n && forall c | c in Decimal(n) :: '0' <= c <= '9'
    ensures |Decimal(n)| == 1 || (n > 0 && Decimal(n) != "" && Decimal(n)[0] != '0')
  {
    if n < 10 {
      assert Decimal(n)[..0] == "";
    } else {
      DecimalMeaning(n / 10);
      assert Decimal(n)[..|Decimal(n)| - 1] == Decimal(n / 10);
    }
  }

  function Gate(authTokens: set<string>, first: Option<ControlMessage>): Verdict {
    match first
    case None => Silent
    case Some(RegisterAgent(tunnelId, token, protocolVersion, capabilities)) =>
      var version := protocolVersion.GetOr(LEGACY_PROTOCOL_VERSION);
      if !IsSupported(version) then Rejected("unsupported protocol_version: " + Decimal(version as nat))
      else if !IsValidTunnelId(tunnelId) then Rejected("invalid tunnel_id format")
      else if !ValidToken(authTokens, token) then Rejected("invalid token")
      else Passed(tunnelId, version, set c | c in capabilities)
    case Some(_) => Rejected("first message must be register_agent")
  }

  /** Exactly the registrations that name a supported version (or none), a valid id and a known token; any other
      message is told the first thing that is wrong with it. */
  lemma GateMeaning(authTokens: set<string>, first: Option<ControlMessage>)
    ensures Gate(authTokens, first).Passed? <==>
            && first.Some? && first.value.RegisterAgent?
            && first.value.protocolVersion in {None, Some(1), Some(2)}
            && IsValidTunnelId(first.value.tunnelId) && first.value.token in authTokens
    ensures Gate(authTokens, first).Passed? ==>
              && IsSupported(Gate(authTokens, first).version)
              && Gate(authTokens, first).tunnelId == first.value.tunnelId
              && Gate(authTokens, first).version == first.value.protocolVersion.GetOr(LEGACY_PROTOCOL_VERSION)
              && Gate(authTokens, first).capabilities == set cap | cap in first.value.capabilities
    ensures Gate(authTokens, first).Silent? <==> first.None?
    ensures Gate(authTokens, first).Rejected? ==>
              Gate(authTokens, first).reason ==
              if !first.value.RegisterAgent? then "first message must be register_agent"
              else if first.value.protocolVersion !in {None, Some(1), Some(2)} then
                "unsupported protocol_version: " + Decimal(first.value.protocolVersion.value as nat)
              else if !IsValidTunnelId(first.value.tunnelId) then "invalid tunnel_id format"
              else "invalid token"
  {
  }

  function RelayCapabilities(): seq<string> { [CAP_WS_TUNNEL_V1] }

  function AckFor(ok: bool, reason: Option<string>): ControlMessage {
    RegisterAck(ok, reason, Some(PROTOCOL_VERSION), RelayCapabilities())
  }

  const IN_USE: string := "tunnel_id already in use"

  /** Everything up to the session loop; `connectionId` is new and `sender` leads to this connection. Whoever
      sends anything is answered, and told `ok` exactly if let in. */
  method Register(state: AppState, first: Option<ControlMessage>, connectionId: Uuid, sender: nat)
    returns (ack: Option<ControlMessage>, tunnel: Option<string>)
    modifies state`agents
    ensures ack.Some? <==> first.Some?
    ensures ack.Some? ==>
              && ack.value.RegisterAck? && (ack.value.ok <==> tunnel.Some?)
              && (ack.value.reason.None? <==> tunnel.Some?)
              && ack.value.protocolVersion == Some(2) && ack.value.capabilities == ["ws_tunnel_v1"]
    ensures tunnel.Some? <==>
            && first.Some? && first.value.RegisterAgent?
            && first.value.protocolVersion in {None, Some(1), Some(2)}
            && IsValidTunnelId(first.value.tunnelId) && first.value.token in state.authTokens
            && first.value.tunnelId !in old(state.agents)
    ensures tunnel.Some? ==> tunnel.value == first.value.tunnelId
    ensures match Gate(state.authTokens, first)
            case Silent => ack == None && tunnel == None && state.agents == old(state.agents)
            case Rejected(reason) =>
              ack == Some(AckFor(false, Some(reason))) && tunnel == None && state.agents == old(state.agents)
            case Passed(tunnelId, version, capabilities) =>
              if tunnelId in old(state.agents) then
                ack == Some(AckFor(false, Some(IN_USE))) && tunnel == None && state.agents == old(state.agents)
              else
                && ack == Some(AckFor(true, None)) && tunnel == Some(tunnelId)
                && state.agents ==
                   old(state.agents)[tunnelId := AgentHandle(connectionId, sender, capabilities, version)]
  {
    GateMeaning(state.authTokens, first);
    if first.None? {
      return None, None;
    }
    if !first.value.RegisterAgent? {
      return Some(AckFor(false, Some("first message must be register_agent"))), None;
    }
    var RegisterAgent(tunnelId, token, protocolVersion, capabilities) := first.value;
    var version := protocolVersion.GetOr(LEGACY_PROTOCOL_VERSION);
    if !IsSupported(version) {
      return Some(AckFor(false, Some("unsupported protocol_version: " + Decimal(version as nat)))), None;
    }
    if !IsValidTunnelId(tunnelId) {
      return Some(AckFor(false, Some("invalid tunnel_id format"))), None;
    }
    if !ValidToken(state.authTokens, token) {
      return Some(AckFor(false, Some("invalid token"))), None;
    }
    var inserted := state.InsertAgentIfAbsent(
      tunnelId, AgentHandle(connectionId, sender, (set c | c in capabilities), version));
    if !inserted {
      return Some(AckFor(false, Some(IN_USE))), None;
    }
    return Some(AckFor(true, None)), Some(tunnelId);
  }

  method HandleTextMessage(state: AppState, msg: ControlMessage) returns (reply: Option<ControlMessage>)
    requires state.Valid()
    modifies state
    ensures state.Valid() && state.View() == old(state.View()).Handle(Text(msg))
    ensures reply == if msg.Ping? then Some(Pong(msg.ts)) else None
  {
    HandleSound(state.View(), Text(msg));
    reply := None;
    ghost var v := state.View();
    match msg {
      case HttpResponseStart(requestId, status, headers) =>
        ApplyOne(v, requestId, UHttp(Start(status, headers)));
        state.NotifyStart(requestId, status, headers);
      case HttpResponseEnd(requestId) =>
        ApplyOne(v, requestId, UHttp(End));
        state.NotifyEnd(requestId);
      case WsConnectAck(streamId, ok, sub, reason) =>
        ApplyOne(v, streamId, UAck(Ack(ok, sub, reason)));
        state.NotifyWsConnectAck(streamId, ok, sub, reason);
      case WsClose(streamId, code, reason) =>
        ApplyOne(v, streamId, UWs(WsEnd(code, reason)));
        state.NotifyWsClose(streamId, code, reason);
      case ErrorMessage(requestId, code, message) =>
        if requestId.Some? {
          ApplyOne(v, requestId.value, UHttp(Error(code, message)));
          state.NotifyError(requestId.value, code, message);
        }
      case Ping(ts) => reply := Some(Pong(ts));
      case _ =>
    }
  }

  lemma ApplyOne(v: Relay, id: Uuid, ev: UpEvent)
    ensures v.ApplyAll(id, [ev]) == v.Apply(id, ev)
    ensures v.ApplyAll(id, []) == v
  {
    assert [ev][..0] == [];
  }

  method HandleBinaryMessage(state: AppState, bytes: Bytes) returns (error: Option<ChunkDecodeError>)
    requires state.Valid()
    modifies state
    ensures state.Valid() && state.View() == old(state.View()).Handle(Binary(bytes))
    ensures error.None? <==>
            DecodeFrame(bytes).Ok?
            && (DecodeFrame(bytes).value.0.kind.WsLocalFrame? ==> DecodeWsPayload(DecodeFrame(bytes).value.1).Ok?)
  {
    HandleSound(state.View(), Binary(bytes));
    ghost var v := state.View();
    var decoded := DecodeChunkHeader(bytes);
    if decoded.Err? {
      return Some(decoded.error);
    }
    var (header, payload) := decoded.value;
    var id := header.requestId;
    match header.kind {
      case ResponseBody =>
        ApplyOne(v, id, UHttp(Body(payload)));
        state.NotifyBody(id, payload);
        if header.fin {
          assert [UHttp(Body(payload)), UHttp(End)][..1] == [UHttp(Body(payload))];
          state.NotifyEnd(id);
        }
      case WsLocalFrame =>
        var ws := DecodeWsPayload(payload);
        if ws.Err? {
          return Some(ws.error);
        }
        var (opcode, data) := ws.value;
        ApplyOne(v, id, UWs(WsFrame(opcode, data)));
        state.NotifyWsFrame(id, opcode, data);
      case RequestBody =>
      case WsClientFrame =>
    }
    return None;
  }

  /** What the session answers its messages with: a pong for each ping. */
  function Replies(incoming: seq<Wire>): seq<ControlMessage> {
    if incoming == [] then [] else
      var last := incoming[|incoming| - 1];
      Replies(incoming[..|incoming| - 1]) + if last.Text? && last.msg.Ping? then [Pong(last.msg.ts)] else []
  }

  /** One pong for each ping, with its time, in order. */
  lemma {:induction false} RepliesMeaning(before: seq<Wire>, m: Wire)
    ensures Replies(before + [m]) == Replies(before) + if m.Text? && m.msg.Ping? then [Pong(m.msg.ts)] else []
    ensures Replies([]) == []
  {
    assert (before + [m])[..|before|] == before;
  }

  /** The session's loop over its messages. */
  method SessionLoop(state: AppState, incoming: seq<Wire>) returns (replies: seq<ControlMessage>)
    requires state.Valid()
    modifies state
    ensures state.Valid() && state.View() == old(state.View()).HandleAll(incoming) && replies == Replies(incoming)
  {
    replies := [];
    ghost var v := state.View();
    for i := 0 to |incoming|
      invariant state.Valid() && replies == Replies(incoming[..i])
      invariant state.View() == v.HandleAll(incoming[..i])
    {
      assert incoming[..i + 1][..i] == incoming[..i];
      match incoming[i] {
        case Text(msg) =>
          var reply := HandleTextMessage(state, msg);
          replies := replies + if reply.Some? then [reply.value] else [];
        case Binary(bytes) =>
          var _ := HandleBinaryMessage(state, bytes);
      }
    }
    assert incoming[..|incoming|] == incoming;
  }

  /** A session that no other task disturbs: registration, its messages in order, clean-up. It leaves
      the registry as it found it. */
  method HandleSocket(state: AppState, first: Option<ControlMessage>, incoming: seq<Wire>,
                      connectionId: Uuid, sender: nat)
    returns (sent: seq<ControlMessage>)
    requires state.Valid()
    modifies state
    ensures state.Valid() && state.agents == old(state.agents)
    ensures sent != [] <==> first.Some?
    ensures first.Some? ==>
              && sent[0].RegisterAck? && sent[0].protocolVersion == Some(2) && sent[0].capabilities == ["ws_tunnel_v1"]
              && (sent[0].ok <==> Gate(state.authTokens, first).Passed?
                                  && first.value.tunnelId !in old(state.agents))
              && (!sent[0].ok ==> |sent| == 1 && sent[0].reason.Some?)
              && (Gate(state.authTokens, first).Rejected? ==>
                    sent[0].reason == Some(Gate(state.authTokens, first).reason))
              && (Gate(state.authTokens, first).Passed? && !sent[0].ok ==>
                    sent[0].reason == Some("tunnel_id already in use"))
    ensures var v := old(state.View());
            match Gate(state.authTokens, first)
            case Passed(tunnelId, version, capabilities) =>
              if tunnelId in v.agents then state.View() == v && sent == [AckFor(false, Some(IN_USE))]
              else
                && sent == [AckFor(true, None)] + Replies(incoming)
                && state.View() ==
                   v.(agents := v.agents[tunnelId := AgentHandle(connectionId, sender, capabilities, version)])
                    .HandleAll(incoming).(agents := v.agents).Evict(tunnelId, DisconnectAck(), DisconnectClose())
            case Silent => state.View() == v && sent == []
            case Rejected(reason) => state.View() == v && sent == [AckFor(false, Some(reason))]
  {
    GateMeaning(state.authTokens, first);
    var ack, tunnel := Register(state, first, connectionId, sender);
    sent := if ack.Some? then [ack.value] else [];
    if tunnel.None? {
      return;
    }
    ghost var v := state.View();
    ghost var handle := state.agents[tunnel.value];
    var replies := SessionLoop(state, incoming);
    sent := sent + replies;
    Demux.DemuxCommutes(v, incoming, NoTarget);
    assert state.agents == old(state.agents)[tunnel.value := handle];
    AddThenRemove(old(state.agents), tunnel.value, handle);
    state.RemoveAgentIf(tunnel.value, connectionId);
  }
}
