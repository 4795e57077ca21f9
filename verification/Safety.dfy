/** Every run of the tunnel keeps `Invariants.Inv`: the steps of each component, and then all of them. */
module Safety {
  import opened Prelude
  import opened Frame
  import opened Messages
  import opened Framing
  import opened WsTunnel
  import opened System
  import opened Views
  import opened Invariants
  import opened WireSteps
  import opened RegistrySteps
  import opened RequestSteps
  import opened StreamSteps
  import Agent

  // ---- what a step leaves alone ----

  lemma OneRole(s: Sys, s': Sys, c: nat)
    requires RegInv(s) && c in s.conns && c in s'.conns && SameRole(s.conns[c], s'.conns[c])
    requires s'.conns == s.conns[c := s'.conns[c]]
    requires s'.tokens == s.tokens && s'.nextEpoch == s.nextEpoch && s'.relay.agents == s.relay.agents
    requires SameLock(s.lock, s'.lock)
    requires SameRoutes(s, s')
    ensures RegInv(s')
  {
    hide RegInv;
    SameRegistryKeeps(s, s');
  }

  /** The parts of the state requests have, and streams have not, are all that differs. */
  ghost predicate RequestPart(s: Sys, s': Sys, r: Uuid, q': Req) {
    && s' == s.(reqs := s.reqs[r := q'], relay := s.relay.(http := s'.relay.http), conns := s'.conns)
    && r in s.reqs && q'.conn == s.reqs[r].conn && q'.tunnel == s.reqs[r].tunnel && q'.version == s.reqs[r].version
  }

  lemma RequestQuiet(s: Sys, s': Sys, r: Uuid, q': Req)
    requires Inv(s) && RequestPart(s, s', r, q') && s'.conns == s.conns && HttpInv(s')
    ensures Inv(s')
  {
    hide WireInv, RegInv, HttpInv, WsInv;
    QuietOk(s, s', 0);
    SameRegistryKeeps(s, s');
    SameStreamsKeep(s, s');
  }

  lemma RequestSpeaks(s: Sys, s': Sys, r: Uuid, q': Req, c: nat, m: Wire)
    requires Inv(s) && RequestPart(s, s', r, q') && c in s.conns && s'.conns == s.conns[c := SendDown(s.conns[c], m)]
    requires HonestDown(m) && Sendable(s.conns[c], m) && !TargetOf(m).WsId? && HttpInv(s')
    ensures Inv(s')
  {
    hide WireInv, RegInv, HttpInv, WsInv, HonestDown, TargetOf, WsOf;
    RelaySpeaks(s, s', c, m);
    OneRole(s, s', c);
    LinksAt(s, c);
    SendDownViews(s.conns[c], m);
    SameRelayHere(s, s');
    SameStreamsKeep(s, s');
  }

  lemma TasksAt(s: Sys, c: nat)
    requires WireInv(s) && c in s.conns
    ensures LinksOk(s.conns[c])
    ensures forall r <- s.conns[c].proxies :: s.conns[c].proxies[r].version == PROTOCOL_VERSION
    ensures forall x <- s.conns[c].tasks :: s.conns[c].tasks[x].version == PROTOCOL_VERSION
  {
  }

  /** A task of the agent that serves requests changes, saying `m` if anything. */
  lemma ProxySpeaks(s: Sys, s': Sys, c: nat, k1: Conn, m: Option<Wire>)
    requires Inv(s) && c in s.conns && s' == SetConn(s, c, if m.Some? then SendUp(k1, m.value) else k1)
    requires k1 == s.conns[c].(proxies := k1.proxies, board := s.conns[c].board.(bodies := k1.board.bodies))
    requires forall r <- k1.proxies :: k1.proxies[r].version == PROTOCOL_VERSION
    requires m.Some? ==> HonestUp(m.value) && !TargetOf(m.value).WsId?
    requires HttpInv(s')
    ensures Inv(s')
  {
    hide WireInv, RegInv, HttpInv, WsInv, HonestUp, TargetOf, TrafficOf;
    TasksAt(s, c);
    TaskSpeaks(s, s', c, k1, m);
    OneRole(s, s', c);
    SameLinksTraffic(s.conns[c], k1);
    if m.Some? {
      SendUpViews(k1, m.value);
    }
    SameRelayHere(s, s');
    SameStreamsKeep(s, s');
  }

  /** The parts of the state streams have, and requests have not, are all that differs. */
  ghost predicate StreamPart(s: Sys, s': Sys, x: Uuid, w': Str) {
    && s' == s.(strs := s.strs[x := w'], relay := s.relay.(acks := s'.relay.acks, ws := s'.relay.ws), conns := s'.conns)
    && x in s.strs && w'.conn == s.strs[x].conn && w'.tunnel == s.strs[x].tunnel && w'.version == s.strs[x].version
  }

  lemma StreamQuiet(s: Sys, s': Sys, x: Uuid, w': Str)
    requires Inv(s) && StreamPart(s, s', x, w') && s'.conns == s.conns && WsInv(s')
    ensures Inv(s')
  {
    hide WireInv, RegInv, HttpInv, WsInv;
    QuietOk(s, s', 0);
    SameRegistryKeeps(s, s');
    SameRequestsKeep(s, s');
  }

  lemma StreamSpeaks(s: Sys, s': Sys, x: Uuid, w': Str, c: nat, m: Wire)
    requires Inv(s) && StreamPart(s, s', x, w') && c in s.conns && s'.conns == s.conns[c := SendDown(s.conns[c], m)]
    requires HonestDown(m) && Sendable(s.conns[c], m) && !TargetOf(m).HttpId? && WsInv(s')
    ensures Inv(s')
  {
    hide WireInv, RegInv, HttpInv, WsInv, HonestDown, TargetOf, HttpOf;
    RelaySpeaks(s, s', c, m);
    OneRole(s, s', c);
    LinksAt(s, c);
    SendDownViews(s.conns[c], m);
    SameRequestsKeep(s, s');
  }

  /** A stream's task changes, saying `m` if anything. */
  lemma StreamTaskSpeaks(s: Sys, s': Sys, c: nat, k1: Conn, m: Option<Wire>)
    requires Inv(s) && c in s.conns && s' == SetConn(s, c, if m.Some? then SendUp(k1, m.value) else k1)
    requires k1 == s.conns[c].(tasks := k1.tasks,
                               board := s.conns[c].board.(sessions := k1.board.sessions, inputs := k1.board.inputs))
    requires forall x <- k1.tasks :: k1.tasks[x].version == PROTOCOL_VERSION
    requires m.Some? ==> HonestUp(m.value) && !TargetOf(m.value).HttpId?
    requires WsInv(s')
    ensures Inv(s')
  {
    hide WireInv, RegInv, HttpInv, WsInv, HonestUp, TargetOf, TrafficOf;
    TasksAt(s, c);
    TaskSpeaks(s, s', c, k1, m);
    OneRole(s, s', c);
    SameLinksTraffic(s.conns[c], k1);
    if m.Some? {
      SendUpViews(k1, m.value);
    }
    SameRequestsKeep(s, s');
  }

  // ---- the steps of each component ----

  lemma InvParts(s: Sys)
    ensures Inv(s) <==> WireInv(s) && RegInv(s) && HttpInv(s) && WsInv(s)
  {
    hide WireInv, RegInv, HttpInv, WsInv;
  }

  // ---- requests at the relay ----

  lemma SendStartSafe(s: Sys, r: Uuid, verb: string, path: string, headers: Headers, s': Sys)
    requires Inv(s) && SendStart(s, r, verb, path, headers) == Some(s')
    ensures Inv(s')
  {
    hide Inv, WireInv, RegInv, HttpInv, WsInv;
    InvParts(s);
    SendStartKeeps(s, r, verb, path, headers);
    var c := s.reqs[r].conn;
    if s.conns[c].down.open {
      RequestSpeaks(s, s', r, s'.reqs[r], c, Text(HttpRequestStart(r, verb, path, headers)));
    } else {
      RequestQuiet(s, s', r, s'.reqs[r]);
    }
  }

  lemma AddInflightSafe(s: Sys, r: Uuid, s': Sys)
    requires Inv(s) && AddInflight(s, r) == Some(s')
    ensures Inv(s')
  {
    hide Inv, WireInv, RegInv, HttpInv, WsInv;
    InvParts(s);
    AddInflightKeeps(s, r);
    RequestQuiet(s, s', r, s'.reqs[r]);
  }

  lemma UploadChunkSafe(s: Sys, r: Uuid, chunk: Bytes, s': Sys)
    requires Inv(s) && UploadChunk(s, r, chunk) == Some(s')
    ensures Inv(s')
  {
    hide Inv, WireInv, RegInv, HttpInv, WsInv, HonestDown, BodyFrame, TargetOf, RegVersion, Versioned;
    InvParts(s);
    UploadChunkKeeps(s, r, chunk);
    var q, c := s.reqs[r], s.reqs[r].conn;
    if chunk != [] && s.conns[c].down.open {
      VersionOf(s, r);
      RoutedAt(s, r);
      StartedOnLink(s, r);
      BodyFrameHonest(RequestBody, q.version, r, SeqNo(|q.sent|), chunk);
      BodyFrameMeaning(RequestBody, q.version, r, SeqNo(|q.sent|), chunk);
      RequestSpeaks(s, s', r, s'.reqs[r], c, BodyFrame(RequestBody, q.version, r, SeqNo(|q.sent|), chunk));
    } else {
      RequestQuiet(s, s', r, s'.reqs[r]);
    }
  }

  lemma UploadStopsSafe(s: Sys, r: Uuid, failed: bool, s': Sys)
    requires Inv(s) && UploadStops(s, r, failed) == Some(s')
    ensures Inv(s')
  {
    hide Inv, WireInv, RegInv, HttpInv, WsInv;
    InvParts(s);
    UploadStopsKeeps(s, r, failed);
    RequestQuiet(s, s', r, s'.reqs[r]);
  }

  lemma SendEndSafe(s: Sys, r: Uuid, s': Sys)
    requires Inv(s) && SendEnd(s, r) == Some(s')
    ensures Inv(s')
  {
    hide Inv, WireInv, RegInv, HttpInv, WsInv;
    InvParts(s);
    SendEndKeeps(s, r);
    var c := s.reqs[r].conn;
    if s.conns[c].down.open {
      RequestSpeaks(s, s', r, s'.reqs[r], c, Text(HttpRequestEnd(r)));
    } else {
      RequestQuiet(s, s', r, s'.reqs[r]);
    }
  }

  lemma NextEventSafe(s: Sys, r: Uuid, s': Sys)
    requires Inv(s) && NextEvent(s, r) == Some(s')
    ensures Inv(s')
  {
    hide Inv, WireInv, RegInv, HttpInv, WsInv;
    InvParts(s);
    NextEventKeeps(s, r);
    RequestQuiet(s, s', r, s'.reqs[r]);
  }

  lemma YieldEarlySafe(s: Sys, r: Uuid, s': Sys)
    requires Inv(s) && YieldEarly(s, r) == Some(s')
    ensures Inv(s')
  {
    hide Inv, WireInv, RegInv, HttpInv, WsInv;
    InvParts(s);
    YieldEarlyKeeps(s, r);
    RequestQuiet(s, s', r, s'.reqs[r]);
  }

  lemma RemoveEntrySafe(s: Sys, r: Uuid, s': Sys)
    requires Inv(s) && RemoveEntry(s, r) == Some(s')
    ensures Inv(s')
  {
    hide Inv, WireInv, RegInv, HttpInv, WsInv;
    InvParts(s);
    RemoveEntryKeeps(s, r);
    RequestQuiet(s, s', r, s'.reqs[r]);
  }

  lemma DropReceiverSafe(s: Sys, r: Uuid, s': Sys)
    requires Inv(s) && DropReceiver(s, r) == Some(s')
    ensures Inv(s')
  {
    hide Inv, WireInv, RegInv, HttpInv, WsInv;
    InvParts(s);
    DropReceiverKeeps(s, r);
    RequestQuiet(s, s', r, s'.reqs[r]);
  }

  lemma AbandonSafe(s: Sys, r: Uuid, s': Sys)
    requires Inv(s) && Abandon(s, r) == Some(s')
    ensures Inv(s')
  {
    hide Inv, WireInv, RegInv, HttpInv, WsInv;
    InvParts(s);
    AbandonKeeps(s, r);
    RequestQuiet(s, s', r, s'.reqs[r]);
  }

  lemma ReceiveFailsSafe(s: Sys, r: Uuid, timeout: bool, s': Sys)
    requires Inv(s) && ReceiveFails(s, r, timeout) == Some(s')
    ensures Inv(s')
  {
    hide Inv, WireInv, RegInv, HttpInv, WsInv;
    InvParts(s);
    ReceiveFailsKeeps(s, r, timeout);
    RequestQuiet(s, s', r, s'.reqs[r]);
  }

  lemma ArriveSafe(s: Sys, r: Uuid, tunnelId: string, s': Sys)
    requires Inv(s) && Arrive(s, r, tunnelId) == Some(s')
    ensures Inv(s')
  {
    hide Inv, WireInv, RegInv, HttpInv, WsInv;
    InvParts(s);
    ArriveKeeps(s, r, tunnelId);
    QuietOk(s, s', 0);
    ArriveReg(s, r, tunnelId);
    SameStreamsKeep(s, s');
    InvParts(s');
  }

  // ---- requests at the agent ----

  lemma LocalBodySafe(s: Sys, c: nat, r: Uuid, drop: bool, s': Sys)
    requires Inv(s) && LocalBody(s, c, r, drop) == Some(s')
    ensures Inv(s')
  {
    hide Inv, WireInv, RegInv, HttpInv, WsInv;
    InvParts(s);
    LocalBodyKeeps(s, c, r, drop);
    TasksAt(s, c);
    ProxySpeaks(s, s', c, s'.conns[c], None);
  }

  lemma LocalAnswersSafe(s: Sys, c: nat, r: Uuid, status: nat, headers: Headers, s': Sys)
    requires Inv(s) && LocalAnswers(s, c, r, status, headers) == Some(s')
    ensures Inv(s')
  {
    hide Inv, WireInv, RegInv, HttpInv, WsInv;
    InvParts(s);
    LocalAnswersKeeps(s, c, r, status, headers);
    TasksAt(s, c);
    if s.conns[c].up.open {
      var p := s.conns[c].proxies[r].(pc := Relaying, start := Some(Start(status, headers)));
      ProxySpeaks(s, s', c, SetProxy(s.conns[c], r, p), Some(Text(HttpResponseStart(r, status, headers))));
    } else {
      ProxySpeaks(s, s', c, s'.conns[c], None);
    }
  }

  lemma LocalChunkSafe(s: Sys, c: nat, r: Uuid, chunk: Bytes, s': Sys)
    requires Inv(s) && LocalChunk(s, c, r, chunk) == Some(s')
    ensures Inv(s')
  {
    hide Inv, WireInv, RegInv, HttpInv, WsInv, HonestUp, BodyFrame, TargetOf;
    InvParts(s);
    LocalChunkKeeps(s, c, r, chunk);
    TasksAt(s, c);
    var p := s.conns[c].proxies[r];
    if chunk != [] && s.conns[c].up.open {
      BodyFrameHonest(ResponseBody, p.version, r, SeqNo(|p.emitted|), chunk);
      BodyFrameMeaning(ResponseBody, p.version, r, SeqNo(|p.emitted|), chunk);
      ProxySpeaks(s, s', c, SetProxy(s.conns[c], r, s'.conns[c].proxies[r]),
                  Some(BodyFrame(ResponseBody, p.version, r, SeqNo(|p.emitted|), chunk)));
    } else {
      ProxySpeaks(s, s', c, s'.conns[c], None);
    }
  }

  lemma LocalFailsSafe(s: Sys, c: nat, r: Uuid, message: string, s': Sys)
    requires Inv(s) && LocalFails(s, c, r, message) == Some(s')
    ensures Inv(s')
  {
    hide Inv, WireInv, RegInv, HttpInv, WsInv;
    InvParts(s);
    LocalFailsKeeps(s, c, r, message);
    TasksAt(s, c);
    ProxySpeaks(s, s', c, s'.conns[c], None);
  }

  lemma LocalEndsSafe(s: Sys, c: nat, r: Uuid, s': Sys)
    requires Inv(s) && LocalEnds(s, c, r) == Some(s')
    ensures Inv(s')
  {
    hide Inv, WireInv, RegInv, HttpInv, WsInv;
    InvParts(s);
    LocalEndsKeeps(s, c, r);
    TasksAt(s, c);
    if s.conns[c].up.open {
      ProxySpeaks(s, s', c, SetProxy(s.conns[c], r, s'.conns[c].proxies[r]), Some(Text(HttpResponseEnd(r))));
    } else {
      ProxySpeaks(s, s', c, s'.conns[c], None);
    }
  }

  lemma ReportFailureSafe(s: Sys, c: nat, r: Uuid, s': Sys)
    requires Inv(s) && ReportFailure(s, c, r) == Some(s')
    ensures Inv(s')
  {
    hide Inv, WireInv, RegInv, HttpInv, WsInv;
    InvParts(s);
    ReportFailureKeeps(s, c, r);
    TasksAt(s, c);
    var p := s.conns[c].proxies[r];
    if s.conns[c].up.open {
      ProxySpeaks(s, s', c, SetProxy(s.conns[c], r, s'.conns[c].proxies[r]),
                  Some(Text(ErrorMessage(Some(r), Agent.LOCAL_PROXY_ERROR, p.pc.message))));
    } else {
      ProxySpeaks(s, s', c, s'.conns[c], None);
    }
  }

  // ---- streams at the relay ----

  lemma WsArriveSafe(s: Sys, x: Uuid, tunnelId: string, s': Sys)
    requires Inv(s) && WsArrive(s, x, tunnelId) == Some(s')
    ensures Inv(s')
  {
    hide Inv, WireInv, RegInv, HttpInv, WsInv;
    InvParts(s);
    WsArriveKeeps(s, x, tunnelId);
    QuietOk(s, s', 0);
    WsArriveReg(s, x, tunnelId);
    SameRequestsKeep(s, s');
    InvParts(s');
  }

  lemma AddWsPendingSafe(s: Sys, x: Uuid, s': Sys)
    requires Inv(s) && AddWsPending(s, x) == Some(s')
    ensures Inv(s')
  {
    hide Inv, WireInv, RegInv, HttpInv, WsInv;
    InvParts(s);
    AddWsPendingKeeps(s, x);
    StreamQuiet(s, s', x, s'.strs[x]);
  }

  lemma SendConnectSafe(s: Sys, x: Uuid, path: string, headers: Headers, subprotocols: seq<string>, s': Sys)
    requires Inv(s) && SendConnect(s, x, path, headers, subprotocols) == Some(s')
    ensures Inv(s')
  {
    hide Inv, WireInv, RegInv, HttpInv, WsInv;
    InvParts(s);
    SendConnectKeeps(s, x, path, headers, subprotocols);
    var c := s.strs[x].conn;
    if s.conns[c].down.open {
      StreamSpeaks(s, s', x, s'.strs[x], c, Text(WsConnect(x, path, headers, subprotocols)));
    } else {
      StreamQuiet(s, s', x, s'.strs[x]);
    }
  }

  lemma UpgradeLostSafe(s: Sys, x: Uuid, s': Sys)
    requires Inv(s) && UpgradeLost(s, x) == Some(s')
    ensures Inv(s')
  {
    hide Inv, WireInv, RegInv, HttpInv, WsInv;
    InvParts(s);
    MoveKeeps(s, x, StrDone);
    StreamQuiet(s, s', x, s'.strs[x]);
  }

  lemma AddWsStreamSafe(s: Sys, x: Uuid, s': Sys)
    requires Inv(s) && AddWsStream(s, x) == Some(s')
    ensures Inv(s')
  {
    hide Inv, WireInv, RegInv, HttpInv, WsInv;
    InvParts(s);
    AddWsStreamKeeps(s, x);
    StreamQuiet(s, s', x, s'.strs[x]);
  }

  lemma AckArrivesSafe(s: Sys, x: Uuid, s': Sys)
    requires Inv(s) && AckArrives(s, x) == Some(s')
    ensures Inv(s')
  {
    hide Inv, WireInv, RegInv, HttpInv, WsInv;
    InvParts(s);
    AckArrivesKeeps(s, x);
    StreamQuiet(s, s', x, s'.strs[x]);
  }

  lemma AckTimeoutSafe(s: Sys, x: Uuid, s': Sys)
    requires Inv(s) && AckTimeout(s, x) == Some(s')
    ensures Inv(s')
  {
    hide Inv, WireInv, RegInv, HttpInv, WsInv;
    InvParts(s);
    MoveKeeps(s, x, Rejecting);
    StreamQuiet(s, s', x, s'.strs[x]);
  }

  lemma RejectClientSafe(s: Sys, x: Uuid, s': Sys)
    requires Inv(s) && RejectClient(s, x) == Some(s')
    ensures Inv(s')
  {
    hide Inv, WireInv, RegInv, HttpInv, WsInv;
    InvParts(s);
    MoveKeeps(s, x, Unstreaming);
    StreamQuiet(s, s', x, s'.strs[x]);
  }

  lemma RemoveWsStreamSafe(s: Sys, x: Uuid, s': Sys)
    requires Inv(s) && RemoveWsStream(s, x) == Some(s')
    ensures Inv(s')
  {
    hide Inv, WireInv, RegInv, HttpInv, WsInv;
    InvParts(s);
    UnlistKeeps(s, x);
    StreamQuiet(s, s', x, s'.strs[x]);
  }

  lemma RemoveWsPendingSafe(s: Sys, x: Uuid, s': Sys)
    requires Inv(s) && RemoveWsPending(s, x) == Some(s')
    ensures Inv(s')
  {
    hide Inv, WireInv, RegInv, HttpInv, WsInv;
    InvParts(s);
    UnpendKeeps(s, x);
    StreamQuiet(s, s', x, s'.strs[x]);
  }

  lemma LeaveStreamSafe(s: Sys, x: Uuid, s': Sys)
    requires Inv(s) && LeaveStream(s, x) == Some(s')
    ensures Inv(s')
  {
    hide Inv, WireInv, RegInv, HttpInv, WsInv;
    InvParts(s);
    LeaveStreamKeeps(s, x);
    StreamQuiet(s, s', x, s'.strs[x]);
  }

  lemma ClientTurnSafe(s: Sys, x: Uuid, input: Input, delivers: bool, s': Sys)
    requires Inv(s) && ClientTurn(s, x, input, delivers) == Some(s')
    ensures Inv(s')
  {
    hide Inv, WireInv, RegInv, HttpInv, WsInv, WireFor, HonestDown, TargetOf, WsSenderLeft, RegVersion, Versioned;
    InvParts(s);
    ClientTurnKeeps(s, x, input, delivers);
    var w, c := s.strs[x], s.strs[x].conn;
    if EmittedEvent(ClientSide, input).Some? && s.conns[c].down.open {
      var ev := EmittedEvent(ClientSide, input).value;
      StreamVersion(s, x);
      StreamRoutedAt(s, x);
      ConnectedOnLink(s, x);
      WireForHonest(ClientSide, w.version, x, ev);
      WireForMeaning(ClientSide, w.version, x, ev);
      StreamSpeaks(s, s', x, s'.strs[x], c, WireFor(ClientSide, w.version, x, ev));
    } else {
      StreamQuiet(s, s', x, s'.strs[x]);
    }
  }

  /** A request's body, and a stream's frames, come after its start. */
  lemma StartedOnLink(s: Sys, r: Uuid)
    requires HttpInv(s) && r in s.reqs && s.reqs[r].pc.Uploading?
    ensures s.reqs[r].conn in s.conns && s.conns[s.reqs[r].conn].down.sent != []
  {
    hide AgentOk, ChanOk, LoopOk;
    assert HttpOk(s, r, s.reqs[r].conn);
  }

  lemma ConnectedOnLink(s: Sys, x: Uuid)
    requires WsInv(s) && x in s.strs && s.strs[x].pc.Serving?
    ensures s.strs[x].conn in s.conns && s.conns[s.strs[x].conn].down.sent != []
  {
    hide ShotOk, EventsOk, DeliveredOk, TaskSide;
    assert WsOk(s, x, s.strs[x].conn);
  }

  lemma RoutedAt(s: Sys, r: Uuid)
    requires RegInv(s) && r in s.reqs
    ensures s.reqs[r].conn in s.conns && RegVersion(s.conns[s.reqs[r].conn]) == s.reqs[r].version
  {
  }

  lemma StreamRoutedAt(s: Sys, x: Uuid)
    requires RegInv(s) && x in s.strs
    ensures s.strs[x].conn in s.conns && RegVersion(s.conns[s.strs[x].conn]) == s.strs[x].version
  {
  }

  lemma StreamVersion(s: Sys, x: Uuid)
    requires WsInv(s) && x in s.strs
    ensures IsSupported(s.strs[x].version)
  {
    assert WsOk(s, x, s.strs[x].conn);
  }

  // ---- streams at the agent ----

  lemma TaskAcksSafe(s: Sys, c: nat, x: Uuid, sub: Option<string>, s': Sys)
    requires Inv(s) && TaskAcks(s, c, x, sub) == Some(s')
    ensures Inv(s')
  {
    hide Inv, WireInv, RegInv, HttpInv, WsInv;
    InvParts(s);
    TaskAcksKeeps(s, c, x, sub);
    TasksAt(s, c);
    if s.conns[c].up.open {
      StreamTaskSpeaks(s, s', c, SetTask(s.conns[c], x, s'.conns[c].tasks[x]),
                       Some(Text(WsConnectAck(x, true, sub, None))));
    } else {
      StreamTaskSpeaks(s, s', c, s'.conns[c], None);
    }
  }

  lemma TaskDialFailsSafe(s: Sys, c: nat, x: Uuid, reason: string, s': Sys)
    requires Inv(s) && TaskDialFails(s, c, x, reason) == Some(s')
    ensures Inv(s')
  {
    hide Inv, WireInv, RegInv, HttpInv, WsInv;
    InvParts(s);
    TaskDialFailsKeeps(s, c, x, reason);
    TasksAt(s, c);
    StreamTaskSpeaks(s, s', c, s'.conns[c], None);
  }

  lemma TaskRefusesSafe(s: Sys, c: nat, x: Uuid, s': Sys)
    requires Inv(s) && TaskRefuses(s, c, x) == Some(s')
    ensures Inv(s')
  {
    hide Inv, WireInv, RegInv, HttpInv, WsInv;
    InvParts(s);
    TaskRefusesKeeps(s, c, x);
    TasksAt(s, c);
    if s.conns[c].up.open {
      StreamTaskSpeaks(s, s', c, SetTask(s.conns[c], x, s'.conns[c].tasks[x]),
                       Some(Text(WsConnectAck(x, false, None, Some(s.conns[c].tasks[x].pc.reason)))));
    } else {
      StreamTaskSpeaks(s, s', c, s'.conns[c], None);
    }
  }

  lemma TaskListensSafe(s: Sys, c: nat, x: Uuid, s': Sys)
    requires Inv(s) && TaskListens(s, c, x) == Some(s')
    ensures Inv(s')
  {
    hide Inv, WireInv, RegInv, HttpInv, WsInv;
    InvParts(s);
    TaskListensKeeps(s, c, x);
    TasksAt(s, c);
    StreamTaskSpeaks(s, s', c, s'.conns[c], None);
  }

  lemma TaskDropsInputSafe(s: Sys, c: nat, x: Uuid, s': Sys)
    requires Inv(s) && TaskDropsInput(s, c, x) == Some(s')
    ensures Inv(s')
  {
    hide Inv, WireInv, RegInv, HttpInv, WsInv;
    InvParts(s);
    TaskDropsInputKeeps(s, c, x);
    TasksAt(s, c);
    StreamTaskSpeaks(s, s', c, s'.conns[c], None);
  }

  lemma TaskUnlistsSafe(s: Sys, c: nat, x: Uuid, s': Sys)
    requires Inv(s) && TaskUnlists(s, c, x) == Some(s')
    ensures Inv(s')
  {
    hide Inv, WireInv, RegInv, HttpInv, WsInv;
    InvParts(s);
    TaskUnlistsKeeps(s, c, x);
    TasksAt(s, c);
    StreamTaskSpeaks(s, s', c, s'.conns[c], None);
  }

  lemma TaskTurnSafe(s: Sys, c: nat, x: Uuid, input: Input, delivers: bool, s': Sys)
    requires Inv(s) && TaskTurn(s, c, x, input, delivers) == Some(s')
    ensures Inv(s')
  {
    hide Inv, WireInv, RegInv, HttpInv, WsInv, WireFor, HonestUp, TargetOf;
    InvParts(s);
    TaskTurnKeeps(s, c, x, input, delivers);
    TasksAt(s, c);
    var k := s.conns[c];
    if EmittedEvent(LocalSide, input).Some? && k.up.open {
      var m := WireFor(LocalSide, k.tasks[x].version, x, EmittedEvent(LocalSide, input).value);
      WireForHonest(LocalSide, k.tasks[x].version, x, EmittedEvent(LocalSide, input).value);
      WireForMeaning(LocalSide, k.tasks[x].version, x, EmittedEvent(LocalSide, input).value);
      StreamTaskSpeaks(s, s', c, s'.conns[c].(up := k.up), Some(m));
    } else {
      StreamTaskSpeaks(s, s', c, s'.conns[c], None);
    }
  }

  // ---- sessions ----

  lemma OpenConnSafe(s: Sys, c: nat, tunnelId: string, token: string, version: Option<byte>, caps: seq<string>, s': Sys)
    requires Inv(s) && OpenConn(s, c, tunnelId, token, version, caps) == Some(s')
    ensures Inv(s')
  {
    hide Inv, WireInv, RegInv, HttpInv, WsInv;
    InvParts(s);
    OpenConnOk(s, c, tunnelId, token, version, caps);
    OpenConnReg(s, c, tunnelId, token, version, caps);
    OpenConnKeeps(s, c, tunnelId, token, version, caps);
    OpenConnStreams(s, c, tunnelId, token, version, caps);
    InvParts(s');
  }

  lemma SessionRegisterSafe(s: Sys, c: nat, id: Uuid, s': Sys)
    requires Inv(s) && SessionRegister(s, c, id) == Some(s')
    ensures Inv(s')
  {
    hide Inv, WireInv, RegInv, HttpInv, WsInv, SessionRegister;
    InvParts(s);
    EpochPositive(s);
    SessionRegisterOk(s, c, id);
    RegisterReg(s, c, id);
    SessionRegisterKeeps(s, c, id);
    SessionRegisterStreams(s, c, id);
    InvParts(s');
  }

  lemma SessionGiveUpSafe(s: Sys, c: nat, s': Sys)
    requires Inv(s) && SessionGiveUp(s, c) == Some(s')
    ensures Inv(s')
  {
    hide Inv, WireInv, RegInv, HttpInv, WsInv;
    InvParts(s);
    IdleAt(s, c);
    QuietOk(s, s', c);
    OneRole(s, s', c);
    QuietKeeps(s, s', c);
    SameRelayHere(s, s');
    LifeKeeps(s, s', c);
    InvParts(s');
  }

  lemma IdleAt(s: Sys, c: nat)
    requires WireInv(s) && c in s.conns
    ensures !s.conns[c].session.Live? ==> s.conns[c].job.NoJob?
  {
  }

  lemma SessionAckSafe(s: Sys, c: nat, s': Sys)
    requires Inv(s) && SessionAck(s, c) == Some(s')
    ensures Inv(s')
  {
    hide Inv, WireInv, RegInv, HttpInv, WsInv;
    InvParts(s);
    SessionAckOk(s, c);
    OneRole(s, s', c);
    SessionAckKeeps(s, c);
    SessionAckStreams(s, c);
    InvParts(s');
  }

  lemma SessionReadSafe(s: Sys, c: nat, s': Sys)
    requires Inv(s) && SessionRead(s, c) == Some(s')
    ensures Inv(s')
  {
    hide Inv, WireInv, RegInv, HttpInv, WsInv;
    InvParts(s);
    SessionReadOk(s, c);
    OneRole(s, s', c);
    SessionReadKeeps(s, c);
    SessionReadStreams(s, c);
    InvParts(s');
  }

  lemma SessionStepSafe(s: Sys, c: nat, s': Sys)
    requires Inv(s) && SessionStep(s, c) == Some(s')
    ensures Inv(s')
  {
    hide Inv, WireInv, RegInv, HttpInv, WsInv;
    InvParts(s);
    SessionStepOk(s, c);
    OneRole(s, s', c);
    SessionStepKeeps(s, c);
    SessionStepStreams(s, c);
    InvParts(s');
  }

  lemma SessionLeaveSafe(s: Sys, c: nat, s': Sys)
    requires Inv(s) && SessionLeave(s, c) == Some(s')
    ensures Inv(s')
  {
    hide Inv, WireInv, RegInv, HttpInv, WsInv;
    InvParts(s);
    QuietOk(s, s', c);
    LeaveReg(s, c);
    QuietKeeps(s, s', c);
    SameRelayHere(s, s');
    LifeKeeps(s, s', c);
    InvParts(s');
  }

  lemma SessionEndSafe(s: Sys, c: nat, s': Sys)
    requires Inv(s) && SessionEnd(s, c) == Some(s')
    ensures Inv(s')
  {
    hide Inv, WireInv, RegInv, HttpInv, WsInv;
    InvParts(s);
    CleaningUp(s, c);
    QuietOk(s, s', c);
    EndReg(s, c);
    QuietKeeps(s, s', c);
    SameRelayHere(s, s');
    LifeKeeps(s, s', c);
    InvParts(s');
  }

  lemma CleaningUp(s: Sys, c: nat)
    requires RegInv(s) && WireInv(s) && s.lock.Held? && s.lock.conn == c
    ensures c in s.conns && s.conns[c].session.Cleaning? && s.conns[c].job.NoJob?
  {
  }

  lemma FindEntrySafe(s: Sys, c: nat, x: Uuid, s': Sys)
    requires Inv(s) && FindEntry(s, c, x) == Some(s')
    ensures Inv(s')
  {
    hide Inv, WireInv, RegInv, HttpInv, WsInv;
    InvParts(s);
    SweepTunnel(s, c);
    MatchIsOwn(s, s.lock.sweep.tunnelId, x);
    FindReg(s, c, x);
    SearchKeeps(s, s');
    QuietOk(s, s', c);
    SameRequestsKeep(s, s');
    InvParts(s');
  }

  lemma NextPhaseSafe(s: Sys, c: nat, s': Sys)
    requires Inv(s) && NextPhase(s, c) == Some(s')
    ensures Inv(s')
  {
    hide Inv, WireInv, RegInv, HttpInv, WsInv;
    InvParts(s);
    SearchKeeps(s, s');
    QuietOk(s, s', c);
    SameRegistryKeeps(s, s');
    SameRequestsKeep(s, s');
    InvParts(s');
  }

  lemma EvictPendingSafe(s: Sys, c: nat, x: Uuid, s': Sys)
    requires Inv(s) && EvictPending(s, c, x) == Some(s')
    ensures Inv(s')
  {
    hide Inv, WireInv, RegInv, HttpInv, WsInv;
    InvParts(s);
    EvictPendingKeeps(s, c, x);
    QuietOk(s, s', c);
    SameRegistryKeeps(s, s');
    SameRequestsKeep(s, s');
    InvParts(s');
  }

  lemma EvictStreamSafe(s: Sys, c: nat, x: Uuid, s': Sys)
    requires Inv(s) && EvictStreamEntry(s, c, x) == Some(s')
    ensures Inv(s')
  {
    hide Inv, WireInv, RegInv, HttpInv, WsInv;
    InvParts(s);
    EvictStreamKeeps(s, c, x);
    QuietOk(s, s', c);
    SameRegistryKeeps(s, s');
    SameRequestsKeep(s, s');
    InvParts(s');
  }

  lemma EvictSendSafe(s: Sys, c: nat, s': Sys)
    requires Inv(s) && EvictSend(s, c) == Some(s')
    ensures Inv(s')
  {
    hide Inv, WireInv, RegInv, HttpInv, WsInv;
    InvParts(s);
    EvictSendKeeps(s, c);
    QuietOk(s, s', c);
    SameRegistryKeeps(s, s');
    SameRequestsKeep(s, s');
    InvParts(s');
  }

  lemma CloseLinkSafe(s: Sys, c: nat, up: bool, s': Sys)
    requires Inv(s) && CloseLink(s, c, up) == Some(s')
    ensures Inv(s')
  {
    hide Inv, WireInv, RegInv, HttpInv, WsInv;
    InvParts(s);
    QuietOk(s, s', c);
    OneRole(s, s', c);
    QuietKeeps(s, s', c);
    SameRelayHere(s, s');
    LifeKeeps(s, s', c);
    InvParts(s');
  }

  // ---- agents ----

  lemma AgentJoinSafe(s: Sys, c: nat, s': Sys)
    requires Inv(s) && AgentJoin(s, c) == Some(s')
    ensures Inv(s')
  {
    hide Inv, WireInv, RegInv, HttpInv, WsInv, AgentJoin;
    InvParts(s);
    AgentJoinOk(s, c);
    AgentJoinRole(s, c);
    AgentJoinKeeps(s, c);
    AgentJoinStreams(s, c);
    InvParts(s');
  }

  lemma AgentReadSafe(s: Sys, c: nat, s': Sys)
    requires Inv(s) && AgentRead(s, c) == Some(s')
    ensures Inv(s')
  {
    hide Inv, WireInv, RegInv, HttpInv, WsInv, AgentRead;
    InvParts(s);
    AgentReadOk(s, c);
    AgentReadRole(s, c);
    AgentReadKeeps(s, c);
    AgentReadStreams(s, c);
    InvParts(s');
  }

  lemma AgentJoinRole(s: Sys, c: nat)
    requires RegInv(s) && AgentJoin(s, c).Some?
    ensures RegInv(AgentJoin(s, c).value)
  {
    hide RegInv;
    OneRole(s, AgentJoin(s, c).value, c);
  }

  lemma AgentReadRole(s: Sys, c: nat)
    requires RegInv(s) && AgentRead(s, c).Some?
    ensures RegInv(AgentRead(s, c).value)
  {
    hide RegInv, TargetOf, Agent.ActionOn;
    OneRole(s, AgentRead(s, c).value, c);
  }

  lemma AgentStopSafe(s: Sys, c: nat, clean: bool, s': Sys)
    requires Inv(s) && AgentStop(s, c, clean) == Some(s')
    ensures Inv(s')
  {
    hide Inv, WireInv, RegInv, HttpInv, WsInv;
    InvParts(s);
    QuietOk(s, s', c);
    OneRole(s, s', c);
    AgentStopKeeps(s, c, clean);
    AgentStopStreams(s, c, clean);
    InvParts(s');
  }

  lemma AgentPingSafe(s: Sys, c: nat, ts: nat, s': Sys)
    requires Inv(s) && AgentPing(s, c, ts) == Some(s')
    ensures Inv(s')
  {
    hide Inv, WireInv, RegInv, HttpInv, WsInv;
    InvParts(s);
    TasksAt(s, c);
    TaskSpeaks(s, s', c, s.conns[c], Some(Text(Ping(ts))));
    OneRole(s, s', c);
    AgentPingKeeps(s, c, ts);
    AgentPingStreams(s, c, ts);
    InvParts(s');
  }

  // ---- all steps, all runs ----

  lemma SessionSafe(s: Sys, c: nat, move: SessionMove, s': Sys)
    requires Inv(s) && SessionNext(s, c, move) == Some(s')
    ensures Inv(s')
  {
    hide Inv, OpenConn, SessionRegister, SessionGiveUp, SessionAck, SessionRead, SessionStep, SessionLeave,
         FindEntry, NextPhase, EvictPending, EvictStreamEntry, EvictSend, SessionEnd, CloseLink;
    match move
    case Connect(tunnelId, token, version, caps) => OpenConnSafe(s, c, tunnelId, token, version, caps, s');
    case Register(id) => SessionRegisterSafe(s, c, id, s');
    case GiveUp => SessionGiveUpSafe(s, c, s');
    case Acknowledge => SessionAckSafe(s, c, s');
    case ReadMessage => SessionReadSafe(s, c, s');
    case HandleEvent => SessionStepSafe(s, c, s');
    case Leave => SessionLeaveSafe(s, c, s');
    case FindsEntry(x) => FindEntrySafe(s, c, x, s');
    case GoesOn => NextPhaseSafe(s, c, s');
    case TakePending(x) => EvictPendingSafe(s, c, x, s');
    case TakeStream(x) => EvictStreamSafe(s, c, x, s');
    case UseSender => EvictSendSafe(s, c, s');
    case FinishCleanup => SessionEndSafe(s, c, s');
    case CloseWriter(up) => CloseLinkSafe(s, c, up, s');
  }

  lemma AgentSafe(s: Sys, c: nat, move: AgentMove, s': Sys)
    requires Inv(s) && AgentNext(s, c, move) == Some(s')
    ensures Inv(s')
  {
    hide Inv, AgentJoin, AgentRead, AgentStop, AgentPing;
    match move
    case Join => AgentJoinSafe(s, c, s');
    case Handle => AgentReadSafe(s, c, s');
    case Stop(clean) => AgentStopSafe(s, c, clean, s');
    case SendPing(ts) => AgentPingSafe(s, c, ts, s');
  }

  lemma RequestSafe(s: Sys, r: Uuid, move: RequestMove, s': Sys)
    requires Inv(s) && RequestNext(s, r, move) == Some(s')
    ensures Inv(s')
  {
    hide Inv, Arrive, SendStart, AddInflight, UploadChunk, UploadStops, SendEnd, NextEvent, YieldEarly,
         ReceiveFails, RemoveEntry, DropReceiver, Abandon;
    match move
    case Arrives(tunnelId) => ArriveSafe(s, r, tunnelId, s');
    case SendsStart(verb, path, headers) => SendStartSafe(s, r, verb, path, headers, s');
    case AddsEntry => AddInflightSafe(s, r, s');
    case Uploads(chunk) => UploadChunkSafe(s, r, chunk, s');
    case StopsUpload(failed) => UploadStopsSafe(s, r, failed, s');
    case SendsEnd => SendEndSafe(s, r, s');
    case TakesEvent => NextEventSafe(s, r, s');
    case YieldsEarly => YieldEarlySafe(s, r, s');
    case GivesUp(timeout) => ReceiveFailsSafe(s, r, timeout, s');
    case RemovesEntry => RemoveEntrySafe(s, r, s');
    case DropsReceiver => DropReceiverSafe(s, r, s');
    case IsAbandoned => AbandonSafe(s, r, s');
  }

  lemma LocalSafe(s: Sys, c: nat, r: Uuid, move: LocalMove, s': Sys)
    requires Inv(s) && LocalNext(s, c, r, move) == Some(s')
    ensures Inv(s')
  {
    hide Inv, LocalBody, LocalAnswers, LocalChunk, LocalFails, LocalEnds, ReportFailure;
    match move
    case TakesBody(drop) => LocalBodySafe(s, c, r, drop, s');
    case Answers(status, headers) => LocalAnswersSafe(s, c, r, status, headers, s');
    case Produces(chunk) => LocalChunkSafe(s, c, r, chunk, s');
    case Fails(message) => LocalFailsSafe(s, c, r, message, s');
    case Finishes => LocalEndsSafe(s, c, r, s');
    case Reports => ReportFailureSafe(s, c, r, s');
  }

  lemma StreamSafe(s: Sys, x: Uuid, move: StreamMove, s': Sys)
    requires Inv(s) && StreamNext(s, x, move) == Some(s')
    ensures Inv(s')
  {
    hide Inv, WsArrive, AddWsPending, SendConnect, UpgradeLost, AddWsStream, AckArrives, AckTimeout,
         RejectClient, ClientTurn, RemoveWsStream, RemoveWsPending, LeaveStream;
    match move
    case Opens(tunnelId) => WsArriveSafe(s, x, tunnelId, s');
    case AddsPending => AddWsPendingSafe(s, x, s');
    case SendsConnect(path, headers, subprotocols) => SendConnectSafe(s, x, path, headers, subprotocols, s');
    case LosesUpgrade => UpgradeLostSafe(s, x, s');
    case AddsStream => AddWsStreamSafe(s, x, s');
    case GetsAck => AckArrivesSafe(s, x, s');
    case TimesOut => AckTimeoutSafe(s, x, s');
    case Rejects => RejectClientSafe(s, x, s');
    case TakesTurn(input, delivers) => ClientTurnSafe(s, x, input, delivers, s');
    case RemovesStream => RemoveWsStreamSafe(s, x, s');
    case RemovesPending => RemoveWsPendingSafe(s, x, s');
    case Departs => LeaveStreamSafe(s, x, s');
  }

  lemma TaskSafe(s: Sys, c: nat, x: Uuid, move: TaskMove, s': Sys)
    requires Inv(s) && TaskNext(s, c, x, move) == Some(s')
    ensures Inv(s')
  {
    hide Inv, TaskAcks, TaskDialFails, TaskRefuses, TaskListens, TaskTurn, TaskDropsInput, TaskUnlists;
    match move
    case Acks(sub) => TaskAcksSafe(s, c, x, sub, s');
    case DialFails(reason) => TaskDialFailsSafe(s, c, x, reason, s');
    case Refuses => TaskRefusesSafe(s, c, x, s');
    case Listens => TaskListensSafe(s, c, x, s');
    case Turns(input, delivers) => TaskTurnSafe(s, c, x, input, delivers, s');
    case DropsInput => TaskDropsInputSafe(s, c, x, s');
    case Unlists => TaskUnlistsSafe(s, c, x, s');
  }

  lemma StepSafe(s: Sys, l: Label, s': Sys)
    requires Inv(s) && Next(s, l) == Some(s')
    ensures Inv(s')
  {
    hide Inv, SessionNext, AgentNext, RequestNext, LocalNext, StreamNext, TaskNext;
    match l
    case OfSession(c, move) => SessionSafe(s, c, move, s');
    case OfAgent(c, move) => AgentSafe(s, c, move, s');
    case OfRequest(r, move) => RequestSafe(s, r, move, s');
    case OfLocal(c, r, move) => LocalSafe(s, c, r, move, s');
    case OfStream(x, move) => StreamSafe(s, x, move, s');
    case OfTask(c, x, move) => TaskSafe(s, c, x, move, s');
  }

  lemma InitSafe(tokens: set<string>)
    ensures Inv(Init(tokens))
  {
  }

  /** The invariant holds after every run. */
  lemma {:induction false} RunSafe(tokens: set<string>, steps: seq<Label>)
    ensures Run(tokens, steps).Some? ==> Inv(Run(tokens, steps).value)
  {
    hide Inv, Next;
    if steps == [] {
      InitSafe(tokens);
    } else {
      RunSafe(tokens, steps[..|steps| - 1]);
      var before := Run(tokens, steps[..|steps| - 1]);
      if before.Some? && Next(before.value, steps[|steps| - 1]).Some? {
        StepSafe(before.value, steps[|steps| - 1], Next(before.value, steps[|steps| - 1]).value);
      }
    }
  }
}
