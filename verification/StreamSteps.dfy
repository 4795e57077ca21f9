/** Every step keeps what `Invariants.WsInv` says of every stream. A step acts on one stream at most, and
    leaves the view of every other as it was. */
module StreamSteps {
  import opened Prelude
  import opened Frame
  import opened Messages
  import opened RelayState
  import opened WsTunnel
  import opened System
  import opened Views
  import opened Invariants
  import opened StreamLocal
  import opened RequestSteps
  import Session
  import Agent
  import Demux

  ghost predicate Inv1(s: Sys) { WireInv(s) && RegInv(s) && WsInv(s) }

  // ---- steps that touch no stream, or one ----

  ghost predicate SameHere(s: Sys, s': Sys) { forall x: Uuid :: HereOf(s', x) == HereOf(s, x) }

  ghost predicate SameHereBut(s: Sys, s': Sys, x: Uuid) { forall y: Uuid | y != x :: HereOf(s', y) == HereOf(s, y) }

  ghost predicate SameStreamsBut(k: Conn, k': Conn, x: Uuid) { forall y: Uuid | y != x :: WsOf(k', y) == WsOf(k, y) }

  lemma SameStreamsKeep(s: Sys, s': Sys)
    requires WsInv(s) && s'.strs == s.strs && SameHere(s, s') && s'.conns.Keys == s.conns.Keys
    requires forall c: nat, x: Uuid | c in s.conns :: WsOf(s'.conns[c], x) == WsOf(s.conns[c], x)
    ensures WsInv(s')
  {
    hide WsLocal, NoWs, WsOf, HereOf;
    forall x: Uuid, c: nat | c in s'.conns ensures WsOk(s', x, c) {
      assert WsOk(s, x, c);
    }
  }

  /** A step on stream `x` of connection `c`: what holds of `x` afterwards is all there is to show. */
  lemma OneStream(s: Sys, s': Sys, x: Uuid, w': Str, c: nat, k': Conn)
    requires WsInv(s) && c in s.conns && w'.conn == c && (x in s.strs ==> s.strs[x].conn == c)
    requires s'.strs == s.strs[x := w']
    requires s'.conns == s.conns[c := k'] || (s'.conns == s.conns && k' == s.conns[c])
    requires SameHereBut(s, s', x) && SameStreamsBut(s.conns[c], k', x)
    requires WsLocal(x, w', HereOf(s', x), WsOf(k', x))
    ensures WsInv(s')
  {
    hide WsLocal, NoWs, WsOf, HereOf;
    forall y: Uuid, d: nat | d in s'.conns ensures WsOk(s', y, d) {
      assert WsOk(s, y, d);
    }
  }

  lemma StreamNow(s: Sys, x: Uuid)
    requires WsInv(s) && x in s.strs
    ensures s.strs[x].conn in s.conns && WsLocal(x, s.strs[x], HereOf(s, x), WsOf(s.conns[s.strs[x].conn], x))
  {
    assert WsOk(s, x, s.strs[x].conn);
  }

  /** A stream that is not there has left no trace on any connection. */
  lemma ForeignStream(s: Sys, x: Uuid, c: nat)
    requires Inv1(s) && c in s.conns && x !in s.strs
    ensures NoWs(WsOf(s.conns[c], x)) && HereOf(s, x) == NOWHERE
    ensures var tr := WsOf(s.conns[c], x).traffic; tr.got == [] && tr.downGot == [] && tr.stage.Fresh?
  {
    assert WsOk(s, x, c);
    TrafficPrefix(s.conns[c], WsId(x));
  }

  /** Traffic about a stream is on its own connection. */
  lemma StreamOwnedHere(s: Sys, x: Uuid, c: nat)
    requires WsInv(s) && c in s.conns && !NoWs(WsOf(s.conns[c], x))
    ensures x in s.strs && s.strs[x].conn == c
  {
    assert WsOk(s, x, c);
  }

  // ---- the stream's own task ----

  lemma WsArriveKeeps(s: Sys, x: Uuid, tunnelId: string)
    requires Inv1(s) && WsArrive(s, x, tunnelId).Some?
    ensures WsInv(WsArrive(s, x, tunnelId).value)
  {
    hide WsLocal, WsInv, WsOf, WireInv, RegInv, NoWs;
    var s' := WsArrive(s, x, tunnelId).value;
    var c := s'.strs[x].conn;
    AgentFor(s, tunnelId);
    ForeignStream(s, x, c);
    WsArriveLocal(x, s'.strs[x], WsOf(s.conns[c], x));
    OneStream(s, s', x, s'.strs[x], c, s.conns[c]);
  }

  lemma AddWsPendingKeeps(s: Sys, x: Uuid)
    requires Inv1(s) && AddWsPending(s, x).Some?
    ensures WsInv(AddWsPending(s, x).value)
  {
    hide WsLocal, WsInv, WsOf, WireInv, RegInv;
    var s' := AddWsPending(s, x).value;
    var c := s.strs[x].conn;
    StreamNow(s, x);
    AddPendingLocal(x, s.strs[x], HereOf(s, x), WsOf(s.conns[c], x));
    OneStream(s, s', x, s'.strs[x], c, s.conns[c]);
  }

  lemma SendConnectKeeps(s: Sys, x: Uuid, path: string, headers: Headers, subprotocols: seq<string>)
    requires Inv1(s) && SendConnect(s, x, path, headers, subprotocols).Some?
    ensures WsInv(SendConnect(s, x, path, headers, subprotocols).value)
  {
    hide WsLocal, WsInv, WsOf, WireInv, RegInv;
    var s' := SendConnect(s, x, path, headers, subprotocols).value;
    var c := s.strs[x].conn;
    StreamNow(s, x);
    LinksAt(s, c);
    SendDownViews(s.conns[c], Text(WsConnect(x, path, headers, subprotocols)));
    SendConnectLocal(x, s.strs[x], HereOf(s, x), WsOf(s.conns[c], x), DConnect(path, headers, subprotocols));
    OneStream(s, s', x, s'.strs[x], c, s'.conns[c]);
  }

  lemma AddWsStreamKeeps(s: Sys, x: Uuid)
    requires Inv1(s) && AddWsStream(s, x).Some?
    ensures WsInv(AddWsStream(s, x).value)
  {
    hide WsLocal, WsInv, WireInv, RegInv, WsEvents, UpFor, DownFor;
    var s' := AddWsStream(s, x).value;
    var c := s.strs[x].conn;
    StreamNow(s, x);
    AddStreamLocal(x, s.strs[x], HereOf(s, x), WsOf(s.conns[c], x));
    OneStream(s, s', x, s'.strs[x], c, s.conns[c]);
  }

  /** The task only goes on to `pc`. */
  lemma MoveKeeps(s: Sys, x: Uuid, pc: StrPc)
    requires Inv1(s) && x in s.strs && Moves(s.strs[x], HereOf(s, x), pc)
    ensures WsInv(SetStr(s, x, s.strs[x].(pc := pc)))
  {
    hide WsLocal, WsInv, WsOf, WireInv, RegInv, Moves;
    var c := s.strs[x].conn;
    StreamNow(s, x);
    MoveLocal(x, s.strs[x], HereOf(s, x), WsOf(s.conns[c], x), pc);
    OneStream(s, SetStr(s, x, s.strs[x].(pc := pc)), x, s.strs[x].(pc := pc), c, s.conns[c]);
  }

  lemma AckArrivesKeeps(s: Sys, x: Uuid)
    requires Inv1(s) && AckArrives(s, x).Some?
    ensures WsInv(AckArrives(s, x).value)
  {
    hide WsInv, WsOf, WireInv, RegInv;
    StreamNow(s, x);
    OneResolution(x, s.strs[x], HereOf(s, x), WsOf(s.conns[s.strs[x].conn], x));
    MoveKeeps(s, x, AckArrives(s, x).value.strs[x].pc);
  }

  lemma OneResolution(x: Uuid, w: Str, h: WsHere, at: WsAt)
    requires WsLocal(x, w, h, at)
    ensures h.shot.Some? ==> |h.shot.value| <= 1
  {
  }

  lemma UnlistKeeps(s: Sys, x: Uuid)
    requires Inv1(s) && RemoveWsStream(s, x).Some?
    ensures WsInv(RemoveWsStream(s, x).value)
  {
    hide WsLocal, WsInv, WsOf, WireInv, RegInv;
    var s' := RemoveWsStream(s, x).value;
    var c := s.strs[x].conn;
    StreamNow(s, x);
    UnlistLocal(x, s.strs[x], HereOf(s, x), WsOf(s.conns[c], x));
    OneStream(s, s', x, s'.strs[x], c, s.conns[c]);
  }

  lemma UnpendKeeps(s: Sys, x: Uuid)
    requires Inv1(s) && RemoveWsPending(s, x).Some?
    ensures WsInv(RemoveWsPending(s, x).value)
  {
    hide WsLocal, WsInv, WsOf, WireInv, RegInv;
    var s' := RemoveWsPending(s, x).value;
    var c := s.strs[x].conn;
    StreamNow(s, x);
    UnpendLocal(x, s.strs[x], HereOf(s, x), WsOf(s.conns[c], x));
    OneStream(s, s', x, s'.strs[x], c, s.conns[c]);
  }

  lemma LeaveStreamKeeps(s: Sys, x: Uuid)
    requires Inv1(s) && LeaveStream(s, x).Some?
    ensures WsInv(LeaveStream(s, x).value)
  {
    hide WsLocal, WsInv, WsOf, WireInv, RegInv;
    var s' := LeaveStream(s, x).value;
    var c := s.strs[x].conn;
    StreamNow(s, x);
    WsLeaveLocal(x, s.strs[x], HereOf(s, x), WsOf(s.conns[c], x));
    OneStream(s, s', x, s'.strs[x], c, s.conns[c]);
  }

  lemma ClientTurnKeeps(s: Sys, x: Uuid, input: Input, delivers: bool)
    requires Inv1(s) && ClientTurn(s, x, input, delivers).Some?
    ensures WsInv(ClientTurn(s, x, input, delivers).value)
  {
    hide WsInv, WireInv, RegInv, ClientTurn;
    if input.Event? {
      ClientGetsKeeps(s, x, input, delivers);
    } else {
      ClientSaysKeeps(s, x, input, delivers);
    }
  }

  lemma ClientGetsKeeps(s: Sys, x: Uuid, input: Input, delivers: bool)
    requires Inv1(s) && ClientTurn(s, x, input, delivers).Some? && input.Event?
    ensures WsInv(ClientTurn(s, x, input, delivers).value)
  {
    hide WsLocal, WsInv, WsOf, WireInv, RegInv, WsSenderLeft, WireFor;
    var s' := ClientTurn(s, x, input, delivers).value;
    var c := s.strs[x].conn;
    StreamNow(s, x);
    ClientGetsLocal(x, s.strs[x], HereOf(s, x), WsOf(s.conns[c], x));
    OneStream(s, s', x, s'.strs[x], c, s.conns[c]);
  }

  lemma ClientSaysKeeps(s: Sys, x: Uuid, input: Input, delivers: bool)
    requires Inv1(s) && ClientTurn(s, x, input, delivers).Some? && !input.Event?
    ensures WsInv(ClientTurn(s, x, input, delivers).value)
  {
    hide WsLocal, WsInv, WsOf, WireInv, RegInv, WsSenderLeft, WireFor, HereOf;
    var s' := ClientTurn(s, x, input, delivers).value;
    var w, c := s.strs[x], s.strs[x].conn;
    var h, at := HereOf(s, x), WsOf(s.conns[c], x);
    StreamNow(s, x);
    SameQueues(s, s', x);
    if EmittedEvent(ClientSide, input).Some? && s.conns[c].down.open {
      var ev := EmittedEvent(ClientSide, input).value;
      StrVersion(x, w, h, at);
      LinksAt(s, c);
      WireForMeaning(ClientSide, w.version, x, ev);
      SendDownViews(s.conns[c], WireFor(ClientSide, w.version, x, ev));
      ClientSaysLocal(x, w, h, at, input);
    } else {
      ClientLostLocal(x, w, h, at, input);
    }
    OneStream(s, s', x, s'.strs[x], c, s'.conns[c]);
  }

  lemma SameQueues(s: Sys, s': Sys, x: Uuid)
    requires s'.relay.acks == s.relay.acks && s'.lock == s.lock && s'.relay.ws.entries == s.relay.ws.entries
    requires x in s.relay.ws.queues && s'.relay.ws.queues == s.relay.ws.queues[x := s.relay.ws.queues[x]]
    ensures SameHere(s, s')
  {
  }

  lemma StrVersion(x: Uuid, w: Str, h: WsHere, at: WsAt)
    requires WsLocal(x, w, h, at)
    ensures IsSupported(w.version)
  {
  }

  // ---- the session ----

  /** The session's place in its life changes, and nothing a stream could see of the connection. */
  lemma OverKeeps(s: Sys, s': Sys, c: nat)
    requires WsInv(s) && c in s.conns && c in s'.conns && s'.conns == s.conns[c := s'.conns[c]]
    requires s'.strs == s.strs && SameHere(s, s')
    requires forall x: Uuid :: WsOf(s'.conns[c], x) == WsOf(s.conns[c], x).(over := HasLeft(s'.conns[c]))
    requires HasLeft(s.conns[c]) ==> HasLeft(s'.conns[c])
    ensures WsInv(s')
  {
    hide WsLocal, WsOf, HereOf;
    forall x: Uuid, d: nat | d in s'.conns ensures WsOk(s', x, d) {
      assert WsOk(s, x, d);
      if d == c && x in s.strs && s.strs[x].conn == c {
        OverIsView(s.conns[c], x);
        OverLocal(x, s.strs[x], HereOf(s, x), WsOf(s.conns[c], x));
      }
    }
  }

  lemma OverIsView(k: Conn, x: Uuid)
    ensures WsOf(k, x).over == HasLeft(k)
  {
  }

  /** The same for steps that leave links, job and agent alone. */
  lemma LifeKeeps(s: Sys, s': Sys, c: nat)
    requires Inv1(s) && c in s.conns && c in s'.conns && s'.conns == s.conns[c := s'.conns[c]]
    requires s'.strs == s.strs && SameHere(s, s')
    requires var k, k' := s.conns[c], s'.conns[c];
             && k'.up.sent == k.up.sent && k'.up.got == k.up.got && k'.down.sent == k.down.sent
             && k'.down.got == k.down.got
             && k'.job == k.job && k'.tasks == k.tasks && k'.agent == k.agent
             && k'.board.sessions == k.board.sessions && k'.board.inputs == k.board.inputs
    requires HasLeft(s.conns[c]) ==> HasLeft(s'.conns[c])
    ensures WsInv(s')
  {
    hide WsInv, WireInv, RegInv, UpFor, DownFor, HereOf;
    OverKeeps(s, s', c);
  }

  /** What the session does with the registration changes nothing else that a stream could see. */
  lemma RegisterLife(k: Conn, k1: Conn, reason: string)
    requires ConnOk(k) && k.session.Opened? && k.up.got == 0 < |k.up.sent|
    requires k1.up == TakeUp(k).up && k1.down == k.down && k1.job == TakeUp(k).job && k1.agent == k.agent
    requires k1.board == k.board && k1.tasks == k.tasks
    ensures forall x: Uuid :: WsOf(k1, x) == WsOf(k, x).(over := HasLeft(k1))
    ensures forall x: Uuid ::
              WsOf(SendDown(k1, Text(Session.AckFor(false, Some(reason)))), x) == WsOf(k, x).(over := HasLeft(k1))
  {
    hide TrafficOf, UpHonest, DownHonest, JobFits;
    RegistrationViews(k);
    SameLinksTraffic(TakeUp(k), k1);
    SendDownViews(k1, Text(Session.AckFor(false, Some(reason))));
  }

  lemma SessionRegisterStreams(s: Sys, c: nat, id: Uuid)
    requires Inv1(s) && SessionRegister(s, c, id).Some?
    ensures WsInv(SessionRegister(s, c, id).value)
  {
    hide WsInv, RegInv, WsOf, ConnOk, Session.Gate, Session.AckFor;
    var s' := SessionRegister(s, c, id).value;
    var k := s.conns[c];
    match Session.Gate(s.tokens, Some(k.up.sent[0].msg)) {
      case Silent => RegisterLife(k, s'.conns[c], "");
      case Rejected(reason) => RegisterLife(k, TakeUp(k).(session := Closed), reason);
      case Passed(tunnelId, _, _) =>
        if tunnelId in s.relay.agents {
          RegisterLife(k, TakeUp(k).(session := Closed), Session.IN_USE);
        } else {
          RegisterLife(k, s'.conns[c], "");
        }
    }
    OverKeeps(s, s', c);
  }

  lemma SessionAckStreams(s: Sys, c: nat)
    requires Inv1(s) && SessionAck(s, c).Some?
    ensures WsInv(SessionAck(s, c).value)
  {
    hide WsInv, WireInv, RegInv, UpFor, DownFor;
    LinksAt(s, c);
    var k := s.conns[c].(session := Live);
    SameLinksTraffic(s.conns[c], k);
    SendDownViews(k, Text(Session.AckFor(true, None)));
    SameStreamsKeep(s, SessionAck(s, c).value);
  }

  lemma SessionReadStreams(s: Sys, c: nat)
    requires Inv1(s) && SessionRead(s, c).Some?
    ensures WsInv(SessionRead(s, c).value)
  {
    hide WsLocal, WsInv, WsOf, WireInv, RegInv, UpOf, DownOf, HereOf;
    var s' := SessionRead(s, c).value;
    var k := s.conns[c];
    var m := k.up.sent[k.up.got];
    var t := TargetOf(m);
    ReadableAt(s, c);
    TakeUpViews(k);
    if m.Text? && m.msg.Ping? {
      SendDownViews(TakeUp(k), Text(Pong(m.msg.ts)));
    }
    SameRelayHere(s, s');
    if t.WsId? && UpOf(m) != [] {
      ReadForStream(s, c);
      OneStream(s, s', t.id, s.strs[t.id], c, s'.conns[c]);
    } else {
      NothingForStreams(k, m);
      SameStreamsKeep(s, s');
    }
  }

  lemma SameRelayHere(s: Sys, s': Sys)
    requires s'.relay.acks == s.relay.acks && s'.relay.ws == s.relay.ws
    requires s'.lock == s.lock || (s'.lock != s.lock && NotEvicting(s.lock) && NotEvicting(s'.lock))
    ensures SameHere(s, s')
  {
  }

  predicate NotEvicting(lock: Lock) { lock.Free? || lock.evicting.NoEvict? }

  lemma NothingForStreams(k: Conn, m: Wire)
    requires k.job.NoJob? && (TargetOf(m).WsId? ==> UpOf(m) == [])
    ensures forall x: Uuid | TargetOf(m) == WsId(x) ::
              WsOf(k, x).(traffic := Received(WsOf(k, x).traffic, UpOf(m))) == WsOf(k, x)
  {
    hide UpOf, UpFor, DownFor, TargetOf;
  }

  lemma ReadForStream(s: Sys, c: nat)
    requires Inv1(s) && c in s.conns && s.conns[c].session.Live? && s.conns[c].job.NoJob?
    requires s.conns[c].up.got < |s.conns[c].up.sent|
    requires var m := s.conns[c].up.sent[s.conns[c].up.got]; TargetOf(m).WsId? && UpOf(m) != []
    ensures var m := s.conns[c].up.sent[s.conns[c].up.got]; var x := TargetOf(m).id;
            && x in s.strs && s.strs[x].conn == c
            && WsLocal(x, s.strs[x], HereOf(s, x),
                       WsOf(s.conns[c], x).(traffic := Received(WsOf(s.conns[c], x).traffic, UpOf(m))))
  {
    hide WsLocal, WsInv, WireInv, RegInv, UpOf, UpFor, DownFor, TargetOf, HereOf;
    var k := s.conns[c];
    var m := k.up.sent[k.up.got];
    var x := TargetOf(m).id;
    ReadableAt(s, c);
    NextUpIsSent(k);
    StreamOwnedHere(s, x, c);
    StreamNow(s, x);
    assert UpOf(m) == [UpOf(m)[0]];
    WsReadLocal(x, s.strs[x], HereOf(s, x), WsOf(k, x), UpOf(m)[0]);
  }

  lemma StreamJob(s: Sys, c: nat)
    requires Inv1(s) && c in s.conns && s.conns[c].job.Job? && s.conns[c].job.t.WsId?
    ensures var j := s.conns[c].job; var x := j.t.id;
            && j.todo == [j.todo[0]] && (j.todo[0].UAck? || j.todo[0].UWs?)
            && x in s.strs && s.strs[x].conn == c && LinksOk(s.conns[c])
  {
    hide WsInv, RegInv, UpHonest, DownHonest, HereOf;
    var j := s.conns[c].job;
    var x := j.t.id;
    assert Demux.Fits(j.t, j.todo[0]);
    StreamOwnedHere(s, x, c);
    StreamNow(s, x);
    ShortTodo(x, s.strs[x], HereOf(s, x), WsOf(s.conns[c], x));
  }

  lemma ShortTodo(x: Uuid, w: Str, h: WsHere, at: WsAt)
    requires WsLocal(x, w, h, at)
    ensures |at.traffic.todo| <= 1
  {
  }

  lemma SessionStepStreams(s: Sys, c: nat)
    requires Inv1(s) && SessionStep(s, c).Some?
    ensures WsInv(SessionStep(s, c).value)
  {
    hide WsLocal, WsInv, WireInv, RegInv, UpFor, DownFor, Demux.Fits, AckBoard.Step, WsBoard.Step, HttpBoard.Step;
    var s' := SessionStep(s, c).value;
    var k := s.conns[c];
    var j := k.job;
    EventFits(s, c);
    SetJobTraffic(k, s'.conns[c].job);
    if j.t.WsId? {
      var x := j.t.id;
      StreamJob(s, c);
      StreamNow(s, x);
      TrafficPrefix(k, j.t);
      if j.todo[0].UAck? {
        AckStepLocal(x, s.strs[x], s.relay, EvictOf(s.lock, x), WsOf(k, x));
      } else {
        WsStepLocal(x, s.strs[x], s.relay, EvictOf(s.lock, x), WsOf(k, x));
      }
      assert SameSlotsBut(s.relay, s'.relay, x);
      SlotsAreHere(s, s', x);
      OneStream(s, s', x, s.strs[x], c, s'.conns[c]);
    } else {
      SameStreamsKeep(s, s');
    }
  }

  lemma SlotsAreHere(s: Sys, s': Sys, x: Uuid)
    requires s'.lock == s.lock && SameSlotsBut(s.relay, s'.relay, x)
    ensures SameHereBut(s, s', x)
    ensures HereOf(s', x) == Here(s'.relay, x, EvictOf(s.lock, x))
  {
    forall y: Uuid | y != x ensures HereOf(s', y) == HereOf(s, y) {
      assert Here(s'.relay, y, EvictOf(s.lock, y)) == Here(s.relay, y, EvictOf(s.lock, y));
    }
  }

  // ---- disconnect clean-up ----

  lemma EvictPendingKeeps(s: Sys, c: nat, x: Uuid)
    requires Inv1(s) && EvictPending(s, c, x).Some?
    ensures WsInv(EvictPending(s, c, x).value)
  {
    hide WsLocal, WsInv, WsOf, WireInv, RegInv;
    var s' := EvictPending(s, c, x).value;
    if x in s.relay.acks.entries {
      InStrs(s, x);
      StreamNow(s, x);
      EvictPendingLocal(x, s.strs[x], HereOf(s, x), WsOf(s.conns[s.strs[x].conn], x));
      OneStream(s, s', x, s.strs[x], s.strs[x].conn, s.conns[s.strs[x].conn]);
    } else {
      SearchKeeps(s, s');
    }
  }

  /** Clean-up that only searches, or finds an id gone. */
  lemma SearchKeeps(s: Sys, s': Sys)
    requires WsInv(s) && s' == s.(lock := s'.lock) && NotEvicting(s.lock) && NotEvicting(s'.lock)
    ensures WsInv(s')
  {
    hide WsInv, WsOf;
    SameRelayHere(s, s');
    SameStreamsKeep(s, s');
  }

  /** What clean-up has found is of its own tunnel. */
  lemma FoundIsOwn(s: Sys, c: nat, x: Uuid)
    requires RegInv(s) && Sweeping(s, c) && x in s.lock.sweep.phase.ids
    ensures x in s.strs && s.strs[x].tunnel == s.conns[c].tunnel
  {
  }

  /** What clean-up finds is of its own tunnel, as the stream's own task says. */
  lemma MatchIsOwn(s: Sys, t: string, x: Uuid)
    requires WsInv(s)
    requires x in MatchingPending(s.relay.acks, t) || x in MatchingStreams(s.relay.ws, t)
    ensures x in s.strs && s.strs[x].tunnel == t
  {
    hide WsInv, WsLocal, WsOf;
    InStrs(s, x);
    StreamNow(s, x);
    OwnTunnel(x, s.strs[x], HereOf(s, x), WsOf(s.conns[s.strs[x].conn], x));
  }

  lemma SweepTunnel(s: Sys, c: nat)
    requires RegInv(s) && Sweeping(s, c)
    ensures s.lock.sweep.tunnelId == s.conns[c].tunnel
  {
  }

  lemma OwnTunnel(x: Uuid, w: Str, h: WsHere, at: WsAt)
    requires WsLocal(x, w, h, at)
    ensures h.pend.Some? ==> h.pend.value.tunnelId == w.tunnel
    ensures h.entry.Some? ==> h.entry.value.tunnelId == w.tunnel
  {
  }

  lemma InStrs(s: Sys, x: Uuid)
    requires WsInv(s) && HereOf(s, x) != NOWHERE
    ensures x in s.strs
  {
  }

  /** A stream of the tunnel being cleaned up is on a session that has left its loop, for good. */
  lemma EvictedIsOver(s: Sys, c: nat, x: Uuid)
    requires Inv1(s) && Sweeping(s, c) && x in s.strs && s.strs[x].tunnel == s.conns[c].tunnel
    ensures s.strs[x].conn in s.conns
    ensures var at := WsOf(s.conns[s.strs[x].conn], x); at.over && at.traffic.todo == []
  {
    hide WsInv, UpHonest, DownHonest, EpochsInv, LatestInv, EntriesInv;
    var k := s.conns[s.strs[x].conn];
    assert ConnOk(k);
    assert !Owning(k);
  }

  lemma EvictStreamKeeps(s: Sys, c: nat, x: Uuid)
    requires Inv1(s) && EvictStreamEntry(s, c, x).Some?
    ensures WsInv(EvictStreamEntry(s, c, x).value)
  {
    hide WsLocal, WsInv, WsOf, WireInv, RegInv;
    var s' := EvictStreamEntry(s, c, x).value;
    if x in s.relay.ws.entries {
      FoundIsOwn(s, c, x);
      StreamNow(s, x);
      var w, at := s.strs[x], WsOf(s.conns[s.strs[x].conn], x);
      EvictedIsOver(s, c, x);
      EvictStreamLocal(x, w, HereOf(s, x), at);
      OneStream(s, s', x, s'.strs[x], w.conn, s.conns[w.conn]);
    } else {
      SearchKeeps(s, s');
    }
  }

  lemma EvictSendKeeps(s: Sys, c: nat)
    requires Inv1(s) && EvictSend(s, c).Some?
    ensures WsInv(EvictSend(s, c).value)
  {
    hide WsLocal, WsInv, WsOf, WireInv, RegInv;
    var s' := EvictSend(s, c).value;
    var x := s.lock.evicting.x;
    InStrs(s, x);
    StreamNow(s, x);
    var w, at := s.strs[x], WsOf(s.conns[s.strs[x].conn], x);
    if s.lock.evicting.EvictAck? {
      EvictAckSentLocal(x, w, HereOf(s, x), at);
    } else {
      EvictCloseSentLocal(x, w, HereOf(s, x), at);
    }
    OneStream(s, s', x, w, w.conn, s.conns[w.conn]);
  }

  // ---- the agent's reader ----

  lemma OpenConnStreams(s: Sys, c: nat, tunnelId: string, token: string, version: Option<byte>, caps: seq<string>)
    requires Inv1(s) && OpenConn(s, c, tunnelId, token, version, caps).Some?
    ensures WsInv(OpenConn(s, c, tunnelId, token, version, caps).value)
  {
    hide WsLocal, NoWs, WsOf, HereOf, WireInv, RegInv;
    var s' := OpenConn(s, c, tunnelId, token, version, caps).value;
    FreshViews(s'.conns[c], Text(RegisterAgent(tunnelId, token, version, caps)));
    SameRelayHere(s, s');
    forall x: Uuid, d: nat | d in s'.conns ensures WsOk(s', x, d) {
      if d != c {
        assert WsOk(s, x, d);
      }
    }
  }

  /** What a stream sees of connection `c` changes as `WsStopLocal` allows. */
  lemma StopsKeep(s: Sys, s': Sys, c: nat)
    requires WsInv(s) && c in s.conns && c in s'.conns && s'.conns == s.conns[c := s'.conns[c]]
    requires s'.strs == s.strs && s'.relay == s.relay && s'.lock == s.lock
    requires forall x: Uuid ::
               var at, at' := WsOf(s.conns[c], x), WsOf(s'.conns[c], x);
               || at' == at || at' == at.(running := false) || at' == at.(running := false, listed := None)
               || (at.traffic.downGot == [] && at' == at.(running := true))
               || (x in s.strs && s.strs[x].conn == c && at.traffic.downGot == []
                   && at' == at.(traffic := Handed(at.traffic, at'.traffic.downGot)))
    ensures WsInv(s')
  {
    hide WsLocal, WsOf;
    forall x: Uuid, d: nat | d in s'.conns ensures WsOk(s', x, d) {
      assert WsOk(s, x, d);
      if d == c && x in s.strs && s.strs[x].conn == c && WsOf(s'.conns[c], x) != WsOf(s.conns[c], x) {
        WsStopLocal(x, s.strs[x], HereOf(s, x), WsOf(s.conns[c], x), WsOf(s'.conns[c], x));
      }
    }
  }

  lemma AgentStopStreams(s: Sys, c: nat, clean: bool)
    requires Inv1(s) && AgentStop(s, c, clean).Some?
    ensures WsInv(AgentStop(s, c, clean).value)
  {
    hide WsInv, WireInv, RegInv, TrafficOf;
    var s' := AgentStop(s, c, clean).value;
    SameLinksTraffic(s.conns[c], s'.conns[c]);
    StopsKeep(s, s', c);
  }

  lemma NoStreamReadYet(k: Conn)
    requires ConnOk(k) && k.agent.Joining?
    ensures forall x: Uuid :: WsOf(k, x).traffic.downGot == [] && !WsOf(k, x).running
  {
    assert k.down.sent[..0] == [];
  }

  lemma AgentJoinStreams(s: Sys, c: nat)
    requires Inv1(s) && AgentJoin(s, c).Some?
    ensures WsInv(AgentJoin(s, c).value)
  {
    hide WsInv, RegInv, TrafficOf, DownOf, UpHonest, DownHonest, JobFits, WsLocal;
    var s' := AgentJoin(s, c).value;
    var k := s.conns[c];
    var m := k.down.sent[0];
    TakeDownViews(k);
    NoStreamReadYet(k);
    SameLinksTraffic(TakeDown(k), s'.conns[c]);
    forall x: Uuid | TargetOf(m) == WsId(x)
      ensures WsOf(s'.conns[c], x) == WsOf(k, x)
              || (x in s.strs && s.strs[x].conn == c
                  && WsOf(s'.conns[c], x) ==
                     WsOf(k, x).(traffic := Handed(WsOf(k, x).traffic, WsOf(s'.conns[c], x).traffic.downGot)))
    {
      NextDownIsSent(k);
      if DownOf(m) != [] {
        StreamOwnedHere(s, x, c);
      }
    }
    StopsKeep(s, s', c);
  }

  lemma AgentPingStreams(s: Sys, c: nat, ts: nat)
    requires Inv1(s) && AgentPing(s, c, ts).Some?
    ensures WsInv(AgentPing(s, c, ts).value)
  {
    hide WsInv, WireInv, RegInv, UpFor, DownFor;
    LinksAt(s, c);
    SendUpViews(s.conns[c], Text(Ping(ts)));
    SameStreamsKeep(s, AgentPing(s, c, ts).value);
  }

  lemma BoardOnStream(b: Agent.AgentBoard, ev: DownEvent, x: Uuid)
    requires ev.DConnect? || ev.DWs?
    requires Get(b.sessions, x) in {None, Some(x)}
    ensures var b' := b.Apply(x, ev, x);
            && (forall y: Uuid | y != x ::
                  Get(b'.sessions, y) == Get(b.sessions, y) && Get(b'.inputs, y) == Get(b.inputs, y))
            && Get(b'.sessions, x) == Get(b.sessions, x)
            && (ev.DConnect? ==> b' == b)
            && (ev.DWs? ==>
                  if x in b.sessions && x in b.inputs && b.inputs[x].open
                  then Get(b'.inputs, x) == Some(b.inputs[x].(sent := b.inputs[x].sent + [ev.ws]))
                  else b' == b)
  {
  }

  /** The reader's step, as the stream its message is about and the others see it. */
  lemma ReaderOnStream(k: Conn)
    requires LinksOk(k) && k.agent.Running? && k.down.got < |k.down.sent|
    requires var m := k.down.sent[k.down.got];
             HonestDown(m) && TargetOf(m).WsId? && Get(k.board.sessions, TargetOf(m).id) in {None, Some(TargetOf(m).id)}
    ensures var m := k.down.sent[k.down.got]; var x := TargetOf(m).id;
            && |DownOf(m)| == 1 && (DownOf(m)[0].DConnect? || DownOf(m)[0].DWs?)
            && WsOf(Handled(k), x) == AfterCall(WsOf(k, x), DownOf(m)[0], k.agent.version, k.agent.ws, k.up.open)
            && SameStreamsBut(k, Handled(k), x)
  {
    hide TrafficOf, DownOf, TargetOf, Agent.ActionOn, HonestDown, Agent.AgentBoard.Apply;
    var m := k.down.sent[k.down.got];
    var x := TargetOf(m).id;
    SaysOneThing(m);
    TakeDownViews(k);
    BoardOnStream(k.board, DownOf(m)[0], x);
    assert DownOf(m) == [DownOf(m)[0]];
    var k1 := TakeDown(k).(board := k.board.Read(m, x));
    SameLinksTraffic(TakeDown(k), k1);
    if Agent.ActionOn(m, k.agent.ws).Reply? {
      Refusal(x);
      SendUpViews(k1, Text(Agent.ActionOn(m, k.agent.ws).msg));
    } else {
      SameLinksTraffic(TakeDown(k), Handled(k));
    }
  }

  lemma Refusal(x: Uuid)
    ensures var m := Text(WsConnectAck(x, false, None, Some(Agent.NO_WS_CAPABILITY)));
            TargetOf(m) == WsId(x) && UpOf(m) == [UAck(Ack(false, None, Some(Agent.NO_WS_CAPABILITY)))]
  {
  }

  lemma ReaderOffStreams(k: Conn)
    requires LinksOk(k) && k.agent.Running? && k.down.got < |k.down.sent|
    requires var m := k.down.sent[k.down.got]; HonestDown(m) && !TargetOf(m).WsId?
    ensures forall x: Uuid :: WsOf(Handled(k), x) == WsOf(k, x)
  {
    hide TrafficOf, DownOf, HonestDown, TargetOf, Agent.ActionOn;
    var m := k.down.sent[k.down.got];
    SaysOneThing(m);
    TakeDownViews(k);
    SameLinksTraffic(TakeDown(k), Handled(k));
  }

  lemma CallForStream(s: Sys, c: nat)
    requires Inv1(s) && c in s.conns && s.conns[c].agent.Running? && s.conns[c].down.got < |s.conns[c].down.sent|
    requires TargetOf(s.conns[c].down.sent[s.conns[c].down.got]).WsId?
    ensures var k := s.conns[c]; var m := k.down.sent[k.down.got]; var x := TargetOf(m).id;
            && x in s.strs && s.strs[x].conn == c && |DownOf(m)| == 1
            && Get(k.board.sessions, x) in {None, Some(x)}
            && WsLocal(x, s.strs[x], HereOf(s, x),
                       AfterCall(WsOf(k, x), DownOf(m)[0], k.agent.version, k.agent.ws, k.up.open))
            && (DownOf(m)[0].DConnect? ==> x !in k.tasks)
  {
    hide WsLocal, WsInv, WireInv, RegInv, UpOf, DownOf, UpFor, DownFor, TargetOf, AfterCall, HonestDown;
    var k := s.conns[c];
    var m := k.down.sent[k.down.got];
    var x := TargetOf(m).id;
    HandableAt(s, c);
    SaysOneThing(m);
    NextDownIsSent(k);
    StreamOwnedHere(s, x, c);
    StreamNow(s, x);
    assert DownOf(m) == [DownOf(m)[0]];
    CallLocal(x, s.strs[x], HereOf(s, x), WsOf(k, x), DownOf(m)[0], k.agent.version, k.agent.ws, k.up.open);
  }

  lemma AgentReadStreams(s: Sys, c: nat)
    requires Inv1(s) && AgentRead(s, c).Some?
    ensures WsInv(AgentRead(s, c).value)
  {
    hide WsLocal, WsInv, WsOf, WireInv, RegInv, UpOf, DownOf, TargetOf, Handled, AfterCall;
    var s' := AgentRead(s, c).value;
    var k := s.conns[c];
    var m := k.down.sent[k.down.got];
    HandableAt(s, c);
    if TargetOf(m).WsId? {
      var x := TargetOf(m).id;
      CallForStream(s, c);
      ReaderOnStream(k);
      OneStream(s, s', x, s.strs[x], c, s'.conns[c]);
    } else {
      ReaderOffStreams(k);
      SameStreamsKeep(s, s');
    }
  }

  // ---- the stream's task at the agent ----

  /** `k1` is `k` but for stream `x`'s task, its input and its place in the session map. */
  ghost predicate TaskChanged(k: Conn, k1: Conn, x: Uuid) {
    && k1 == k.(tasks := k1.tasks, board := k.board.(sessions := k1.board.sessions, inputs := k1.board.inputs))
    && x in k1.tasks
    && forall y: Uuid | y != x ::
         && Get(k1.tasks, y) == Get(k.tasks, y) && Get(k1.board.sessions, y) == Get(k.board.sessions, y)
         && Get(k1.board.inputs, y) == Get(k.board.inputs, y)
  }

  lemma TaskHere(s: Sys, c: nat, x: Uuid)
    requires Inv1(s) && TaskAt(s, c, x)
    ensures x in s.strs && s.strs[x].conn == c && LinksOk(s.conns[c])
    ensures TaskOk(s.conns[c].tasks[x]) && IsSupported(s.conns[c].tasks[x].version)
    ensures TaskSide(x, WsOf(s.conns[c], x))
  {
    hide WsOf, EventsOk, ShotOk, DeliveredOk;
    assert WsOf(s.conns[c], x).task == Some(s.conns[c].tasks[x]) by { TaskIsView(s.conns[c], x); }
    assert WsOk(s, x, c);
  }

  lemma TaskIsView(k: Conn, x: Uuid)
    requires x in k.tasks
    ensures WsOf(k, x).task == Some(k.tasks[x])
  {
  }

  /** The task goes on, saying `m` if anything. */
  lemma TaskMoves(s: Sys, c: nat, x: Uuid, k1: Conn, m: Option<Wire>, s': Sys)
    requires Inv1(s) && TaskAt(s, c, x) && TaskChanged(s.conns[c], k1, x)
    requires m.Some? ==> TargetOf(m.value) == WsId(x) && s.conns[c].up.open
    requires TaskOk(k1.tasks[x]) && k1.tasks[x].asked == s.conns[c].tasks[x].asked
    requires Replied(k1.tasks[x]) == Replied(s.conns[c].tasks[x]) + if m.Some? then UpOf(m.value) else []
    requires WsOf(k1, x).task.Some? && InputOk(WsOf(k1, x))
    requires x in k1.board.sessions ==> k1.board.sessions[x] == x && x in k1.board.inputs
    requires s' == SetConn(s, c, if m.Some? then SendUp(k1, m.value) else k1)
    ensures WsInv(s')
  {
    hide WsLocal, WsInv, WireInv, RegInv, UpOf, TargetOf, TaskOk, Replied, InputOk, TrafficOf;
    var k := s.conns[c];
    TaskHere(s, c, x);
    StreamNow(s, x);
    SameLinksTraffic(k, k1);
    var said := if m.Some? then UpOf(m.value) else [];
    InputOkSpoken(WsOf(k1, x), said);
    TaskMoveLocal(x, s.strs[x], HereOf(s, x), WsOf(k, x), WsOf(k1, x).Spoke(said), said);
    if m.Some? {
      SendUpViews(k1, m.value);
    } else {
      assert WsOf(k1, x).traffic.up + [] == WsOf(k1, x).traffic.up;
    }
    OneStream(s, s', x, s.strs[x], c, s'.conns[c]);
  }

  lemma InputOkSpoken(at: WsAt, said: seq<UpEvent>)
    requires at.task.Some? && InputOk(at)
    ensures InputOk(at.Spoke(said))
  {
  }

  lemma TaskAcksKeeps(s: Sys, c: nat, x: Uuid, sub: Option<string>)
    requires Inv1(s) && TaskAcks(s, c, x, sub).Some?
    ensures WsInv(TaskAcks(s, c, x, sub).value)
  {
    hide WsInv, WireInv, RegInv, TrafficOf;
    TaskHere(s, c, x);
    var k := s.conns[c];
    var w := k.tasks[x];
    SameLinksTraffic(k, SetTask(k, x, w));
    assert EventsFor([]) == [];
    assert WsUps([]) == [];
    var s' := TaskAcks(s, c, x, sub).value;
    if k.up.open {
      TaskMoves(s, c, x, SetTask(k, x, w.(pc := Acknowledged, ack := Some(Ack(true, sub, None)))),
                Some(Text(WsConnectAck(x, true, sub, None))), s');
    } else {
      TaskMoves(s, c, x, s'.conns[c], None, s');
    }
  }

  lemma TaskDialFailsKeeps(s: Sys, c: nat, x: Uuid, reason: string)
    requires Inv1(s) && TaskDialFails(s, c, x, reason).Some?
    ensures WsInv(TaskDialFails(s, c, x, reason).value)
  {
    hide WsInv, WireInv, RegInv, TrafficOf;
    TaskHere(s, c, x);
    var s' := TaskDialFails(s, c, x, reason).value;
    SameLinksTraffic(s.conns[c], s'.conns[c]);
    TaskMoves(s, c, x, s'.conns[c], None, s');
  }

  lemma TaskRefusesKeeps(s: Sys, c: nat, x: Uuid)
    requires Inv1(s) && TaskRefuses(s, c, x).Some?
    ensures WsInv(TaskRefuses(s, c, x).value)
  {
    hide WsInv, WireInv, RegInv, TrafficOf;
    TaskHere(s, c, x);
    var k := s.conns[c];
    var w := k.tasks[x];
    assert EventsFor([]) == [];
    assert WsUps([]) == [];
    var s' := TaskRefuses(s, c, x).value;
    if k.up.open {
      var k1 := SetTask(k, x, w.(pc := Forgetting, ack := Some(Ack(false, None, Some(w.pc.reason)))));
      SameLinksTraffic(k, k1);
      TaskMoves(s, c, x, k1, Some(Text(WsConnectAck(x, false, None, Some(w.pc.reason)))), s');
    } else {
      SameLinksTraffic(k, s'.conns[c]);
      TaskMoves(s, c, x, s'.conns[c], None, s');
    }
  }

  lemma TaskListensKeeps(s: Sys, c: nat, x: Uuid)
    requires Inv1(s) && TaskListens(s, c, x).Some?
    ensures WsInv(TaskListens(s, c, x).value)
  {
    hide WsInv, WireInv, RegInv, DownFor, UpFor, DownWs, Talk, WsUps, IsSupported, LinksOk;
    TaskHere(s, c, x);
    var s' := TaskListens(s, c, x).value;
    SameLinksTraffic(s.conns[c], s'.conns[c]);
    TaskMoves(s, c, x, s'.conns[c], None, s');
  }

  lemma TaskDropsInputKeeps(s: Sys, c: nat, x: Uuid)
    requires Inv1(s) && TaskDropsInput(s, c, x).Some?
    ensures WsInv(TaskDropsInput(s, c, x).value)
  {
    hide WsInv, WireInv, RegInv, TrafficOf;
    TaskHere(s, c, x);
    var s' := TaskDropsInput(s, c, x).value;
    SameLinksTraffic(s.conns[c], s'.conns[c]);
    TaskMoves(s, c, x, s'.conns[c], None, s');
  }

  lemma TaskUnlistsKeeps(s: Sys, c: nat, x: Uuid)
    requires Inv1(s) && TaskUnlists(s, c, x).Some?
    ensures WsInv(TaskUnlists(s, c, x).value)
  {
    hide WsInv, WireInv, RegInv, TrafficOf;
    TaskHere(s, c, x);
    var s' := TaskUnlists(s, c, x).value;
    SameLinksTraffic(s.conns[c], s'.conns[c]);
    TaskMoves(s, c, x, s'.conns[c], None, s');
  }

  lemma TaskTurnKeeps(s: Sys, c: nat, x: Uuid, input: Input, delivers: bool)
    requires Inv1(s) && TaskTurn(s, c, x, input, delivers).Some?
    ensures WsInv(TaskTurn(s, c, x, input, delivers).value)
  {
    hide WsInv, WireInv, RegInv, TaskTurn;
    if input.Event? {
      TaskGetsKeeps(s, c, x, input, delivers);
    } else {
      TaskSaysKeeps(s, c, x, input, delivers);
    }
  }

  lemma TaskGetsKeeps(s: Sys, c: nat, x: Uuid, input: Input, delivers: bool)
    requires Inv1(s) && TaskTurn(s, c, x, input, delivers).Some? && input.Event?
    ensures WsInv(TaskTurn(s, c, x, input, delivers).value)
  {
    hide WsInv, WireInv, RegInv, TrafficOf, WireFor, Talk, InputOk;
    TaskHere(s, c, x);
    var s' := TaskTurn(s, c, x, input, delivers).value;
    TookInput(s.conns[c], s'.conns[c], x);
    TaskMoves(s, c, x, s'.conns[c], None, s');
  }

  /** One event is off the input, and with the local server or lost as the task closes. */
  lemma TookInput(k: Conn, k1: Conn, x: Uuid)
    requires x in k.tasks && x in k1.tasks && TaskSide(x, WsOf(k, x)) && k.tasks[x].pc.TaskServing?
    requires k1.tasks[x].missed == k.tasks[x].missed
    requires k1.up == k.up && k1.down == k.down && k1.job == k.job && k1.agent == k.agent
    requires x in k.board.inputs && k.board.inputs[x].taken < |k.board.inputs[x].sent|
    requires Get(k1.board.inputs, x) == Some(k.board.inputs[x].(taken := k.board.inputs[x].taken + 1))
    requires Get(k1.board.sessions, x) == Get(k.board.sessions, x)
    requires var q, w, w1 := k.board.inputs[x], k.tasks[x], k1.tasks[x];
             || ((w1.pc.TaskServing? || w1.pc.TaskClosing?) && w1.delivered == w.delivered + [ToLocal(q.sent[q.taken])])
             || (w1.pc.TaskClosing? && w1.delivered == w.delivered)
    ensures InputOk(WsOf(k1, x))
    ensures x in k1.board.sessions ==> k1.board.sessions[x] == x && x in k1.board.inputs
  {
    hide TrafficOf, Replied, TaskOk;
    SameLinksTraffic(k, k1);
    var q := k.board.inputs[x];
    assert ToLocals(q.sent[..q.taken + 1]) == ToLocals(q.sent[..q.taken]) + [ToLocal(q.sent[q.taken])];
  }

  lemma TaskSaysKeeps(s: Sys, c: nat, x: Uuid, input: Input, delivers: bool)
    requires Inv1(s) && TaskTurn(s, c, x, input, delivers).Some? && !input.Event?
    ensures WsInv(TaskTurn(s, c, x, input, delivers).value)
  {
    hide WsInv, WireInv, RegInv, WireFor, InputReady;
    if EmittedEvent(LocalSide, input).Some? && s.conns[c].up.open {
      TaskSpeaksKeeps(s, c, x, input, delivers);
    } else {
      TaskStopsKeeps(s, c, x, input, delivers);
    }
  }

  lemma TaskSpeaksKeeps(s: Sys, c: nat, x: Uuid, input: Input, delivers: bool)
    requires Inv1(s) && TaskTurn(s, c, x, input, delivers).Some? && !input.Event?
    requires EmittedEvent(LocalSide, input).Some? && s.conns[c].up.open
    ensures WsInv(TaskTurn(s, c, x, input, delivers).value)
  {
    hide WsInv, WireInv, RegInv, TrafficOf, WireFor, UpOf, TargetOf, Talk, Replied, InputOk, TaskOk;
    TaskHere(s, c, x);
    var s' := TaskTurn(s, c, x, input, delivers).value;
    var k := s.conns[c];
    var w := k.tasks[x];
    var ev := EmittedEvent(LocalSide, input).value;
    WireForMeaning(LocalSide, w.version, x, ev);
    SaysNext(w, input, ev);
    var k1 := SetTask(k, x, AfterSaying(w, input, ev))
              .(board := k.board.(inputs := k.board.inputs[x := k.board.inputs[x]]));
    StillServing(k, k1, x);
    TaskMoves(s, c, x, k1, Some(WireFor(LocalSide, w.version, x, ev)), s');
  }

  lemma TaskStopsKeeps(s: Sys, c: nat, x: Uuid, input: Input, delivers: bool)
    requires Inv1(s) && TaskTurn(s, c, x, input, delivers).Some? && !input.Event?
    requires !(EmittedEvent(LocalSide, input).Some? && s.conns[c].up.open)
    ensures WsInv(TaskTurn(s, c, x, input, delivers).value)
  {
    hide WsInv, WireInv, RegInv, TrafficOf, WireFor, UpOf, TargetOf, Talk, Replied, InputOk, TaskOk;
    TaskHere(s, c, x);
    var s' := TaskTurn(s, c, x, input, delivers).value;
    StillServing(s.conns[c], s'.conns[c], x);
    TaskStops(s.conns[c].tasks[x], input);
    TaskMoves(s, c, x, s'.conns[c], None, s');
  }

  function AfterSaying(w: WsTask, input: Input, ev: WsEvent): WsTask
    requires ev.WsFrame? ==> input.Peer?
  {
    w.(pc := if ev.WsEnd? then TaskClosing else TaskServing,
       heard := Hear(w.heard, input),
       said := if ev.WsFrame? then w.said + [input.m] else w.said,
       closing := if ev.WsEnd? then Some(ev) else None,
       hangup := HangupOf(input))
  }

  lemma SaysNext(w: WsTask, input: Input, ev: WsEvent)
    requires TaskOk(w) && w.pc.TaskServing? && ValidInput(input) && EmittedEvent(LocalSide, input) == Some(ev)
    ensures TaskOk(AfterSaying(w, input, ev)) && Replied(AfterSaying(w, input, ev)) == Replied(w) + [UWs(ev)]
  {
    TalkGrows(w.said, input, ev, LocalSide);
    HangupTold(LocalSide, input);
    var w' := AfterSaying(w, input, ev);
    assert WsUps(Talk(w'.said, w'.closing)) == WsUps(Talk(w.said, None)) + [UWs(ev)];
  }

  lemma TaskStops(w: WsTask, input: Input)
    requires TaskOk(w) && w.pc.TaskServing?
    ensures var w' := w.(pc := TaskClosing, heard := Hear(w.heard, input), hangup := HangupOf(input));
            TaskOk(w') && Replied(w') == Replied(w)
    ensures TaskOk(w.(pc := TaskClosing)) && Replied(w.(pc := TaskClosing)) == Replied(w)
  {
  }

  /** The task keeps its input whether it serves on or closes. */
  lemma StillServing(k: Conn, k1: Conn, x: Uuid)
    requires x in k.tasks && x in k1.tasks && TaskSide(x, WsOf(k, x)) && k.tasks[x].pc.TaskServing?
    requires k1.tasks[x].pc.TaskServing? || k1.tasks[x].pc.TaskClosing?
    requires k1.tasks[x].missed == k.tasks[x].missed && k1.tasks[x].delivered == k.tasks[x].delivered
    requires k1.up == k.up && k1.down == k.down && k1.job == k.job && k1.agent == k.agent
    requires Get(k1.board.inputs, x) == Get(k.board.inputs, x) && Get(k1.board.sessions, x) == Get(k.board.sessions, x)
    ensures InputOk(WsOf(k1, x))
    ensures x in k1.board.sessions ==> k1.board.sessions[x] == x && x in k1.board.inputs
  {
    hide TrafficOf, Replied, TaskOk;
    SameLinksTraffic(k, k1);
  }
}
