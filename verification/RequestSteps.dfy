/** Every step keeps what `Invariants.HttpInv` says of every request. A step acts on one request at most,
    and leaves the view of every other as it was. */
module RequestSteps {
  import opened Prelude
  import opened Frame
  import opened Messages
  import opened RelayState
  import opened Framing
  import opened System
  import opened Views
  import opened Invariants
  import opened RequestLocal
  import Session
  import Agent
  import Demux

  ghost predicate Inv0(s: Sys) { WireInv(s) && RegInv(s) && HttpInv(s) }

  // ---- steps that touch no request, or one ----

  ghost predicate SameRequests(s: Sys, s': Sys) {
    && s'.reqs == s.reqs && s'.relay.http == s.relay.http
    && s'.conns.Keys == s.conns.Keys
    && forall c: nat, r: Uuid | c in s.conns :: HttpOf(s'.conns[c], r) == HttpOf(s.conns[c], r)
  }

  lemma SameRequestsKeep(s: Sys, s': Sys)
    requires HttpInv(s) && SameRequests(s, s')
    ensures HttpInv(s')
  {
    hide HttpLocal, NoHttp, HttpOf;
    forall r: Uuid, c: nat | c in s'.conns ensures HttpOk(s', r, c) {
      assert HttpOk(s, r, c);
    }
  }

  ghost predicate SameViewsBut(k: Conn, k': Conn, r: Uuid) {
    forall q: Uuid | q != r :: HttpOf(k', q) == HttpOf(k, q)
  }

  /** A step on request `r` of connection `c`: what holds of `r` afterwards is all there is to show. */
  lemma OneRequest(s: Sys, s': Sys, r: Uuid, q': Req, c: nat, k': Conn)
    requires HttpInv(s) && c in s.conns && q'.conn == c && (r in s.reqs ==> s.reqs[r].conn == c)
    requires s'.reqs == s.reqs[r := q']
    requires s'.conns == s.conns[c := k'] || (s'.conns == s.conns && k' == s.conns[c])
    requires SameBut(s.relay.http, s'.relay.http, r) && SameViewsBut(s.conns[c], k', r)
    requires HttpLocal(r, q', Get(s'.relay.http.entries, r), Get(s'.relay.http.queues, r), HttpOf(k', r))
    ensures HttpInv(s')
  {
    hide HttpLocal, NoHttp, HttpOf;
    forall q: Uuid, d: nat | d in s'.conns ensures HttpOk(s', q, d) {
      assert HttpOk(s, q, d);
    }
    forall q: Uuid | q !in s'.reqs ensures q !in s'.relay.http.entries && q !in s'.relay.http.queues {
      assert Get(s'.relay.http.entries, q) == None && Get(s'.relay.http.queues, q) == None;
    }
  }

  ghost predicate LocalNow(s: Sys, r: Uuid) {
    && r in s.reqs && s.reqs[r].conn in s.conns
    && HttpLocal(r, s.reqs[r], Get(s.relay.http.entries, r), Get(s.relay.http.queues, r),
                 HttpOf(s.conns[s.reqs[r].conn], r))
  }

  lemma Locally(s: Sys, r: Uuid)
    requires HttpInv(s) && r in s.reqs
    ensures LocalNow(s, r)
  {
    assert HttpOk(s, r, s.reqs[r].conn);
  }

  function EntryOf(s: Sys, r: Uuid): Option<Uuid> { Get(s.relay.http.entries, r) }

  function ChanOf(s: Sys, r: Uuid): Option<Queue<RelayEvent>> { Get(s.relay.http.queues, r) }

  lemma LinksAt(s: Sys, c: nat)
    requires WireInv(s) && c in s.conns
    ensures LinksOk(s.conns[c])
  {
  }

  /** Where a new request or stream goes. */
  lemma AgentFor(s: Sys, tunnelId: string)
    requires RegInv(s) && tunnelId in s.relay.agents
    ensures s.relay.agents[tunnelId].sender in s.conns && IsSupported(s.relay.agents[tunnelId].protocolVersion)
  {
  }

  // ---- the request's own task ----

  lemma ArriveKeeps(s: Sys, r: Uuid, tunnelId: string)
    requires Inv0(s) && Arrive(s, r, tunnelId).Some?
    ensures HttpInv(Arrive(s, r, tunnelId).value)
  {
    hide HttpLocal, HttpInv, HttpOf, WireInv, RegInv;
    var s' := Arrive(s, r, tunnelId).value;
    var c := s'.reqs[r].conn;
    AgentFor(s, tunnelId);
    Foreign(s, r, c);
    ArriveLocal(r, s'.reqs[r], HttpOf(s.conns[c], r));
    OneRequest(s, s', r, s'.reqs[r], c, s.conns[c]);
  }

  /** A request that is not there has left no trace on any connection. */
  lemma Foreign(s: Sys, r: Uuid, c: nat)
    requires Inv0(s) && c in s.conns && r !in s.reqs
    ensures NoHttp(HttpOf(s.conns[c], r)) && EntryOf(s, r).None? && ChanOf(s, r).None?
    ensures var tr := HttpOf(s.conns[c], r).traffic; tr.got == [] && tr.downGot == [] && tr.stage.Fresh?
  {
    assert HttpOk(s, r, c);
    TrafficPrefix(s.conns[c], HttpId(r));
  }

  lemma SendStartKeeps(s: Sys, r: Uuid, verb: string, path: string, headers: Headers)
    requires Inv0(s) && SendStart(s, r, verb, path, headers).Some?
    ensures HttpInv(SendStart(s, r, verb, path, headers).value)
  {
    hide HttpLocal, HttpInv, HttpOf, WireInv, RegInv;
    var s' := SendStart(s, r, verb, path, headers).value;
    var c := s.reqs[r].conn;
    Locally(s, r);
    LinksAt(s, c);
    SendDownViews(s.conns[c], Text(HttpRequestStart(r, verb, path, headers)));
    SendStartLocal(r, s.reqs[r], EntryOf(s, r), ChanOf(s, r), HttpOf(s.conns[c], r), DStart(verb, path, headers));
    OneRequest(s, s', r, s'.reqs[r], c, s'.conns[c]);
  }

  lemma AddInflightKeeps(s: Sys, r: Uuid)
    requires Inv0(s) && AddInflight(s, r).Some?
    ensures HttpInv(AddInflight(s, r).value)
  {
    hide HttpLocal, HttpInv, WireInv, RegInv;
    var s' := AddInflight(s, r).value;
    var c := s.reqs[r].conn;
    Locally(s, r);
    AddInflightLocal(r, s.reqs[r], EntryOf(s, r), ChanOf(s, r), HttpOf(s.conns[c], r));
    OneRequest(s, s', r, s'.reqs[r], c, s.conns[c]);
  }

  lemma UploadChunkKeeps(s: Sys, r: Uuid, chunk: Bytes)
    requires Inv0(s) && UploadChunk(s, r, chunk).Some?
    ensures HttpInv(UploadChunk(s, r, chunk).value)
  {
    hide HttpLocal, HttpInv, HttpOf, WireInv, RegInv, BodyFrame, TargetOf, UpOf, DownOf;
    var s' := UploadChunk(s, r, chunk).value;
    var q, c := s.reqs[r], s.reqs[r].conn;
    Locally(s, r);
    LinksAt(s, c);
    VersionOf(s, r);
    if chunk != [] && s.conns[c].down.open {
      BodyFrameMeaning(RequestBody, q.version, r, SeqNo(|q.sent|), chunk);
      SendDownViews(s.conns[c], BodyFrame(RequestBody, q.version, r, SeqNo(|q.sent|), chunk));
      UploadSentLocal(r, q, EntryOf(s, r), ChanOf(s, r), HttpOf(s.conns[c], r), chunk);
    } else {
      UploadLocal(r, q, s'.reqs[r], EntryOf(s, r), ChanOf(s, r), HttpOf(s.conns[c], r), chunk);
    }
    OneRequest(s, s', r, s'.reqs[r], c, s'.conns[c]);
  }

  lemma VersionOf(s: Sys, r: Uuid)
    requires HttpInv(s) && r in s.reqs
    ensures IsSupported(s.reqs[r].version)
  {
    assert HttpOk(s, r, s.reqs[r].conn);
  }

  lemma UploadStopsKeeps(s: Sys, r: Uuid, failed: bool)
    requires Inv0(s) && UploadStops(s, r, failed).Some?
    ensures HttpInv(UploadStops(s, r, failed).value)
  {
    hide HttpLocal, HttpInv, HttpOf, WireInv, RegInv;
    var s' := UploadStops(s, r, failed).value;
    var c := s.reqs[r].conn;
    Locally(s, r);
    UploadStopsLocal(r, s.reqs[r], EntryOf(s, r), ChanOf(s, r), HttpOf(s.conns[c], r));
    OneRequest(s, s', r, s'.reqs[r], c, s.conns[c]);
  }

  lemma SendEndKeeps(s: Sys, r: Uuid)
    requires Inv0(s) && SendEnd(s, r).Some?
    ensures HttpInv(SendEnd(s, r).value)
  {
    hide HttpLocal, HttpInv, HttpOf, WireInv, RegInv;
    var s' := SendEnd(s, r).value;
    var c := s.reqs[r].conn;
    Locally(s, r);
    LinksAt(s, c);
    SendDownViews(s.conns[c], Text(HttpRequestEnd(r)));
    UploadStopsLocal(r, s.reqs[r], EntryOf(s, r), ChanOf(s, r), HttpOf(s.conns[c], r));
    OneRequest(s, s', r, s'.reqs[r], c, s'.conns[c]);
  }

  lemma NextEventKeeps(s: Sys, r: Uuid)
    requires Inv0(s) && NextEvent(s, r).Some?
    ensures HttpInv(NextEvent(s, r).value)
  {
    hide HttpLocal, HttpInv, HttpOf, WireInv, RegInv;
    var s' := NextEvent(s, r).value;
    var c := s.reqs[r].conn;
    Locally(s, r);
    NextEventLocal(r, s.reqs[r], EntryOf(s, r), s.relay.http.queues[r], HttpOf(s.conns[c], r));
    OneRequest(s, s', r, s'.reqs[r], c, s.conns[c]);
  }

  lemma YieldEarlyKeeps(s: Sys, r: Uuid)
    requires Inv0(s) && YieldEarly(s, r).Some?
    ensures HttpInv(YieldEarly(s, r).value)
  {
    hide HttpLocal, HttpInv, HttpOf, WireInv, RegInv;
    var s' := YieldEarly(s, r).value;
    var c := s.reqs[r].conn;
    Locally(s, r);
    YieldLocal(r, s.reqs[r], EntryOf(s, r), ChanOf(s, r), HttpOf(s.conns[c], r));
    OneRequest(s, s', r, s'.reqs[r], c, s.conns[c]);
  }

  lemma ReceiveFailsKeeps(s: Sys, r: Uuid, timeout: bool)
    requires Inv0(s) && ReceiveFails(s, r, timeout).Some?
    ensures HttpInv(ReceiveFails(s, r, timeout).value)
  {
    hide HttpLocal, HttpInv, HttpOf, WireInv, RegInv;
    var s' := ReceiveFails(s, r, timeout).value;
    var c := s.reqs[r].conn;
    Locally(s, r);
    HasChan(s, r);
    LeaveLocal(r, s.reqs[r], EntryOf(s, r), ChanOf(s, r), HttpOf(s.conns[c], r));
    OneRequest(s, s', r, s'.reqs[r], c, s.conns[c]);
  }

  lemma RemoveEntryKeeps(s: Sys, r: Uuid)
    requires Inv0(s) && RemoveEntry(s, r).Some?
    ensures HttpInv(RemoveEntry(s, r).value)
  {
    hide HttpLocal, HttpInv, HttpOf, WireInv, RegInv;
    var s' := RemoveEntry(s, r).value;
    var c := s.reqs[r].conn;
    Locally(s, r);
    HasChan(s, r);
    LeaveLocal(r, s.reqs[r], EntryOf(s, r), ChanOf(s, r), HttpOf(s.conns[c], r));
    OneRequest(s, s', r, s'.reqs[r], c, s.conns[c]);
  }

  lemma DropReceiverKeeps(s: Sys, r: Uuid)
    requires Inv0(s) && DropReceiver(s, r).Some?
    ensures HttpInv(DropReceiver(s, r).value)
  {
    hide HttpLocal, HttpInv, HttpOf, WireInv, RegInv;
    var s' := DropReceiver(s, r).value;
    var c := s.reqs[r].conn;
    Locally(s, r);
    HasChan(s, r);
    CloseLocal(r, s.reqs[r], EntryOf(s, r), s.relay.http.queues[r], HttpOf(s.conns[c], r));
    OneRequest(s, s', r, s'.reqs[r], c, s.conns[c]);
  }

  lemma AbandonKeeps(s: Sys, r: Uuid)
    requires Inv0(s) && Abandon(s, r).Some?
    ensures HttpInv(Abandon(s, r).value)
  {
    hide HttpLocal, HttpInv, HttpOf, WireInv, RegInv;
    var s' := Abandon(s, r).value;
    var c := s.reqs[r].conn;
    Locally(s, r);
    HasChan(s, r);
    CloseLocal(r, s.reqs[r], EntryOf(s, r), s.relay.http.queues[r], HttpOf(s.conns[c], r));
    OneRequest(s, s', r, s'.reqs[r], c, s.conns[c]);
  }

  lemma HasChan(s: Sys, r: Uuid)
    requires HttpInv(s) && r in s.reqs
    requires Holding(s.reqs[r].pc) || s.reqs[r].pc.Dropping?
    ensures r in s.relay.http.queues
  {
    assert HttpOk(s, r, s.reqs[r].conn);
  }

  // ---- the session ----

  /** Traffic about a request is on its own connection. */
  lemma OwnedHere(s: Sys, r: Uuid, c: nat)
    requires HttpInv(s) && c in s.conns && !NoHttp(HttpOf(s.conns[c], r))
    ensures r in s.reqs && s.reqs[r].conn == c
  {
    assert HttpOk(s, r, c);
  }

  lemma SessionReadKeeps(s: Sys, c: nat)
    requires Inv0(s) && SessionRead(s, c).Some?
    ensures HttpInv(SessionRead(s, c).value)
  {
    hide HttpLocal, HttpInv, HttpOf, WireInv, RegInv, UpOf, DownOf;
    var s' := SessionRead(s, c).value;
    var k := s.conns[c];
    var m := k.up.sent[k.up.got];
    var t := TargetOf(m);
    ReadableAt(s, c);
    TakeUpViews(k);
    if m.Text? && m.msg.Ping? {
      SendDownViews(TakeUp(k), Text(Pong(m.msg.ts)));
    }
    if t.HttpId? && UpOf(m) != [] {
      ReadForRequest(s, c);
      OneRequest(s, s', t.id, s.reqs[t.id], c, s'.conns[c]);
    } else {
      NothingForRequests(k, m);
      SameRequestsKeep(s, s');
    }
  }

  lemma ReadableAt(s: Sys, c: nat)
    requires WireInv(s) && c in s.conns && s.conns[c].session.Live? && s.conns[c].up.got < |s.conns[c].up.sent|
    ensures LinksOk(s.conns[c]) && HonestUp(s.conns[c].up.sent[s.conns[c].up.got])
    ensures |UpOf(s.conns[c].up.sent[s.conns[c].up.got])| <= 1
  {
  }

  lemma NothingForRequests(k: Conn, m: Wire)
    requires k.job.NoJob? && (TargetOf(m).HttpId? ==> UpOf(m) == [])
    ensures forall r: Uuid | TargetOf(m) == HttpId(r) ::
              HttpOf(k, r).(traffic := Received(HttpOf(k, r).traffic, UpOf(m))) == HttpOf(k, r)
  {
    hide UpOf, UpFor, DownFor, TargetOf;
  }

  lemma ReadForRequest(s: Sys, c: nat)
    requires Inv0(s) && c in s.conns && s.conns[c].session.Live? && s.conns[c].job.NoJob?
    requires s.conns[c].up.got < |s.conns[c].up.sent|
    requires var m := s.conns[c].up.sent[s.conns[c].up.got]; TargetOf(m).HttpId? && UpOf(m) != []
    ensures var m := s.conns[c].up.sent[s.conns[c].up.got]; var r := TargetOf(m).id;
            && r in s.reqs && s.reqs[r].conn == c
            && HttpLocal(r, s.reqs[r], EntryOf(s, r), ChanOf(s, r),
                         HttpOf(s.conns[c], r).(traffic := Received(HttpOf(s.conns[c], r).traffic, UpOf(m))))
  {
    hide HttpLocal, HttpInv, WireInv, RegInv, UpOf, UpFor, DownFor, TargetOf;
    var k := s.conns[c];
    var m := k.up.sent[k.up.got];
    var r := TargetOf(m).id;
    ReadableAt(s, c);
    NextUpIsSent(k);
    OwnedHere(s, r, c);
    Locally(s, r);
    assert UpOf(m) == [UpOf(m)[0]];
    ReadLocal(r, s.reqs[r], EntryOf(s, r), ChanOf(s, r), HttpOf(k, r), UpOf(m)[0]);
  }

  lemma SessionStepKeeps(s: Sys, c: nat)
    requires Inv0(s) && SessionStep(s, c).Some?
    ensures HttpInv(SessionStep(s, c).value)
  {
    hide HttpLocal, HttpInv, WireInv, RegInv, UpFor, DownFor, Demux.Fits;
    var s' := SessionStep(s, c).value;
    var k := s.conns[c];
    var j := k.job;
    EventFits(s, c);
    SetJobTraffic(k, s'.conns[c].job);
    if j.t.HttpId? {
      var r := j.t.id;
      OwnedHere(s, r, c);
      Locally(s, r);
      JobIsLast(s, r);
      StepLocal(r, s.reqs[r], s.relay.http, HttpOf(k, r));
      OneRequest(s, s', r, s.reqs[r], c, s'.conns[c]);
    } else {
      SameRequestsKeep(s, s');
    }
  }

  lemma EventFits(s: Sys, c: nat)
    requires WireInv(s) && c in s.conns && s.conns[c].job.Job?
    ensures s.conns[c].job.todo != []
    ensures s.conns[c].job.t.HttpId? <==> s.conns[c].job.todo[0].UHttp?
  {
    assert Demux.Fits(s.conns[c].job.t, s.conns[c].job.todo[0]);
  }

  lemma JobIsLast(s: Sys, r: Uuid)
    requires HttpInv(s) && r in s.reqs
    requires s.reqs[r].conn in s.conns
    ensures var tr := HttpOf(s.conns[s.reqs[r].conn], r).traffic;
            |tr.todo| <= 1 && (tr.stage.HaveSender? ==> tr.stage.chan == r)
  {
    assert HttpOk(s, r, s.reqs[r].conn);
  }

  // ---- the agent's reader ----

  lemma AgentStopKeeps(s: Sys, c: nat, clean: bool)
    requires Inv0(s) && AgentStop(s, c, clean).Some?
    ensures HttpInv(AgentStop(s, c, clean).value)
  {
    hide HttpLocal, WireInv, RegInv, UpFor, DownFor;
    var s' := AgentStop(s, c, clean).value;
    forall r: Uuid, d: nat | d in s'.conns ensures HttpOk(s', r, d) {
      assert HttpOk(s, r, d);
      if d == c {
        assert HttpOf(s'.conns[c], r) == HttpOf(s.conns[c], r).(running := false, listed := None);
        if r in s.reqs && s.reqs[r].conn == c {
          StopLocal(r, s.reqs[r], EntryOf(s, r), ChanOf(s, r), HttpOf(s.conns[c], r));
        }
      }
    }
  }

  /** Before it has read anything an agent knows of no request. */
  lemma NothingReadYet(k: Conn)
    requires ConnOk(k) && k.agent.Joining?
    ensures forall r: Uuid :: HttpOf(k, r).traffic.downGot == [] && !HttpOf(k, r).running
    ensures k.down.got < |k.down.sent| ==> forall r: Uuid ::
              TargetOf(k.down.sent[0]) != HttpId(r) ==> HttpOf(TakeDown(k), r).traffic.downGot == []
  {
    assert k.down.sent[..0] == [];
    if k.down.got < |k.down.sent| {
      TakeDownViews(k);
    }
  }

  lemma AgentJoinKeeps(s: Sys, c: nat)
    requires Inv0(s) && AgentJoin(s, c).Some?
    ensures HttpInv(AgentJoin(s, c).value)
  {
    hide HttpLocal, RegInv, UpFor, DownFor, DownOf, UpHonest, DownHonest, JobFits;
    var s' := AgentJoin(s, c).value;
    var k := s.conns[c];
    var m := k.down.sent[0];
    TakeDownViews(k);
    NothingReadYet(k);
    forall r: Uuid, d: nat | d in s'.conns ensures HttpOk(s', r, d) {
      assert HttpOk(s, r, d);
      if d == c {
        var at := HttpOf(k, r);
        if TargetOf(m) == HttpId(r) {
          assert HttpOf(s'.conns[c], r) == at.(traffic := Handed(at.traffic, DownOf(m)));
        } else {
          assert HttpOf(s'.conns[c], r) == at.(running := s'.conns[c].agent.Running?);
        }
        if r in s.reqs && s.reqs[r].conn == c {
          NotProxied(r, s.reqs[r], EntryOf(s, r), ChanOf(s, r), at);
          StopLocal(r, s.reqs[r], EntryOf(s, r), ChanOf(s, r), at);
        }
      }
    }
  }

  lemma NotProxied(r: Uuid, q: Req, entry: Option<Uuid>, chan: Option<Queue<RelayEvent>>, at: HttpAt)
    requires HttpLocal(r, q, entry, chan, at) && at.traffic.downGot == []
    ensures at.proxy.None?
  {
  }

  /** An honest message for somebody says exactly one thing. */
  lemma SaysOneThing(m: Wire)
    requires HonestDown(m)
    ensures if TargetOf(m).NoTarget? then DownOf(m) == [] else |DownOf(m)| == 1
    ensures TargetOf(m).HttpId? ==>
              DownOf(m)[0].DStart? || DownOf(m)[0].DBody? || DownOf(m)[0].DEnd?
    ensures TargetOf(m).WsId? ==> DownOf(m)[0].DConnect? || DownOf(m)[0].DWs?
    ensures Agent.ActionOn(m, true) ==
            if TargetOf(m).NoTarget? then Agent.Idle
            else if DownOf(m)[0].DStart? then Agent.SpawnProxy(TargetOf(m).id, DownOf(m)[0])
            else if DownOf(m)[0].DConnect? then Agent.SpawnWs(TargetOf(m).id, DownOf(m)[0])
            else Agent.Idle
    ensures Agent.ActionOn(m, false) ==
            if !TargetOf(m).NoTarget? && DownOf(m)[0].DConnect?
            then Agent.Reply(WsConnectAck(TargetOf(m).id, false, None, Some(Agent.NO_WS_CAPABILITY)))
            else Agent.ActionOn(m, true)
  {
  }

  lemma BoardOnRequest(b: Agent.AgentBoard, ev: DownEvent, r: Uuid)
    requires ev.DStart? || ev.DBody? || ev.DEnd?
    requires Get(b.inflight, r) in {None, Some(r)}
    ensures var b' := b.Apply(r, ev, r);
            && (forall q: Uuid | q != r ::
                  Get(b'.inflight, q) == Get(b.inflight, q) && Get(b'.bodies, q) == Get(b.bodies, q))
            && (ev.DStart? ==> Get(b'.inflight, r) == Some(r) && Get(b'.bodies, r) == Some(NewQueue()))
            && (ev.DEnd? ==> Get(b'.inflight, r) == None && Get(b'.bodies, r) == Get(b.bodies, r))
            && (ev.DBody? ==>
                  if r !in b.inflight then b' == b
                  else if r in b.bodies && b.bodies[r].open then
                    && Get(b'.inflight, r) == Some(r)
                    && Get(b'.bodies, r) == Some(b.bodies[r].(sent := b.bodies[r].sent + [ev.bytes]))
                  else Get(b'.inflight, r) == None && Get(b'.bodies, r) == Get(b.bodies, r))
  {
  }

  lemma ReaderOnRequest(k: Conn)
    requires LinksOk(k) && k.agent.Running? && k.down.got < |k.down.sent|
    requires var m := k.down.sent[k.down.got];
             && HonestDown(m) && TargetOf(m).HttpId?
             && Get(k.board.inflight, TargetOf(m).id) in {None, Some(TargetOf(m).id)}
    ensures var m := k.down.sent[k.down.got]; var r := TargetOf(m).id;
            && |DownOf(m)| == 1
            && HttpOf(Handled(k), r) == AfterHanding(r, HttpOf(k, r), DownOf(m)[0], k.agent.version)
            && SameViewsBut(k, Handled(k), r)
  {
    hide TrafficOf, DownOf, TargetOf, Agent.ActionOn, HonestDown, Agent.AgentBoard.Apply;
    var m := k.down.sent[k.down.got];
    SaysOneThing(m);
    TakeDownViews(k);
    SameLinksTraffic(TakeDown(k), Handled(k));
    BoardOnRequest(k.board, DownOf(m)[0], TargetOf(m).id);
    assert DownOf(m) == [DownOf(m)[0]];
  }

  lemma ReaderElsewhere(k: Conn)
    requires LinksOk(k) && k.agent.Running? && k.down.got < |k.down.sent|
    requires var m := k.down.sent[k.down.got]; HonestDown(m) && !TargetOf(m).HttpId?
    ensures forall r: Uuid :: HttpOf(Handled(k), r) == HttpOf(k, r)
  {
    hide TrafficOf, DownOf, HonestDown;
    var m := k.down.sent[k.down.got];
    SaysOneThing(m);
    TakeDownViews(k);
    var k1 := TakeDown(k).(board := k.board.Read(m, if TargetOf(m).NoTarget? then ZERO_ID else TargetOf(m).id));
    SameLinksTraffic(TakeDown(k), k1);
    if !Agent.ActionOn(m, k.agent.ws).Reply? {
      SameLinksTraffic(TakeDown(k), Handled(k));
    }
    assert forall r: Uuid :: HttpOf(k1, r) == HttpOf(TakeDown(k), r);
    if Agent.ActionOn(m, k.agent.ws).Reply? {
      SendUpViews(k1, Text(Agent.ActionOn(m, k.agent.ws).msg));
    }
  }

  lemma AgentReadKeeps(s: Sys, c: nat)
    requires Inv0(s) && AgentRead(s, c).Some?
    ensures HttpInv(AgentRead(s, c).value)
  {
    hide HttpLocal, HttpInv, HttpOf, WireInv, RegInv, UpOf, DownOf, TargetOf, Handled, AfterHanding;
    var s' := AgentRead(s, c).value;
    var k := s.conns[c];
    var m := k.down.sent[k.down.got];
    HandableAt(s, c);
    if TargetOf(m).HttpId? {
      var r := TargetOf(m).id;
      HandForRequest(s, c);
      ReaderOnRequest(k);
      OneRequest(s, s', r, s.reqs[r], c, s'.conns[c]);
    } else {
      ReaderElsewhere(k);
      SameRequestsKeep(s, s');
    }
  }

  lemma HandableAt(s: Sys, c: nat)
    requires WireInv(s) && c in s.conns && s.conns[c].agent.Running? && s.conns[c].down.got < |s.conns[c].down.sent|
    ensures LinksOk(s.conns[c]) && HonestDown(s.conns[c].down.sent[s.conns[c].down.got])
    ensures IsSupported(s.conns[c].agent.version)
  {
  }

  lemma HandForRequest(s: Sys, c: nat)
    requires Inv0(s) && c in s.conns && s.conns[c].agent.Running? && s.conns[c].down.got < |s.conns[c].down.sent|
    requires TargetOf(s.conns[c].down.sent[s.conns[c].down.got]).HttpId?
    ensures var k := s.conns[c]; var m := k.down.sent[k.down.got]; var r := TargetOf(m).id;
            && r in s.reqs && s.reqs[r].conn == c && |DownOf(m)| == 1
            && Get(k.board.inflight, r) in {None, Some(r)}
            && HttpLocal(r, s.reqs[r], EntryOf(s, r), ChanOf(s, r),
                         AfterHanding(r, HttpOf(k, r), DownOf(m)[0], k.agent.version))
            && (DownOf(m)[0].DStart? ==> r !in k.proxies)
  {
    hide HttpLocal, HttpInv, WireInv, RegInv, UpOf, DownOf, UpFor, DownFor, TargetOf, AfterHanding, HonestDown;
    var k := s.conns[c];
    var m := k.down.sent[k.down.got];
    var r := TargetOf(m).id;
    HandableAt(s, c);
    SaysOneThing(m);
    NextDownIsSent(k);
    OwnedHere(s, r, c);
    Locally(s, r);
    assert DownOf(m) == [DownOf(m)[0]];
    HandLocal(r, s.reqs[r], EntryOf(s, r), ChanOf(s, r), HttpOf(k, r), DownOf(m)[0], k.agent.version);
  }

  // ---- the proxy task ----

  lemma SetProxyViews(k: Conn, r: Uuid, p: Proxy)
    ensures forall q: Uuid ::
              HttpOf(SetProxy(k, r, p), q) == if q == r then HttpOf(k, r).(proxy := Some(p)) else HttpOf(k, q)
    ensures LinksOk(k) ==> LinksOk(SetProxy(k, r, p))
  {
    hide TrafficOf;
    SameLinksTraffic(k, SetProxy(k, r, p));
  }

  lemma ProxyHere(s: Sys, c: nat, r: Uuid)
    requires Inv0(s) && ProxyAt(s, c, r)
    ensures r in s.reqs && s.reqs[r].conn == c && LinksOk(s.conns[c])
    ensures ProxyOk(s.conns[c].proxies[r]) && IsSupported(s.conns[c].proxies[r].version)
  {
    assert HttpOk(s, r, c);
  }

  /** The task goes from `p` to `p'`, saying `m` if anything. */
  lemma ProxyMoves(s: Sys, c: nat, r: Uuid, p': Proxy, m: Option<Wire>, s': Sys)
    requires Inv0(s) && ProxyAt(s, c, r) && ProxyOk(p') && p'.asked == s.conns[c].proxies[r].asked
    requires m.Some? ==> TargetOf(m.value) == HttpId(r) && s.conns[c].up.open
    requires Said(p') == Said(s.conns[c].proxies[r]) + if m.Some? then UpOf(m.value) else []
    requires var k := SetProxy(s.conns[c], r, p');
             s' == SetConn(s, c, if m.Some? then SendUp(k, m.value) else k)
    ensures HttpInv(s')
  {
    hide HttpLocal, HttpInv, HttpOf, WireInv, RegInv, UpOf, TargetOf, ProxyOk, Said;
    var k := s.conns[c];
    var k1 := SetProxy(k, r, p');
    ProxyHere(s, c, r);
    Locally(s, r);
    HasProxy(k, r);
    SetProxyViews(k, r, p');
    var said := if m.Some? then UpOf(m.value) else [];
    ProxyLocal(r, s.reqs[r], EntryOf(s, r), ChanOf(s, r), HttpOf(k, r), p', said);
    if m.Some? {
      SendUpViews(k1, m.value);
    } else {
      assert HttpOf(k, r).traffic.up + [] == HttpOf(k, r).traffic.up;
    }
    OneRequest(s, s', r, s.reqs[r], c, s'.conns[c]);
  }

  lemma HasProxy(k: Conn, r: Uuid)
    requires r in k.proxies
    ensures HttpOf(k, r).proxy == Some(k.proxies[r])
  {
  }

  lemma LocalAnswersKeeps(s: Sys, c: nat, r: Uuid, status: nat, headers: Headers)
    requires Inv0(s) && LocalAnswers(s, c, r, status, headers).Some?
    ensures HttpInv(LocalAnswers(s, c, r, status, headers).value)
  {
    hide HttpInv, WireInv, RegInv;
    ProxyHere(s, c, r);
    var p := s.conns[c].proxies[r];
    if s.conns[c].up.open {
      ProxyMoves(s, c, r, p.(pc := Relaying, start := Some(Start(status, headers))),
                 Some(Text(HttpResponseStart(r, status, headers))), LocalAnswers(s, c, r, status, headers).value);
    } else {
      ProxyMoves(s, c, r, p.(pc := Failing(LINK_CLOSED)), None, LocalAnswers(s, c, r, status, headers).value);
    }
  }

  /** The task has read a chunk, and sent it on if it could. */
  lemma ChunkRead(p: Proxy, chunk: Bytes)
    requires ProxyOk(p) && p.pc.Relaying?
    ensures var p1 := p.(produced := p.produced + [chunk]);
            if chunk == [] then ProxyOk(p1) && Said(p1) == Said(p)
            else
              && ProxyOk(p1.(pc := Failing(LINK_CLOSED))) && Said(p1.(pc := Failing(LINK_CLOSED))) == Said(p)
              && ProxyOk(p1.(emitted := p.emitted + [chunk]))
              && Said(p1.(emitted := p.emitted + [chunk])) == Said(p) + [UHttp(Body(chunk))]
  {
    hide NonEmpty;
    NonEmptySnoc(p.produced, chunk);
    BodyEventsSnoc(p.emitted, chunk);
  }

  lemma LocalChunkKeeps(s: Sys, c: nat, r: Uuid, chunk: Bytes)
    requires Inv0(s) && LocalChunk(s, c, r, chunk).Some?
    ensures HttpInv(LocalChunk(s, c, r, chunk).value)
  {
    hide HttpInv, WireInv, RegInv, TargetOf, UpOf, BodyFrame, Said, ProxyOk, NonEmpty;
    ProxyHere(s, c, r);
    var p := s.conns[c].proxies[r];
    var s' := LocalChunk(s, c, r, chunk).value;
    ChunkRead(p, chunk);
    var p1 := p.(produced := p.produced + [chunk]);
    if chunk == [] {
      assert Said(p1) == Said(p) + [];
      ProxyMoves(s, c, r, p1, None, s');
    } else if s.conns[c].up.open {
      BodyFrameMeaning(ResponseBody, p.version, r, SeqNo(|p.emitted|), chunk);
      ProxyMoves(s, c, r, p1.(emitted := p.emitted + [chunk]),
                 Some(BodyFrame(ResponseBody, p.version, r, SeqNo(|p.emitted|), chunk)), s');
    } else {
      assert Said(p1.(pc := Failing(LINK_CLOSED))) == Said(p) + [];
      ProxyMoves(s, c, r, p1.(pc := Failing(LINK_CLOSED)), None, s');
    }
  }

  lemma LocalFailsKeeps(s: Sys, c: nat, r: Uuid, message: string)
    requires Inv0(s) && LocalFails(s, c, r, message).Some?
    ensures HttpInv(LocalFails(s, c, r, message).value)
  {
    hide HttpInv, WireInv, RegInv;
    ProxyHere(s, c, r);
    ProxyMoves(s, c, r, s.conns[c].proxies[r].(pc := Failing(message)), None, LocalFails(s, c, r, message).value);
  }

  lemma LocalEndsKeeps(s: Sys, c: nat, r: Uuid)
    requires Inv0(s) && LocalEnds(s, c, r).Some?
    ensures HttpInv(LocalEnds(s, c, r).value)
  {
    hide HttpInv, WireInv, RegInv;
    ProxyHere(s, c, r);
    var p := s.conns[c].proxies[r];
    if s.conns[c].up.open {
      ProxyMoves(s, c, r, p.(pc := ProxyDone, last := Some(RelayEvent.End)), Some(Text(HttpResponseEnd(r))),
                 LocalEnds(s, c, r).value);
    } else {
      ProxyMoves(s, c, r, p.(pc := Failing(LINK_CLOSED)), None, LocalEnds(s, c, r).value);
    }
  }

  lemma ReportFailureKeeps(s: Sys, c: nat, r: Uuid)
    requires Inv0(s) && ReportFailure(s, c, r).Some?
    ensures HttpInv(ReportFailure(s, c, r).value)
  {
    hide HttpInv, WireInv, RegInv;
    ProxyHere(s, c, r);
    var p := s.conns[c].proxies[r];
    if s.conns[c].up.open {
      ProxyMoves(s, c, r, p.(pc := ProxyDone, last := Some(Error(Agent.LOCAL_PROXY_ERROR, p.pc.message))),
                 Some(Text(ErrorMessage(Some(r), Agent.LOCAL_PROXY_ERROR, p.pc.message))),
                 ReportFailure(s, c, r).value);
    } else {
      ProxyMoves(s, c, r, p.(pc := ProxyDone), None, ReportFailure(s, c, r).value);
    }
  }

  lemma LocalBodyKeeps(s: Sys, c: nat, r: Uuid, drop: bool)
    requires Inv0(s) && LocalBody(s, c, r, drop).Some?
    ensures HttpInv(LocalBody(s, c, r, drop).value)
  {
    hide HttpInv, WireInv, RegInv, HttpLocal, TrafficOf;
    var s' := LocalBody(s, c, r, drop).value;
    var k := s.conns[c];
    ProxyHere(s, c, r);
    Locally(s, r);
    SameLinksTraffic(k, s'.conns[c]);
    BodyWithin(s, c, r);
    BodyLocal(r, s.reqs[r], EntryOf(s, r), ChanOf(s, r), HttpOf(k, r), s'.conns[c].board.bodies[r]);
    OneRequest(s, s', r, s.reqs[r], c, s'.conns[c]);
  }

  lemma BodyWithin(s: Sys, c: nat, r: Uuid)
    requires Inv0(s) && ProxyAt(s, c, r) && r in s.conns[c].board.bodies
    ensures s.conns[c].board.bodies[r].taken <= |s.conns[c].board.bodies[r].sent|
  {
    assert HttpOk(s, r, c);
  }

  // ---- steps that concern no request ----

  /** A new connection has nothing to say about any request or stream. */
  lemma FreshViews(k: Conn, reg: Wire)
    requires k.up == Link([reg], 0, true) && k.down == Link([], 0, true) && k.job.NoJob? && TargetOf(reg).NoTarget?
    requires k.board == Agent.AgentBoard(map[], map[], map[], map[]) && k.proxies == map[] && k.tasks == map[]
    ensures forall r: Uuid :: NoHttp(HttpOf(k, r))
    ensures forall x: Uuid :: NoWs(WsOf(k, x))
  {
    hide UpFor, DownFor, TargetOf;
    forall t: Target | !t.NoTarget?
      ensures UpFor(t, [reg]) == [] && UpFor(t, []) == [] && DownFor(t, []) == []
    {
      OneMessage(t, reg);
    }
    assert k.up.Read() == [] && k.down.Read() == [];
  }

  lemma OneMessage(t: Target, m: Wire)
    requires TargetOf(m) != t
    ensures UpFor(t, [m]) == [] && UpFor(t, []) == [] && DownFor(t, []) == []
  {
    hide TargetOf, UpOf, DownOf;
    UpForSnoc(t, [], m);
    assert [] + [m] == [m];
  }

  lemma OpenConnKeeps(s: Sys, c: nat, tunnelId: string, token: string, version: Option<byte>, caps: seq<string>)
    requires Inv0(s) && OpenConn(s, c, tunnelId, token, version, caps).Some?
    ensures HttpInv(OpenConn(s, c, tunnelId, token, version, caps).value)
  {
    hide HttpLocal, NoHttp, HttpOf, WireInv, RegInv;
    var s' := OpenConn(s, c, tunnelId, token, version, caps).value;
    FreshViews(s'.conns[c], Text(RegisterAgent(tunnelId, token, version, caps)));
    forall r: Uuid, d: nat | d in s'.conns ensures HttpOk(s', r, d) {
      if d != c {
        assert HttpOk(s, r, d);
      }
    }
  }

  /** The first message of a connection is its registration, and says nothing else. */
  lemma RegistrationViews(k: Conn)
    requires ConnOk(k) && k.session.Opened? && k.up.got == 0 < |k.up.sent|
    ensures LinksOk(TakeUp(k))
    ensures forall r: Uuid :: HttpOf(TakeUp(k), r) == HttpOf(k, r)
    ensures forall x: Uuid :: WsOf(TakeUp(k), x) == WsOf(k, x)
  {
    TakeUpViews(k);
  }

  /** What the session does with the registration leaves every view as it was. */
  lemma RegisterViews(k: Conn, k1: Conn, reason: string)
    requires ConnOk(k) && k.session.Opened? && k.up.got == 0 < |k.up.sent|
    requires k1.up == TakeUp(k).up && k1.down == k.down && k1.job == TakeUp(k).job && k1.agent == k.agent
    requires k1.board == k.board && k1.proxies == k.proxies
    ensures forall r: Uuid :: HttpOf(k1, r) == HttpOf(k, r)
    ensures forall r: Uuid :: HttpOf(SendDown(k1, Text(Session.AckFor(false, Some(reason)))), r) == HttpOf(k, r)
  {
    hide TrafficOf, UpHonest, DownHonest, JobFits;
    RegistrationViews(k);
    SameLinksTraffic(TakeUp(k), k1);
    SendDownViews(k1, Text(Session.AckFor(false, Some(reason))));
  }

  lemma SessionRegisterKeeps(s: Sys, c: nat, id: Uuid)
    requires Inv0(s) && SessionRegister(s, c, id).Some?
    ensures HttpInv(SessionRegister(s, c, id).value)
  {
    hide HttpInv, RegInv, HttpOf, ConnOk, Session.Gate, Session.AckFor;
    var s' := SessionRegister(s, c, id).value;
    var k := s.conns[c];
    match Session.Gate(s.tokens, Some(k.up.sent[0].msg)) {
      case Silent => RegisterViews(k, s'.conns[c], "");
      case Rejected(reason) => RegisterViews(k, TakeUp(k).(session := Closed), reason);
      case Passed(tunnelId, _, _) =>
        if tunnelId in s.relay.agents {
          RegisterViews(k, TakeUp(k).(session := Closed), Session.IN_USE);
        } else {
          RegisterViews(k, s'.conns[c], "");
        }
    }
    SameRequestsKeep(s, s');
  }

  lemma SessionAckKeeps(s: Sys, c: nat)
    requires Inv0(s) && SessionAck(s, c).Some?
    ensures HttpInv(SessionAck(s, c).value)
  {
    hide HttpInv, WireInv, RegInv, UpFor, DownFor;
    LinksAt(s, c);
    var k := s.conns[c].(session := Live);
    SameLinksTraffic(s.conns[c], k);
    SendDownViews(k, Text(Session.AckFor(true, None)));
    SameRequestsKeep(s, SessionAck(s, c).value);
  }

  lemma AgentPingKeeps(s: Sys, c: nat, ts: nat)
    requires Inv0(s) && AgentPing(s, c, ts).Some?
    ensures HttpInv(AgentPing(s, c, ts).value)
  {
    hide HttpInv, WireInv, RegInv, UpFor, DownFor;
    LinksAt(s, c);
    SendUpViews(s.conns[c], Text(Ping(ts)));
    SameRequestsKeep(s, AgentPing(s, c, ts).value);
  }

  /** Whatever changes at most a connection's session, its links' openness, or what only streams use. */
  lemma QuietKeeps(s: Sys, s': Sys, c: nat)
    requires Inv0(s) && s'.reqs == s.reqs && s'.relay.http == s.relay.http
    requires s'.conns == s.conns || (c in s.conns && c in s'.conns && s'.conns == s.conns[c := s'.conns[c]])
    requires c in s.conns && c in s'.conns ==>
               var k, k' := s.conns[c], s'.conns[c];
               && k'.up.sent == k.up.sent && k'.up.got == k.up.got && k'.down.sent == k.down.sent
               && k'.down.got == k.down.got
               && k'.job == k.job && k'.proxies == k.proxies && k'.agent == k.agent
               && k'.board.inflight == k.board.inflight && k'.board.bodies == k.board.bodies
    ensures HttpInv(s')
  {
    hide HttpInv, WireInv, RegInv, UpFor, DownFor;
    SameRequestsKeep(s, s');
  }
}
