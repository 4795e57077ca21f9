/** What the steps record of the outside, what clients and local servers did, is what the labels of the run say
    they did. The statements about runs compare these records; this is what they are records of. */
module Records {
  import opened Prelude
  import opened Messages
  import opened RelayState
  import opened WsTunnel
  import opened System
  import opened Views
  import opened Invariants
  import opened Safety
  import Ingress
  import Agent
  import Session
  import Frames
  import RequestSteps
  import StreamSteps

  // ---- the outside, read off a run ----

  /** The response chunks the local server produced for request `r` of connection `c`. */
  function ProducedIn(steps: seq<Label>, c: nat, r: Uuid): seq<Bytes> {
    if steps == [] then [] else
      ProducedIn(steps[..|steps| - 1], c, r)
        + match steps[|steps| - 1]
          case OfLocal(d, q, Produces(chunk)) => if d == c && q == r then [chunk] else []
          case _ => []
  }

  /** The chunks that were read of a client's upload. */
  function UploadedIn(steps: seq<Label>, r: Uuid): seq<Bytes> {
    if steps == [] then [] else
      UploadedIn(steps[..|steps| - 1], r)
        + match steps[|steps| - 1]
          case OfRequest(q, Uploads(chunk)) => if q == r then [chunk] else []
          case _ => []
  }

  /** A socket's message, if it is one that carries data. */
  function DataOf(input: Input): seq<WsMessage> { if input.Peer? && !input.m.MClose? then [input.m] else [] }

  /** What a client's socket said. */
  function ClientSaidIn(steps: seq<Label>, x: Uuid): seq<WsMessage> {
    if steps == [] then [] else
      ClientSaidIn(steps[..|steps| - 1], x)
        + match steps[|steps| - 1]
          case OfStream(y, TakesTurn(input, _)) => if y == x then DataOf(input) else []
          case _ => []
  }

  /** What a local server's socket said. */
  function LocalSaidIn(steps: seq<Label>, c: nat, x: Uuid): seq<WsMessage> {
    if steps == [] then [] else
      LocalSaidIn(steps[..|steps| - 1], c, x)
        + match steps[|steps| - 1]
          case OfTask(d, y, Turns(input, _)) => if d == c && y == x then DataOf(input) else []
          case _ => []
  }

  // ---- what a step leaves alone ----

  /** The agent's tasks of connection `d` are as they were, and none if it is new. */
  predicate SameTasks(s: Sys, s': Sys, d: nat) {
    && (d in s.conns ==>
          && d in s'.conns && s'.conns[d].proxies == s.conns[d].proxies && s'.conns[d].tasks == s.conns[d].tasks)
    && (d !in s.conns && d in s'.conns ==> s'.conns[d].proxies == map[] && s'.conns[d].tasks == map[])
  }

  /** What was said on the client's side of every stream is as it was. */
  ghost predicate SameTalk(s: Sys, s': Sys) {
    && s'.strs.Keys == s.strs.Keys
    && (forall x <- s.strs ::
          s'.strs[x] == s.strs[x].(evicted := s'.strs[x].evicted))
  }

  lemma OneConnTasks(s: Sys, s': Sys, c: nat, d: nat)
    requires
      || s'.conns == s.conns
      || (&& c in s.conns && c in s'.conns && s'.conns == s.conns[c := s'.conns[c]]
          && s'.conns[c].proxies == s.conns[c].proxies && s'.conns[c].tasks == s.conns[c].tasks)
    ensures SameTasks(s, s', d)
  {
  }

  lemma RegisterLeaves(s: Sys, c: nat, id: Uuid, s': Sys, d: nat)
    requires SessionRegister(s, c, id) == Some(s')
    ensures SameTasks(s, s', d) && s'.reqs == s.reqs && SameTalk(s, s')
  {
    hide Session.Gate, Session.AckFor, JobOf, SendDown, SameTasks, SameTalk;
    DownTasks();
    match Session.Gate(s.tokens, Some(s.conns[c].up.sent[0].msg)) {
      case Silent => OneConnTasks(s, s', c, d);
      case Rejected(_) => OneConnTasks(s, s', c, d);
      case Passed(_, _, _) => OneConnTasks(s, s', c, d);
    }
    SameStrsTalk(s, s');
  }

  lemma DownTasks()
    ensures forall k: Conn, m: Wire :: SendDown(k, m).proxies == k.proxies && SendDown(k, m).tasks == k.tasks
  {
  }

  lemma SameStrsTalk(s: Sys, s': Sys)
    requires s'.strs == s.strs
    ensures SameTalk(s, s')
  {
  }

  lemma LivingLeaves(s: Sys, c: nat, move: SessionMove, s': Sys, d: nat)
    requires SessionNext(s, c, move) == Some(s') && !move.Register?
    requires
      || move.Connect? || move.GiveUp? || move.Acknowledge? || move.ReadMessage? || move.HandleEvent?
      || move.Leave? || move.CloseWriter?
    ensures SameTasks(s, s', d) && s'.reqs == s.reqs && SameTalk(s, s')
  {
    hide Link.Put, Relay.Step, Session.AckFor, JobOf, SweepOf, SameTasks;
    if move.Connect? {
      NewConnTasks(s, s', c, d);
    } else {
      OneConnTasks(s, s', c, d);
    }
  }

  lemma NewConnTasks(s: Sys, s': Sys, c: nat, d: nat)
    requires c !in s.conns && c in s'.conns && s'.conns == s.conns[c := s'.conns[c]]
    requires s'.conns[c].proxies == map[] && s'.conns[c].tasks == map[]
    ensures SameTasks(s, s', d)
  {
  }

  lemma FindingLeaves(s: Sys, c: nat, move: SessionMove, s': Sys, d: nat)
    requires SessionNext(s, c, move) == Some(s') && (move.FindsEntry? || move.GoesOn?)
    ensures SameTasks(s, s', d) && s'.reqs == s.reqs && SameTalk(s, s')
  {
    hide MatchingPending, MatchingStreams, SameTasks;
    OneConnTasks(s, s', c, d);
  }

  lemma EvictingLeaves(s: Sys, c: nat, move: SessionMove, s': Sys, d: nat)
    requires SessionNext(s, c, move) == Some(s') && (move.TakePending? || move.TakeStream?)
    ensures SameTasks(s, s', d) && s'.reqs == s.reqs && SameTalk(s, s')
  {
    hide AckBoard.Drop, WsBoard.Drop, SameTasks;
    OneConnTasks(s, s', c, d);
  }

  lemma EndingLeaves(s: Sys, c: nat, move: SessionMove, s': Sys, d: nat)
    requires SessionNext(s, c, move) == Some(s') && (move.UseSender? || move.FinishCleanup?)
    ensures SameTasks(s, s', d) && s'.reqs == s.reqs && SameTalk(s, s')
  {
    hide AckBoard.Resolve, WsBoard.Send, SameTasks, SameTalk;
    OneConnTasks(s, s', c, d);
    SameStrsTalk(s, s');
  }

  lemma SessionLeaves(s: Sys, c: nat, move: SessionMove, s': Sys, d: nat)
    requires SessionNext(s, c, move) == Some(s')
    ensures SameTasks(s, s', d) && s'.reqs == s.reqs && SameTalk(s, s')
  {
    hide OpenConn, SessionRegister, SessionGiveUp, SessionAck, SessionRead, SessionStep, SessionLeave,
         FindEntry, NextPhase, EvictPending, EvictStreamEntry, EvictSend, SessionEnd, CloseLink;
    if move.Register? {
      RegisterLeaves(s, c, move.id, s', d);
    } else if move.Connect? || move.GiveUp? || move.Acknowledge? || move.ReadMessage? || move.HandleEvent?
              || move.Leave? || move.CloseWriter? {
      LivingLeaves(s, c, move, s', d);
    } else if move.FindsEntry? || move.GoesOn? {
      FindingLeaves(s, c, move, s', d);
    } else if move.TakePending? || move.TakeStream? {
      EvictingLeaves(s, c, move, s', d);
    } else {
      EndingLeaves(s, c, move, s', d);
    }
  }

  lemma RequestLeaves(s: Sys, r: Uuid, move: RequestMove, s': Sys, d: nat)
    requires RequestNext(s, r, move) == Some(s')
    ensures SameTasks(s, s', d) && SameTalk(s, s')
  {
    hide Link.Put, BodyFrame, UpFor, TodoFor, Less, Ingress.LoopState.OnEvent, CloseEvents, TakeEvent,
         NoSenderLeft, HttpBoard.Drop, SameTasks, SameTalk;
    SameStrsTalk(s, s');
    OneConnTasks(s, s', if r in s.reqs then s.reqs[r].conn else 0, d);
  }

  lemma StreamLeaves(s: Sys, x: Uuid, move: StreamMove, s': Sys, d: nat)
    requires StreamNext(s, x, move) == Some(s')
    ensures SameTasks(s, s', d) && s'.reqs == s.reqs
  {
    hide Link.Put, WireFor, UpFor, TodoFor, Less, WsEvents, WsSenderLeft, InputReady, Hear, AckBoard.Remove,
         WsBoard.Drop, AfterEvent, TakeTurn, EmittedEvent, HangupOf, SameTasks;
    OneConnTasks(s, s', if x in s.strs then s.strs[x].conn else 0, d);
  }

  /** The agent's tasks of connection `d` are as they were, and the new ones have nothing on record. */
  ghost predicate MoreTasks(s: Sys, s': Sys, d: nat) {
    && (d in s.conns ==>
          && d in s'.conns
          && (forall r <- s.conns[d].proxies ::
                r in s'.conns[d].proxies && s'.conns[d].proxies[r] == s.conns[d].proxies[r])
          && (forall x <- s.conns[d].tasks :: x in s'.conns[d].tasks && s'.conns[d].tasks[x] == s.conns[d].tasks[x]))
    && (d in s'.conns ==>
          && (forall r <- s'.conns[d].proxies ::
                ProxyAt(s, d, r) || NewProxy(s'.conns[d].proxies[r]))
          && (forall x <- s'.conns[d].tasks :: TaskAt(s, d, x) || NewTask(s'.conns[d].tasks[x])))
  }

  predicate NewProxy(p: Proxy) { p == Proxy(p.asked, p.version, Requesting, None, [], [], None) }

  predicate NewTask(t: WsTask) { t == WsTask(t.asked, t.version, Dialing, None, [], [], None, 0, [], None) }

  lemma SameIsMore(s: Sys, s': Sys, d: nat)
    requires SameTasks(s, s', d)
    ensures MoreTasks(s, s', d)
  {
  }

  /** The reader of connection `c` spawns a task that is new, or none. */
  lemma OneMoreTask(s: Sys, s': Sys, c: nat, d: nat)
    requires c in s.conns && c in s'.conns && s'.conns == s.conns[c := s'.conns[c]]
    requires
      || (s'.conns[c].proxies == s.conns[c].proxies && s'.conns[c].tasks == s.conns[c].tasks)
      || (exists r: Uuid, ev, v | r !in s.conns[c].proxies ::
            && s'.conns[c].tasks == s.conns[c].tasks
            && s'.conns[c].proxies == s.conns[c].proxies[r := Proxy(ev, v, Requesting, None, [], [], None)])
      || (exists x: Uuid, ev, v | x !in s.conns[c].tasks ::
            && s'.conns[c].proxies == s.conns[c].proxies
            && s'.conns[c].tasks == s.conns[c].tasks[x := WsTask(ev, v, Dialing, None, [], [], None, 0, [], None)])
    ensures MoreTasks(s, s', d)
  {
  }

  lemma ReaderAdds(s: Sys, c: nat, s': Sys, d: nat)
    requires Inv(s) && AgentRead(s, c) == Some(s')
    ensures MoreTasks(s, s', d)
  {
    hide Inv, WireInv, RegInv, HttpInv, WsInv, HttpLocal, WsLocal, DownOf, TargetOf, MoreTasks, Room,
         Agent.AgentBoard.Read;
    InvParts(s);
    var k := s.conns[c];
    var m := k.down.sent[k.down.got];
    ActionMeaning(m, k.agent.ws);
    match Agent.ActionOn(m, k.agent.ws) {
      case SpawnProxy(r, asked) =>
        RequestSteps.HandForRequest(s, c);
        assert s'.conns[c].proxies == k.proxies[r := Proxy(asked, k.agent.version, Requesting, None, [], [], None)];
      case SpawnWs(x, asked) =>
        StreamSteps.CallForStream(s, c);
        assert s'.conns[c].tasks ==
               k.tasks[x := WsTask(asked, k.agent.version, Dialing, None, [], [], None, 0, [], None)];
      case _ =>
    }
    OneMoreTask(s, s', c, d);
  }

  lemma ActionMeaning(m: Wire, ws: bool)
    ensures var action := Agent.ActionOn(m, ws);
            && (action.SpawnProxy? ==> TargetOf(m) == HttpId(action.requestId) && DownOf(m) == [action.request]
                                       && action.request.DStart?)
            && (action.SpawnWs? ==> TargetOf(m) == WsId(action.streamId) && DownOf(m) == [action.connect]
                                    && action.connect.DConnect?)
  {
  }

  lemma AgentLeaves(s: Sys, c: nat, move: AgentMove, s': Sys, d: nat)
    requires Inv(s) && AgentNext(s, c, move) == Some(s')
    ensures MoreTasks(s, s', d) && s'.reqs == s.reqs && SameTalk(s, s')
  {
    hide Inv, Link.Put, Handled, Agent.JoinFrom, MoreTasks, SameTasks, SameTalk, DownOf, TargetOf;
    SameStrsTalk(s, s');
    if move.Handle? {
      ReaderAdds(s, c, s', d);
    } else {
      OneConnTasks(s, s', c, d);
      SameIsMore(s, s', d);
    }
  }

  // ---- what a step puts on record ----

  /** Of requests and streams, and of the agents' tasks, only request `r` changes. */
  predicate OnlyReq(s: Sys, s': Sys, r: Uuid) { r in s'.reqs && s'.reqs == s.reqs[r := s'.reqs[r]] }

  predicate OnlyStr(s: Sys, s': Sys, x: Uuid) { x in s'.strs && s'.strs == s.strs[x := s'.strs[x]] }

  predicate OnlyProxy(s: Sys, s': Sys, c: nat, r: Uuid) {
    && ProxyAt(s, c, r) && ProxyAt(s', c, r) && s'.reqs == s.reqs && s'.strs == s.strs
    && s'.conns == s.conns[c := s'.conns[c]]
    && s'.conns[c].tasks == s.conns[c].tasks
    && s'.conns[c].proxies == s.conns[c].proxies[r := s'.conns[c].proxies[r]]
  }

  predicate OnlyTask(s: Sys, s': Sys, c: nat, x: Uuid) {
    && TaskAt(s, c, x) && TaskAt(s', c, x) && s'.reqs == s.reqs && s'.strs == s.strs
    && s'.conns == s.conns[c := s'.conns[c]]
    && s'.conns[c].proxies == s.conns[c].proxies
    && s'.conns[c].tasks == s.conns[c].tasks[x := s'.conns[c].tasks[x]]
  }

  /** All that was read of the upload was sent on, or is empty. */
  predicate ReqKept(q: Req) { q.sent == NonEmpty(q.upload) }

  predicate ReqPuts(move: RequestMove, was: Req, now: Req, open: bool) {
    && now.conn == was.conn && (open && ReqKept(was) ==> ReqKept(now))
    && (now.pc.Ending? ==> was.pc.Ending? || move == StopsUpload(false))
    && (now.ended ==> was.ended || was.pc.Ending?)
    && now.upload == was.upload + (if move.Uploads? then [move.chunk] else [])
    && (now.start == was.start
        || (move.SendsStart? && now.start == Some(DStart(move.verb, move.path, move.headers))))
  }

  predicate NewReq(q: Req) {
    q.start.None? && q.upload == [] && q.sent == [] && !q.ended && !q.pc.Ending?
  }

  lemma RequestSays(s: Sys, r: Uuid, move: RequestMove, s': Sys)
    requires RequestNext(s, r, move) == Some(s')
    requires move.SendsStart? || move.Uploads? || move.SendsEnd?
    ensures OnlyReq(s, s', r) && r in s.reqs && s.reqs[r].conn in s.conns
    ensures ReqPuts(move, s.reqs[r], s'.reqs[r], s.conns[s.reqs[r].conn].down.open)
  {
    hide SendDown, BodyFrame, NonEmpty;
    if move.Uploads? {
      NonEmptySnoc(s.reqs[r].upload, move.chunk);
    }
  }

  lemma RequestWaits(s: Sys, r: Uuid, move: RequestMove, s': Sys)
    requires RequestNext(s, r, move) == Some(s')
    requires !(move.SendsStart? || move.Uploads? || move.SendsEnd?)
    ensures OnlyReq(s, s', r) && (r !in s.reqs ==> NewReq(s'.reqs[r]))
    ensures r in s.reqs ==> ReqPuts(move, s.reqs[r], s'.reqs[r], true)
  {
    hide NonEmpty, UpFor, TodoFor, Less, Ingress.LoopState.OnEvent, CloseEvents, TakeEvent, NoSenderLeft,
         HttpBoard.Drop;
  }

  /** All that the client's socket said was sent on, and a close if it has ended. */
  predicate StrKept(w: Str) { w.said == w.heard && (w.hangup.Some? ==> w.closing.Some?) }

  predicate StrPuts(move: StreamMove, was: Str, now: Str, open: bool) {
    && now.conn == was.conn && (open && StrKept(was) ==> StrKept(now))
    && now.heard == was.heard + (if move.TakesTurn? then DataOf(move.input) else [])
    && (now.hangup == was.hangup || (move.TakesTurn? && now.hangup == HangupOf(move.input)))
    && (now.connect == was.connect
        || (move.SendsConnect? && now.connect == Some(DConnect(move.path, move.headers, move.subprotocols))))
  }

  lemma HearsData(side: Side, heard: seq<WsMessage>, input: Input)
    ensures Hear(heard, input) == heard + DataOf(input)
    ensures EmittedEvent(side, input).None? ==> DataOf(input) == [] && HangupOf(input).None?
    ensures EmittedEvent(side, input).Some? && EmittedEvent(side, input).value.WsFrame? ==>
              input.Peer? && DataOf(input) == [input.m]
    ensures EmittedEvent(side, input).Some? && EmittedEvent(side, input).value.WsEnd? ==> DataOf(input) == []
  {
  }

  predicate NewStr(w: Str) {
    w.connect.None? && w.heard == [] && w.said == [] && w.hangup.None?
  }

  lemma StreamTurns(s: Sys, x: Uuid, move: StreamMove, s': Sys)
    requires StreamNext(s, x, move) == Some(s') && move.TakesTurn?
    ensures OnlyStr(s, s', x) && x in s.strs && s.strs[x].conn in s.conns
    ensures StrPuts(move, s.strs[x], s'.strs[x], s.conns[s.strs[x].conn].down.open)
  {
    hide SendDown, WireFor, WsSenderLeft, AfterEvent, HangupOf, EventFor, HangupEvent, ToClient, ToLocal, Hear, DataOf,
         EmittedEvent, InputReady;
    HearsData(ClientSide, s.strs[x].heard, move.input);
    HangupTold(ClientSide, move.input);
    TurnEmits(ClientSide, s.strs[x].version, x, move.input);
  }

  lemma TurnEmits(side: Side, version: byte, x: Uuid, input: Input)
    ensures TakeTurn(side, version, x, input).emit.Some? <==> EmittedEvent(side, input).Some?
  {
  }

  lemma StreamBegins(s: Sys, x: Uuid, move: StreamMove, s': Sys)
    requires StreamNext(s, x, move) == Some(s')
    requires move.Opens? || move.AddsPending? || move.SendsConnect? || move.LosesUpgrade? || move.AddsStream?
    ensures OnlyStr(s, s', x)
    ensures x !in s.strs ==> NewStr(s'.strs[x])
    ensures x in s.strs ==> StrPuts(move, s.strs[x], s'.strs[x], true)
  {
    hide SendDown, UpFor, TodoFor, Less, WsEvents;
  }

  lemma StreamEnds(s: Sys, x: Uuid, move: StreamMove, s': Sys)
    requires StreamNext(s, x, move) == Some(s')
    requires
      || move.GetsAck? || move.TimesOut? || move.Rejects? || move.RemovesStream? || move.RemovesPending?
      || move.Departs?
    ensures OnlyStr(s, s', x) && x in s.strs && StrPuts(move, s.strs[x], s'.strs[x], true)
  {
    hide AckBoard.Remove, WsBoard.Drop;
  }

  /** All that the local server produced was sent on, or is empty. */
  predicate ProxyKept(p: Proxy) { p.emitted == NonEmpty(p.produced) }

  predicate ProxyPuts(move: LocalMove, was: Proxy, now: Proxy, open: bool) {
    && (open && ProxyKept(was) ==> ProxyKept(now))
    && (now.last == was.last
        || (move.Finishes? && now.last == Some(RelayEvent.End))
        || (move.Reports? && was.pc.Failing?
            && now.last == Some(RelayEvent.Error("local_proxy_error", was.pc.message))))
    && (now.pc.Failing? ==>
          now.pc == was.pc || now.pc == Failing("relay channel closed")
          || (move.Fails? && now.pc == Failing(move.message)))
    && now.produced == was.produced + (if move.Produces? then [move.chunk] else [])
    && (now.start == was.start || (move.Answers? && now.start == Some(Start(move.status, move.headers))))
  }

  lemma UpTasks()
    ensures forall k: Conn, m: Wire :: SendUp(k, m).proxies == k.proxies && SendUp(k, m).tasks == k.tasks
  {
  }

  lemma LocalBegins(s: Sys, c: nat, r: Uuid, move: LocalMove, s': Sys)
    requires LocalNext(s, c, r, move) == Some(s') && (move.TakesBody? || move.Answers?)
    ensures OnlyProxy(s, s', c, r) && ProxyPuts(move, s.conns[c].proxies[r], s'.conns[c].proxies[r], s.conns[c].up.open)
  {
    hide SendUp, NonEmpty;
    UpTasks();
    assert s.conns[c].proxies == s.conns[c].proxies[r := s.conns[c].proxies[r]];
  }

  lemma LocalGoesOn(s: Sys, c: nat, r: Uuid, move: LocalMove, s': Sys)
    requires LocalNext(s, c, r, move) == Some(s') && (move.Produces? || move.Fails?)
    ensures OnlyProxy(s, s', c, r) && ProxyPuts(move, s.conns[c].proxies[r], s'.conns[c].proxies[r], s.conns[c].up.open)
  {
    hide SendUp, BodyFrame, NonEmpty;
    UpTasks();
    if move.Produces? {
      NonEmptySnoc(s.conns[c].proxies[r].produced, move.chunk);
    }
  }

  lemma LocalStops(s: Sys, c: nat, r: Uuid, move: LocalMove, s': Sys)
    requires LocalNext(s, c, r, move) == Some(s') && (move.Finishes? || move.Reports?)
    ensures OnlyProxy(s, s', c, r) && ProxyPuts(move, s.conns[c].proxies[r], s'.conns[c].proxies[r], s.conns[c].up.open)
  {
    hide SendUp;
    UpTasks();
  }

  /** All that the local server's socket said was sent on, and a close if it has ended. */
  predicate TaskKept(t: WsTask) { t.said == t.heard && (t.hangup.Some? ==> t.closing.Some?) }

  predicate TaskPuts(move: TaskMove, was: WsTask, now: WsTask, open: bool) {
    && (open && TaskKept(was) ==> TaskKept(now))
    && (now.ack == was.ack
        || (move.Acks? && now.ack == Some(Ack(true, move.sub, None)))
        || (move.Refuses? && was.pc.Refusing? && now.ack == Some(Ack(false, None, Some(was.pc.reason)))))
    && (now.pc.Refusing? ==>
          now.pc == was.pc || now.pc == Refusing("relay channel closed")
          || (move.DialFails? && now.pc == Refusing(move.reason)))
    && now.heard == was.heard + (if move.Turns? then DataOf(move.input) else [])
    && (now.hangup == was.hangup || (move.Turns? && now.hangup == HangupOf(move.input)))
  }

  lemma TaskTurns(s: Sys, c: nat, x: Uuid, move: TaskMove, s': Sys)
    requires TaskNext(s, c, x, move) == Some(s') && move.Turns?
    ensures OnlyTask(s, s', c, x) && TaskPuts(move, s.conns[c].tasks[x], s'.conns[c].tasks[x], s.conns[c].up.open)
  {
    hide SendUp, WireFor, AfterEvent, HangupOf, EventFor, HangupEvent, ToClient, ToLocal, Hear, DataOf, EmittedEvent,
         InputReady;
    UpTasks();
    HearsData(LocalSide, s.conns[c].tasks[x].heard, move.input);
    HangupTold(LocalSide, move.input);
    TurnEmits(LocalSide, s.conns[c].tasks[x].version, x, move.input);
  }

  lemma TaskAnswers(s: Sys, c: nat, x: Uuid, move: TaskMove, s': Sys)
    requires TaskNext(s, c, x, move) == Some(s') && (move.Acks? || move.DialFails? || move.Refuses?)
    ensures OnlyTask(s, s', c, x) && TaskPuts(move, s.conns[c].tasks[x], s'.conns[c].tasks[x], s.conns[c].up.open)
  {
    hide SendUp;
    UpTasks();
  }

  lemma TaskMoves(s: Sys, c: nat, x: Uuid, move: TaskMove, s': Sys)
    requires TaskNext(s, c, x, move) == Some(s') && (move.Listens? || move.DropsInput? || move.Unlists?)
    ensures OnlyTask(s, s', c, x) && TaskPuts(move, s.conns[c].tasks[x], s'.conns[c].tasks[x], s.conns[c].up.open)
  {
    hide DownFor, DownWs;
  }

  // ---- the records of a run ----

  /** Of request `r`: the upload is the chunks that were read of the client's body, in order, and the start is
      the request the client made. */
  ghost predicate RequestIsTheRuns(steps: seq<Label>, s: Sys, r: Uuid) {
    if r in s.reqs then
      && s.reqs[r].upload == UploadedIn(steps, r)
      && (s.reqs[r].start.Some? ==>
            var start := s.reqs[r].start.value;
            start.DStart? && OfRequest(r, SendsStart(start.verb, start.pathAndQuery, start.headers)) in steps)
      && (s.reqs[r].ended || s.reqs[r].pc.Ending? ==> OfRequest(r, StopsUpload(false)) in steps)
      && (s.reqs[r].conn in s.conns && s.conns[s.reqs[r].conn].down.open ==> ReqKept(s.reqs[r]))
    else UploadedIn(steps, r) == []
  }

  /** The local server failed with `message`, or the link was closed. */
  predicate FailedWith(steps: seq<Label>, c: nat, r: Uuid, message: string) {
    message == "relay channel closed" || OfLocal(c, r, Fails(message)) in steps
  }

  /** The local server would not be dialled for `reason`, or the link was closed. */
  predicate RefusedWith(steps: seq<Label>, c: nat, x: Uuid, reason: string) {
    reason == "relay channel closed" || OfTask(c, x, DialFails(reason)) in steps
  }

  /** Of the task for `r` at the agent: it produced the chunks the local server gave, in order, and started with
      the status and headers of its answer. */
  ghost predicate AnswerIsTheRuns(steps: seq<Label>, s: Sys, c: nat, r: Uuid) {
    if ProxyAt(s, c, r) then
      var p := s.conns[c].proxies[r];
      && p.produced == ProducedIn(steps, c, r)
      && (p.start.Some? ==>
            p.start.value.Start? && OfLocal(c, r, Answers(p.start.value.status, p.start.value.headers)) in steps)
      && (p.last.Some? ==>
            || (p.last.value.End? && OfLocal(c, r, Finishes) in steps)
            || (p.last.value.Error? && p.last.value.code == "local_proxy_error"
                && FailedWith(steps, c, r, p.last.value.message)))
      && (p.pc.Failing? ==> FailedWith(steps, c, r, p.pc.message))
      && (s.conns[c].up.open ==> ProxyKept(p))
    else ProducedIn(steps, c, r) == []
  }

  /** Of stream `x`: what was heard is what the client's socket said, in order, the stream it asked for is the
      client's, and it ended as the client's socket did. */
  ghost predicate StreamIsTheRuns(steps: seq<Label>, s: Sys, x: Uuid) {
    if x in s.strs then
      var w := s.strs[x];
      && w.heard == ClientSaidIn(steps, x)
      && (w.connect.Some? ==>
            && w.connect.value.DConnect?
            && OfStream(x, SendsConnect(w.connect.value.pathAndQuery, w.connect.value.headers,
                                        w.connect.value.subprotocols)) in steps)
      && (w.hangup.Some? ==>
            exists input, delivers :: OfStream(x, TakesTurn(input, delivers)) in steps && HangupOf(input) == w.hangup)
      && (w.conn in s.conns && s.conns[w.conn].down.open ==> StrKept(w))
    else ClientSaidIn(steps, x) == []
  }

  /** A turn that ended the local server's socket so. */
  ghost predicate LocalEndedIn(steps: seq<Label>, c: nat, x: Uuid, hangup: Option<Hangup>) {
    exists input, delivers :: OfTask(c, x, Turns(input, delivers)) in steps && HangupOf(input) == hangup
  }

  /** Of the task for `x` at the agent: the same of the local server's socket. */
  ghost predicate TaskIsTheRuns(steps: seq<Label>, s: Sys, c: nat, x: Uuid) {
    if TaskAt(s, c, x) then
      var t := s.conns[c].tasks[x];
      && t.heard == LocalSaidIn(steps, c, x)
      && (t.hangup.Some? ==> LocalEndedIn(steps, c, x, t.hangup))
      && (t.ack.Some? ==>
            if t.ack.value.ok then
              t.ack.value.reason.None? && OfTask(c, x, Acks(t.ack.value.selectedSubprotocol)) in steps
            else
              && t.ack.value.selectedSubprotocol.None? && t.ack.value.reason.Some?
              && RefusedWith(steps, c, x, t.ack.value.reason.value))
      && (t.pc.Refusing? ==> RefusedWith(steps, c, x, t.pc.reason))
      && (s.conns[c].up.open ==> TaskKept(t))
    else LocalSaidIn(steps, c, x) == []
  }

  lemma LinkShut(s: Sys, l: Label, s': Sys, d: nat)
    requires Next(s, l) == Some(s')
    ensures Frames.StaysShut(s, s', d)
  {
    hide Next;
    Frames.StepGrows(s, l, s', d);
  }

  lemma KnownConn(s: Sys, id: Uuid)
    requires Inv(s)
    ensures id in s.reqs ==> s.reqs[id].conn in s.conns
    ensures id in s.strs ==> s.strs[id].conn in s.conns
  {
    hide WireInv, RegInv;
  }

  lemma RequestStepRecords(before: seq<Label>, l: Label, s: Sys, s': Sys, r: Uuid)
    requires Inv(s) && Next(s, l) == Some(s') && RequestIsTheRuns(before, s, r)
    ensures RequestIsTheRuns(before + [l], s', r)
  {
    hide Inv, SessionNext, AgentNext, RequestNext, LocalNext, StreamNext, TaskNext, SameTasks, MoreTasks, SameTalk,
         ProxyPuts, TaskPuts;
    assert (before + [l])[..|before|] == before;
    if r in s.reqs {
      KnownConn(s, r);
      LinkShut(s, l, s', s.reqs[r].conn);
    }
    match l {
      case OfSession(c, move) => SessionLeaves(s, c, move, s', c);
      case OfAgent(c, move) => AgentLeaves(s, c, move, s', c);
      case OfRequest(q, move) => RequestRecorded(s, q, move, s');
      case OfLocal(c, q, move) => LocalRecorded(s, c, q, move, s');
      case OfStream(x, move) => StreamLeaves(s, x, move, s', 0);
      case OfTask(c, x, move) => TaskRecorded(s, c, x, move, s');
    }
  }

  lemma RequestRecorded(s: Sys, r: Uuid, move: RequestMove, s': Sys)
    requires RequestNext(s, r, move) == Some(s')
    ensures OnlyReq(s, s', r)
    ensures r !in s.reqs ==> NewReq(s'.reqs[r]) && !move.Uploads?
    ensures r in s.reqs && s.reqs[r].conn in s.conns ==>
              ReqPuts(move, s.reqs[r], s'.reqs[r], s.conns[s.reqs[r].conn].down.open)
  {
    hide RequestNext, OnlyReq, ReqKept;
    if move.SendsStart? || move.Uploads? || move.SendsEnd? {
      RequestSays(s, r, move, s');
    } else {
      RequestWaits(s, r, move, s');
    }
  }

  lemma StreamRecorded(s: Sys, x: Uuid, move: StreamMove, s': Sys)
    requires StreamNext(s, x, move) == Some(s')
    ensures OnlyStr(s, s', x)
    ensures x !in s.strs ==> NewStr(s'.strs[x]) && !move.TakesTurn?
    ensures x in s.strs && s.strs[x].conn in s.conns ==>
              StrPuts(move, s.strs[x], s'.strs[x], s.conns[s.strs[x].conn].down.open)
  {
    hide StreamNext, OnlyStr, StrKept;
    if move.TakesTurn? {
      StreamTurns(s, x, move, s');
    } else if move.Opens? || move.AddsPending? || move.SendsConnect? || move.LosesUpgrade? || move.AddsStream? {
      StreamBegins(s, x, move, s');
    } else {
      StreamEnds(s, x, move, s');
    }
  }

  lemma LocalRecorded(s: Sys, c: nat, r: Uuid, move: LocalMove, s': Sys)
    requires LocalNext(s, c, r, move) == Some(s')
    ensures OnlyProxy(s, s', c, r) && ProxyPuts(move, s.conns[c].proxies[r], s'.conns[c].proxies[r], s.conns[c].up.open)
  {
    hide LocalNext, ProxyPuts;
    match move {
      case TakesBody(_) => LocalBegins(s, c, r, move, s');
      case Answers(_, _) => LocalBegins(s, c, r, move, s');
      case Produces(_) => LocalGoesOn(s, c, r, move, s');
      case Fails(_) => LocalGoesOn(s, c, r, move, s');
      case Finishes => LocalStops(s, c, r, move, s');
      case Reports => LocalStops(s, c, r, move, s');
    }
  }

  lemma TaskRecorded(s: Sys, c: nat, x: Uuid, move: TaskMove, s': Sys)
    requires TaskNext(s, c, x, move) == Some(s')
    ensures OnlyTask(s, s', c, x) && TaskPuts(move, s.conns[c].tasks[x], s'.conns[c].tasks[x], s.conns[c].up.open)
  {
    hide TaskNext, TaskPuts;
    if move.Turns? {
      TaskTurns(s, c, x, move, s');
    } else if move.Acks? || move.DialFails? || move.Refuses? {
      TaskAnswers(s, c, x, move, s');
    } else {
      TaskMoves(s, c, x, move, s');
    }
  }

  lemma AnswerStepRecords(before: seq<Label>, l: Label, s: Sys, s': Sys, c: nat, r: Uuid)
    requires Inv(s) && Next(s, l) == Some(s') && AnswerIsTheRuns(before, s, c, r)
    ensures AnswerIsTheRuns(before + [l], s', c, r)
  {
    hide Inv, SessionNext, AgentNext, RequestNext, LocalNext, StreamNext, TaskNext, SameTasks, SameTalk, TaskPuts;
    assert (before + [l])[..|before|] == before;
    LinkShut(s, l, s', c);
    match l {
      case OfSession(d, move) => SessionLeaves(s, d, move, s', c); SameIsMore(s, s', c);
      case OfAgent(d, move) => AgentLeaves(s, d, move, s', c);
      case OfRequest(q, move) => RequestLeaves(s, q, move, s', c); SameIsMore(s, s', c);
      case OfLocal(d, q, move) => LocalRecorded(s, d, q, move, s');
      case OfStream(x, move) => StreamLeaves(s, x, move, s', c); SameIsMore(s, s', c);
      case OfTask(d, x, move) => TaskRecorded(s, d, x, move, s');
    }
  }

  lemma EndedStays(before: seq<Label>, d: nat, y: Uuid, move: TaskMove, c: nat, x: Uuid, hangup: Option<Hangup>)
    ensures LocalEndedIn(before, c, x, hangup) ==> LocalEndedIn(before + [OfTask(d, y, move)], c, x, hangup)
    ensures move.Turns? && d == c && y == x && HangupOf(move.input) == hangup ==>
              LocalEndedIn(before + [OfTask(d, y, move)], c, x, hangup)
  {
    if LocalEndedIn(before, c, x, hangup) {
      var input, delivers :| OfTask(c, x, Turns(input, delivers)) in before && HangupOf(input) == hangup;
      assert OfTask(c, x, Turns(input, delivers)) in before + [OfTask(d, y, move)];
    }
    assert OfTask(d, y, move) in before + [OfTask(d, y, move)];
  }

  /** A step of stream `y`'s task at connection `d` puts on record what it says. */
  lemma OwnTaskRecords(before: seq<Label>, d: nat, y: Uuid, move: TaskMove, s: Sys, s': Sys, c: nat, x: Uuid)
    requires OnlyTask(s, s', d, y) && TaskPuts(move, s.conns[d].tasks[y], s'.conns[d].tasks[y], s.conns[d].up.open)
    requires TaskIsTheRuns(before, s, c, x) && Frames.StaysShut(s, s', c)
    ensures TaskIsTheRuns(before + [OfTask(d, y, move)], s', c, x)
  {
    hide DataOf, HangupOf, TaskKept, LocalEndedIn;
    assert (before + [OfTask(d, y, move)])[..|before|] == before;
    assert OfTask(d, y, move) in before + [OfTask(d, y, move)];
    if TaskAt(s, c, x) {
      EndedStays(before, d, y, move, c, x, s'.conns[c].tasks[x].hangup);
    }
  }

  lemma TaskStepRecords(before: seq<Label>, l: Label, s: Sys, s': Sys, c: nat, x: Uuid)
    requires Inv(s) && Next(s, l) == Some(s') && TaskIsTheRuns(before, s, c, x)
    ensures TaskIsTheRuns(before + [l], s', c, x)
  {
    hide Inv, SessionNext, AgentNext, RequestNext, LocalNext, StreamNext, TaskNext, SameTasks, SameTalk, ProxyPuts,
         TaskPuts, OnlyTask, HangupOf, TaskKept;
    NewTaskKept();
    assert (before + [l])[..|before|] == before;
    LinkShut(s, l, s', c);
    match l {
      case OfSession(d, move) => SessionLeaves(s, d, move, s', c); SameIsMore(s, s', c);
      case OfAgent(d, move) => AgentLeaves(s, d, move, s', c);
      case OfRequest(q, move) => RequestLeaves(s, q, move, s', c); SameIsMore(s, s', c);
      case OfLocal(d, q, move) => LocalRecorded(s, d, q, move, s');
      case OfStream(y, move) => StreamLeaves(s, y, move, s', c); SameIsMore(s, s', c);
      case OfTask(d, y, move) => TaskRecorded(s, d, y, move, s'); OwnTaskRecords(before, d, y, move, s, s', c, x);
    }
  }

  lemma NewTaskKept()
    ensures forall t :: NewTask(t) ==> TaskKept(t)
  {
  }

  lemma StreamStepRecords(before: seq<Label>, l: Label, s: Sys, s': Sys, x: Uuid)
    requires Inv(s) && Next(s, l) == Some(s') && StreamIsTheRuns(before, s, x)
    ensures StreamIsTheRuns(before + [l], s', x)
  {
    hide Inv, SessionNext, AgentNext, RequestNext, LocalNext, StreamNext, TaskNext, SameTasks, MoreTasks, ProxyPuts,
         TaskPuts, DataOf, HangupOf;
    assert (before + [l])[..|before|] == before;
    if x in s.strs {
      KnownConn(s, x);
      LinkShut(s, l, s', s.strs[x].conn);
    }
    match l {
      case OfSession(c, move) => SessionLeaves(s, c, move, s', c);
      case OfAgent(c, move) => AgentLeaves(s, c, move, s', c);
      case OfRequest(q, move) => RequestLeaves(s, q, move, s', 0);
      case OfLocal(c, q, move) => LocalRecorded(s, c, q, move, s');
      case OfStream(y, move) => StreamRecorded(s, y, move, s'); assert l in before + [l];
      case OfTask(c, y, move) => TaskRecorded(s, c, y, move, s');
    }
  }

  /** Every run's records are those of its labels. */
  lemma {:induction false} RecordsAreTheRuns(tokens: set<string>, steps: seq<Label>, s: Sys, c: nat, id: Uuid)
    requires Run(tokens, steps) == Some(s)
    ensures RequestIsTheRuns(steps, s, id) && AnswerIsTheRuns(steps, s, c, id)
    ensures StreamIsTheRuns(steps, s, id) && TaskIsTheRuns(steps, s, c, id)
  {
    hide Inv, Next, RequestIsTheRuns, AnswerIsTheRuns, StreamIsTheRuns, TaskIsTheRuns;
    if steps == [] {
      NothingOnRecord(tokens, c, id);
    } else {
      var init, last := steps[..|steps| - 1], steps[|steps| - 1];
      var was := Run(tokens, init).value;
      RecordsAreTheRuns(tokens, init, was, c, id);
      RunSafe(tokens, init);
      assert init + [last] == steps;
      RequestStepRecords(init, last, was, s, id);
      AnswerStepRecords(init, last, was, s, c, id);
      StreamStepRecords(init, last, was, s, id);
      TaskStepRecords(init, last, was, s, c, id);
    }
  }

  lemma NothingOnRecord(tokens: set<string>, c: nat, id: Uuid)
    ensures RequestIsTheRuns([], Init(tokens), id) && AnswerIsTheRuns([], Init(tokens), c, id)
    ensures StreamIsTheRuns([], Init(tokens), id) && TaskIsTheRuns([], Init(tokens), c, id)
  {
  }
}
