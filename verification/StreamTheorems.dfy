/** What every run of the tunnel guarantees about WebSocket streams, agent registrations and the links. */
module StreamTheorems {
  import opened Prelude
  import opened Frame
  import opened Messages
  import opened RelayState
  import opened WsTunnel
  import opened System
  import opened Views
  import opened Invariants
  import opened Theorems
  import opened StreamLocal
  import RequestSteps
  import StreamSteps
  import RegistrySteps
  import WireSteps
  import Frames
  import Agent
  import Session
  import SharedState

  // ---- WebSocket messages, from the local server to the client ----

  lemma {:induction false} WsEventsOfUps(ack: UpEvent, evs: seq<WsEvent>, n: nat)
    requires ack.UAck? && n <= |evs| + 1
    ensures WsEvents(([ack] + WsUps(evs))[..n]) == if n <= 1 then [] else evs[..n - 1]
    decreases n
  {
    hide WsEvents;
    var all := [ack] + WsUps(evs);
    if n == 0 {
      OneEvent(ack);
      assert all[..0] == [];
    } else {
      WsEventsOfUps(ack, evs, n - 1);
      assert all[..n] == all[..n - 1] + [all[n - 1]];
      WsEventsSnoc(all[..n - 1], all[n - 1]);
      if n > 1 {
        assert all[n - 1] == UWs(evs[n - 2]);
      }
    }
  }

  /** What the agent's task has said of the stream, if there is a task. */
  function TaskTalk(task: Option<WsTask>): seq<WsEvent> {
    if task.Some? && task.value.ack.Some? then Talk(task.value.said, task.value.closing) else []
  }

  lemma HeardIsSaid(x: Uuid, at: WsAt)
    requires TaskSide(x, at) && at.traffic.got <= at.traffic.up
    ensures WsEvents(at.traffic.got) <= TaskTalk(at.task)
  {
    hide WsEvents, InputOk;
    var n := |at.traffic.got|;
    assert at.traffic.got == at.traffic.up[..n];
    if n == 0 || at.task.None? {
      if n > 0 {
        assert at.traffic.got == [at.traffic.up[0]];
        OneEvent(at.traffic.up[0]);
      } else {
        OneEvent(UAck(SharedState.DisconnectAck()));
      }
    } else {
      var t := at.task.value;
      WsEventsOfUps(UAck(t.ack.value), TaskTalk(at.task), n);
    }
  }

  /** `given` is a contiguous run of `talk` from `missed` on, or such a run cut short by the close that an
      eviction sends. */
  predicate RunOf(given: seq<WsEvent>, talk: seq<WsEvent>, missed: nat, evicted: bool) {
    || (missed + |given| <= |talk| && given == talk[missed..missed + |given|])
    || (evicted && given != [] && missed + |given| - 1 <= |talk|
        && given == talk[missed..missed + |given| - 1] + [SharedState.DisconnectClose()])
  }

  lemma TakenIsRun(x: Uuid, w: Str, h: WsHere, at: WsAt)
    requires EventsOk(x, w, h, at) && h.chan.Some? && WsEvents(at.traffic.got) <= TaskTalk(at.task)
    ensures h.chan.value.taken <= |h.chan.value.sent|
    ensures RunOf(h.chan.value.sent[..h.chan.value.taken], TaskTalk(at.task), w.missed, w.evicted)
    ensures forall i | 0 <= i < h.chan.value.taken - 1 :: h.chan.value.sent[i].WsFrame?
  {
    hide WsEvents, WsIntact, AllFrames;
    var q, talk := h.chan.value, TaskTalk(at.task);
    var heard := WsEvents(at.traffic.got)[w.missed..];
    var given := q.sent[..q.taken];
    assert heard <= talk[w.missed..];
    if given <= heard {
      assert given == talk[w.missed..w.missed + |given|];
    } else {
      assert w.evicted;
      assert given == q.sent && q.sent == heard + [SharedState.DisconnectClose()];
      assert heard == talk[w.missed..w.missed + |heard|];
    }
  }

  /** Message `i` that the client was given: a message of the local server, at its place; or, after the last of
      those, what tells how the local server's socket ended, a close with its own code and reason; or the
      close that tells of a disconnect. Nothing follows either close. */
  ghost predicate ClientSees(w: Str, task: Option<WsTask>, i: nat)
    requires i < |w.delivered| && (task.Some? ==> task.value.said <= task.value.heard)
  {
    || (task.Some? && w.missed + i < |task.value.said| && w.delivered[i] == task.value.heard[w.missed + i])
    || (task.Some? && task.value.hangup.Some? && i == |w.delivered| - 1 && w.missed + i == |task.value.said|
        && w.delivered[i] ==
           match task.value.hangup.value
           case ByClose(code, reason) => if code.Some? then MClose(code, reason) else MClose(Some(1000), "closed")
           case ByEnd => MClose(Some(1000), "local ws ended")
           case ByError(error) => MClose(Some(1011), "local ws read error: " + error))
    || (w.evicted && i == |w.delivered| - 1 && w.delivered[i] == MClose(Some(1011), "agent disconnected"))
  }

  /** The same for message `i` that the local server was given. */
  ghost predicate LocalSees(t: WsTask, w: Str, i: nat)
    requires i < |t.delivered| && w.said <= w.heard
  {
    || (t.missed + i < |w.said| && t.delivered[i] == w.heard[t.missed + i])
    || (w.hangup.Some? && i == |t.delivered| - 1 && t.missed + i == |w.said|
        && t.delivered[i] ==
           match w.hangup.value
           case ByClose(code, reason) => if code.Some? then MClose(code, reason) else MClose(Some(1000), "")
           case ByEnd => MClose(Some(1000), "client socket ended")
           case ByError(error) => MClose(Some(1011), "client ws read error: " + error))
  }

  /** End to end, to the client: what it has been given comes from a run of what the agent's task said, in
      order, with nothing left out, altered or repeated inside it; where the run starts is the number of
      frames the session had handled when the relay added the stream. What the task said is what the local
      server said, from the first message on, so the data messages are the local server's own, byte for
      byte, and the close after them has its own code and reason. */
  lemma ClientFidelity(tokens: set<string>, steps: seq<Label>, s: Sys, x: Uuid)
    requires Reaches(tokens, steps, s) && x in s.strs
    ensures s.strs[x].conn in s.conns
    ensures var w, task := s.strs[x], Get(s.conns[s.strs[x].conn].tasks, x);
            && (x !in s.relay.ws.queues ==> w.delivered == [])
            && (x in s.relay.ws.queues ==>
                  var q := s.relay.ws.queues[x];
                  && q.taken <= |q.sent| && RunOf(q.sent[..q.taken], TaskTalk(task), w.missed, w.evicted)
                  && w.delivered <= ToClients(q.sent[..q.taken]))
            && (task.Some? ==> SaysInOrder(task.value.said, task.value.heard, task.value.pc.TaskServing?))
            && forall i | 0 <= i < |w.delivered| :: ClientSees(w, task, i)
  {
    hide WsLocal, WireInv, RegInv, HttpInv, Inv, Reaches, UpFor, DownFor, WsEvents, Run;
    Reached(tokens, steps, s);
    StreamSteps.StreamNow(s, x);
    var w, h := s.strs[x], HereOf(s, x);
    var k := s.conns[w.conn];
    var at := WsOf(k, x);
    RequestSteps.LinksAt(s, w.conn);
    TrafficPrefix(k, WsId(x));
    GivenIsRun(x, w, h, at);
  }

  /** What is sent on is what was heard, from the first, and all of it while the loop runs. */
  predicate SaysInOrder(said: seq<WsMessage>, heard: seq<WsMessage>, serving: bool) {
    said <= heard && (serving ==> said == heard)
  }

  lemma TaskSaysInOrder(x: Uuid, at: WsAt)
    requires TaskSide(x, at) && at.task.Some?
    ensures SaysInOrder(at.task.value.said, at.task.value.heard, at.task.value.pc.TaskServing?)
  {
    hide InputOk;
  }

  lemma GivenIsRun(x: Uuid, w: Str, h: WsHere, at: WsAt)
    requires WsLocal(x, w, h, at) && at.traffic.got <= at.traffic.up
    ensures h.chan.None? ==> w.delivered == []
    ensures h.chan.Some? ==>
              var q := h.chan.value;
              && q.taken <= |q.sent| && RunOf(q.sent[..q.taken], TaskTalk(at.task), w.missed, w.evicted)
              && w.delivered <= ToClients(q.sent[..q.taken])
    ensures at.task.Some? ==> SaysInOrder(at.task.value.said, at.task.value.heard, at.task.value.pc.TaskServing?)
    ensures forall i | 0 <= i < |w.delivered| :: ClientSees(w, at.task, i)
  {
    hide StrOk, ShotOk, EventsOk, TaskSide, DeliveredOk, WsEvents, RunOf, ClientSees;
    HeardIsSaid(x, at);
    GivenFrom(w, h.chan);
    if at.task.Some? {
      TaskSaysInOrder(x, at);
    }
    if h.chan.Some? {
      TakenIsRun(x, w, h, at);
      ComesThrough(x, w, at, h.chan.value.sent[..h.chan.value.taken]);
    }
  }

  lemma GivenFrom(w: Str, chan: Option<Queue<WsEvent>>)
    requires DeliveredOk(w, chan)
    ensures chan.None? ==> w.delivered == []
    ensures chan.Some? ==>
              && chan.value.taken <= |chan.value.sent|
              && w.delivered <= ToClients(chan.value.sent[..chan.value.taken])
  {
  }

  lemma ComesThrough(x: Uuid, w: Str, at: WsAt, given: seq<WsEvent>)
    requires TaskSide(x, at) && RunOf(given, TaskTalk(at.task), w.missed, w.evicted)
    requires w.delivered <= ToClients(given) && forall i | 0 <= i < |given| - 1 :: given[i].WsFrame?
    ensures at.task.Some? ==> at.task.value.said <= at.task.value.heard
    ensures forall i | 0 <= i < |w.delivered| :: ClientSees(w, at.task, i)
  {
    hide InputOk, RunOf, ToClient, EventFor;
    var talk := TaskTalk(at.task);
    forall i | 0 <= i < |w.delivered| ensures ClientSees(w, at.task, i) {
      RunAt(given, talk, w.missed, w.evicted, i);
      if given[i] == SharedState.DisconnectClose() && w.evicted && i == |given| - 1 {
        ClosesFor(given[i].code, given[i].reason, []);
      } else if w.missed + i < |at.task.value.said| {
        assert talk[w.missed + i] == EventFor(at.task.value.said[w.missed + i]);
        DataUnaltered(at.task.value.said[w.missed + i]);
      } else {
        HangupSeen(at.task.value.hangup.value);
      }
    }
  }

  lemma RunAt(given: seq<WsEvent>, talk: seq<WsEvent>, missed: nat, evicted: bool, i: nat)
    requires RunOf(given, talk, missed, evicted) && i < |given|
    ensures
      || (missed + i < |talk| && given[i] == talk[missed + i])
      || (evicted && i == |given| - 1 && given[i] == SharedState.DisconnectClose())
  {
  }

  /** The other end sees how a socket ended. */
  lemma HangupSeen(hangup: Hangup)
    ensures ToClient(HangupEvent(LocalSide, hangup)) ==
            match hangup
            case ByClose(code, reason) => if code.Some? then MClose(code, reason) else MClose(Some(1000), "closed")
            case ByEnd => MClose(Some(1000), "local ws ended")
            case ByError(error) => MClose(Some(1011), "local ws read error: " + error)
    ensures ToLocal(HangupEvent(ClientSide, hangup)) ==
            match hangup
            case ByClose(code, reason) => if code.Some? then MClose(code, reason) else MClose(Some(1000), "")
            case ByEnd => MClose(Some(1000), "client socket ended")
            case ByError(error) => MClose(Some(1011), "client ws read error: " + error)
  {
  }

  // ---- WebSocket messages, from the client to the local server ----

  lemma {:induction false} DownWsOfCalled(connect: DownEvent, evs: seq<WsEvent>, n: nat)
    requires connect.DConnect? && n <= |evs| + 1
    ensures DownWs(([connect] + WsDowns(evs))[..n]) == if n <= 1 then [] else evs[..n - 1]
    decreases n
  {
    hide DownWs;
    var all := [connect] + WsDowns(evs);
    if n == 0 {
      DownWsSnoc([], connect);
      assert all[..0] == [];
    } else {
      DownWsOfCalled(connect, evs, n - 1);
      assert all[..n] == all[..n - 1] + [all[n - 1]];
      DownWsSnoc(all[..n - 1], all[n - 1]);
      if n == 1 {
        DownWsSnoc([], connect);
        assert all[..0] == [];
      } else {
        assert all[n - 1] == DWs(evs[n - 2]);
      }
    }
  }

  lemma CalledIsSaid(w: Str, at: WsAt)
    requires StrOk(w) && at.traffic.down == Called(w) && at.traffic.downGot <= at.traffic.down
    ensures DownWs(at.traffic.downGot) <= Talk(w.said, w.closing)
  {
    hide DownWs;
    var n := |at.traffic.downGot|;
    if w.connect.Some? {
      assert at.traffic.downGot == Called(w)[..n];
      DownWsOfCalled(w.connect.value, Talk(w.said, w.closing), n);
    } else {
      DownWsSnoc([], DEnd);
    }
  }

  lemma LocalIsRun(x: Uuid, w: Str, h: WsHere, at: WsAt)
    requires WsLocal(x, w, h, at) && at.traffic.downGot <= at.traffic.down && at.task.Some?
    ensures var t, talk := at.task.value, Talk(w.said, w.closing);
            && (at.input.None? ==> t.delivered == [])
            && (at.input.Some? ==> t.missed <= |talk| && t.delivered <= ToLocals(talk[t.missed..]))
    ensures SaysInOrder(w.said, w.heard, w.pc.Serving?)
    ensures forall i | 0 <= i < |at.task.value.delivered| :: LocalSees(at.task.value, w, i)
  {
    hide ShotOk, EventsOk, DeliveredOk, DownWs, TaskOk, Replied;
    CalledIsSaid(w, at);
    var t, talk := at.task.value, Talk(w.said, w.closing);
    if at.input.Some? {
      var q, heard := at.input.value, DownWs(at.traffic.downGot);
      assert q.sent[..q.taken] <= talk[t.missed..];
      forall i | 0 <= i < |t.delivered| ensures LocalSees(t, w, i) {
        if t.missed + i < |w.said| {
          assert talk[t.missed + i] == EventFor(w.said[t.missed + i]);
          DataUnaltered(w.said[t.missed + i]);
        } else {
          HangupSeen(w.hangup.value);
        }
      }
    }
  }

  /** End to end, to the local server: what it has been given is a contiguous run of what the client's task
      at the relay said, from the number of frames the reader had dropped when the task began to listen.
      What that task said is what the client said, from the first message on, so the data messages are the
      client's own, byte for byte, and the close after them has its own code and reason. */
  lemma LocalFidelity(tokens: set<string>, steps: seq<Label>, s: Sys, c: nat, x: Uuid)
    requires Reaches(tokens, steps, s) && TaskAt(s, c, x)
    ensures x in s.strs && s.strs[x].conn == c
    ensures var w, t := s.strs[x], s.conns[c].tasks[x];
            && (t.delivered != [] ==> t.missed <= |Talk(w.said, w.closing)|
                                      && t.delivered <= ToLocals(Talk(w.said, w.closing)[t.missed..]))
            && SaysInOrder(w.said, w.heard, w.pc.Serving?)
            && forall i | 0 <= i < |t.delivered| :: LocalSees(t, w, i)
  {
    hide WsLocal, WireInv, RegInv, HttpInv, WsInv, Inv, Reaches, UpFor, DownFor, DownWs, Run, TaskOk;
    Reached(tokens, steps, s);
    StreamSteps.TaskHere(s, c, x);
    StreamSteps.StreamNow(s, x);
    TrafficPrefix(s.conns[c], WsId(x));
    LocalIsRun(x, s.strs[x], HereOf(s, x), WsOf(s.conns[c], x));
  }

  // ---- the handshake ----

  /** A prefix of `WsConnect Frame* WsClose`. */
  predicate CallShape(evs: seq<DownEvent>) {
    && (forall i | 0 <= i < |evs| :: if i == 0 then evs[i].DConnect? else evs[i].DWs?)
    && (forall i | 1 <= i < |evs| - 1 :: evs[i].ws.WsFrame?)
  }

  /** Handshake agreement: a stream is acked at most once, before anything else is said of it, and only on
      its own connection; its one-shot is used at most once, by the ack, the disconnect or the removal;
      the relay says `WsConnect Frame* WsClose`, and no frame or close before the agent has said `ok`. */
  lemma Handshake(tokens: set<string>, steps: seq<Label>, s: Sys, c: nat, x: Uuid)
    requires Reaches(tokens, steps, s) && c in s.conns
    ensures var up, down := UpFor(WsId(x), s.conns[c].up.sent), DownFor(WsId(x), s.conns[c].down.sent);
            && (forall i | 0 <= i < |up| :: up[i].UAck? <==> i == 0)
            && CallShape(down)
            && (up != [] || down != [] ==> x in s.strs && s.strs[x].conn == c)
            && (|down| > 1 ==>
                  && up != [] && up[0].UAck? && up[0].ack.ok
                  && Get(s.relay.acks.shots, x) == Some([Acked(up[0].ack)]))
    ensures x in s.relay.acks.shots ==> |s.relay.acks.shots[x]| <= 1
    ensures x in s.relay.acks.entries ==> Get(s.relay.acks.shots, x) == Some([])
  {
    hide WsLocal, WireInv, RegInv, HttpInv, Inv, Reaches, UpFor, DownFor, Run;
    Reached(tokens, steps, s);
    assert WsOk(s, x, c);
    if x in s.strs {
      var k := s.conns[s.strs[x].conn];
      StreamSteps.StreamNow(s, x);
      RequestSteps.LinksAt(s, s.strs[x].conn);
      TrafficPrefix(k, WsId(x));
      Shapes(x, s.strs[x], HereOf(s, x), WsOf(k, x));
    } else {
      assert HereOf(s, x) == NOWHERE;
    }
  }

  lemma Shapes(x: Uuid, w: Str, h: WsHere, at: WsAt)
    requires WsLocal(x, w, h, at) && at.traffic.got <= at.traffic.up
    ensures forall i | 0 <= i < |at.traffic.up| :: at.traffic.up[i].UAck? <==> i == 0
    ensures CallShape(at.traffic.down)
    ensures |at.traffic.down| > 1 ==>
              && at.traffic.up != [] && at.traffic.up[0].UAck? && at.traffic.up[0].ack.ok
              && h.shot == Some([Acked(at.traffic.up[0].ack)])
    ensures h.shot.Some? ==> |h.shot.value| <= 1
    ensures h.pend.Some? ==> h.shot == Some([])
  {
    hide EventsOk, DeliveredOk, InputOk;
    AckComesFirst(x, at);
    if |at.traffic.down| > 1 {
      assert h.shot.value == [h.shot.value[0]];
    }
  }

  /** The stream an agent's task opens at its local server is the client's: its path, headers and subprotocols. */
  lemma LocalConnectIsTheClients(tokens: set<string>, steps: seq<Label>, s: Sys, c: nat, x: Uuid)
    requires Reaches(tokens, steps, s) && TaskAt(s, c, x)
    ensures x in s.strs && s.strs[x].conn == c && s.strs[x].connect == Some(s.conns[c].tasks[x].asked)
  {
    hide WsLocal, WireInv, RegInv, HttpInv, WsInv, Inv, Reaches, UpFor, DownFor, Run, TaskOk;
    Reached(tokens, steps, s);
    StreamSteps.TaskHere(s, c, x);
    StreamSteps.StreamNow(s, x);
    TrafficPrefix(s.conns[c], WsId(x));
    CalledFirst(x, s.strs[x], HereOf(s, x), WsOf(s.conns[c], x));
  }

  lemma CalledFirst(x: Uuid, w: Str, h: WsHere, at: WsAt)
    requires WsLocal(x, w, h, at) && at.traffic.downGot <= at.traffic.down && at.task.Some?
    ensures w.connect == Some(at.task.value.asked)
  {
    hide ShotOk, EventsOk, DeliveredOk, TaskOk, InputOk;
  }

  /** Stream lifecycle: an entry of ws_streams is that of a task that has added it and not yet removed it, and
      leads to its channel; an entry of ws_pending outlives its task only if the upgrade was lost, which is
      before the stream was added. */
  lemma StreamLifecycle(tokens: set<string>, steps: seq<Label>, s: Sys, x: Uuid)
    requires Reaches(tokens, steps, s)
    ensures x in s.relay.ws.entries ==>
              && x in s.strs && Listening(s.strs[x].pc)
              && s.relay.ws.entries[x] == WsStreamHandle(s.strs[x].tunnel, x) && s.relay.ws.Open(x)
    ensures x in s.relay.acks.entries ==>
              && x in s.strs && s.relay.acks.entries[x] == WsPending(s.strs[x].tunnel, x)
              && !s.strs[x].pc.Beginning? && !s.strs[x].pc.Leaving?
              && (s.strs[x].pc.StrDone? ==> s.strs[x].connect.Some? && x !in s.relay.ws.queues)
  {
    hide WsLocal, WsInv, WsOf, WireInv, RegInv, HttpInv, Inv, Reaches, Run;
    Reached(tokens, steps, s);
    if HereOf(s, x) != NOWHERE {
      StreamSteps.InStrs(s, x);
      StreamSteps.StreamNow(s, x);
      Entries(x, s.strs[x], HereOf(s, x), WsOf(s.conns[s.strs[x].conn], x));
    }
  }

  lemma Entries(x: Uuid, w: Str, h: WsHere, at: WsAt)
    requires WsLocal(x, w, h, at)
    ensures h.entry.Some? ==>
              && h.entry.value == WsStreamHandle(w.tunnel, x) && Listening(w.pc) && h.chan.Some? && h.chan.value.open
    ensures h.pend.Some? ==>
              && h.pend.value == WsPending(w.tunnel, x) && !w.pc.Beginning? && !w.pc.Leaving?
              && (w.pc.StrDone? ==> w.connect.Some? && h.chan.None?)
  {
    hide TaskSide, DeliveredOk, WsIntact, AllFrames;
  }

  /** An ack takes the pending entry out with the first operation on it, so one that was left behind goes with
      the ack, if not with a clean-up. */
  lemma AckForgets(tokens: set<string>, steps: seq<Label>, s: Sys, c: nat, x: Uuid, s': Sys)
    requires Reaches(tokens, steps, s) && SessionStep(s, c) == Some(s')
    requires s.conns[c].job.t == WsId(x) && s.conns[c].job.todo[0].UAck?
    ensures x !in s'.relay.acks.entries
  {
    hide WsLocal, WsInv, WireInv, RegInv, HttpInv, Inv, Reaches, Run, UpFor, DownFor, HttpBoard.Step, WsBoard.Step;
    Reached(tokens, steps, s);
    StreamSteps.StreamJob(s, c);
    StreamSteps.StreamNow(s, x);
    OneToken(x, s.strs[x], HereOf(s, x), WsOf(s.conns[c], x));
    TwoStages(s, c);
  }

  lemma TwoStages(s: Sys, c: nat)
    requires WireInv(s) && c in s.conns && s.conns[c].job.Job?
    ensures var j := s.conns[c].job;
            && j.todo != [] && !j.stage.Over? && (j.todo[0].UAck? ==> j.stage.Fresh? || j.stage.HaveSender?)
  {
    assert ConnOk(s.conns[c]);
  }

  lemma OneToken(x: Uuid, w: Str, h: WsHere, at: WsAt)
    requires WsLocal(x, w, h, at) && at.traffic.todo != [] && at.traffic.todo[0].UAck?
    ensures at.traffic.stage.HaveSender? ==> h.pend.None?
  {
    hide TaskSide, DeliveredOk, WsIntact, AllFrames;
  }

  // ---- registrations ----

  /** Tunnel ownership: the registry's keys are exactly the tunnels of the sessions between their insertion
      and their removal, each under its own connection id; no two such sessions share a tunnel. */
  lemma TunnelOwnership(tokens: set<string>, steps: seq<Label>, s: Sys)
    requires Reaches(tokens, steps, s)
    ensures forall t :: t in s.relay.agents <==> exists c <- s.conns :: Owning(s.conns[c]) && s.conns[c].tunnel == t
    ensures forall c <- s.conns :: Owning(s.conns[c]) ==>
              && s.conns[c].tunnel in s.relay.agents
              && s.relay.agents[s.conns[c].tunnel].sender == c
              && s.relay.agents[s.conns[c].tunnel].connectionId == s.conns[c].id
    ensures forall c, d | c in s.conns && d in s.conns && Owning(s.conns[c]) && Owning(s.conns[d])
                          && s.conns[c].tunnel == s.conns[d].tunnel :: c == d
  {
    hide Inv, WireInv, HttpInv, WsInv, Reaches, Run, EpochsInv, LatestInv, RoutesInv, LockInv,
      SharedState.IsValidTunnelId;
    Reached(tokens, steps, s);
  }

  /** Every entry passed the gate: a valid tunnel id, a known token, and a version both ends speak, which
      is 1 if the agent named none. */
  lemma EntriesPassedTheGate(tokens: set<string>, steps: seq<Label>, s: Sys, t: string)
    requires Reaches(tokens, steps, s) && t in s.relay.agents
    ensures SharedState.IsValidTunnelId(t)
    ensures s.relay.agents[t].sender in s.conns
    ensures var h := s.relay.agents[t]; var k := s.conns[h.sender];
            && k.up.sent != [] && k.up.sent[0].Text? && k.up.sent[0].msg.RegisterAgent?
            && var reg := k.up.sent[0].msg;
               && reg.tunnelId == t && reg.token in tokens
               && h.protocolVersion == reg.protocolVersion.GetOr(1) && h.protocolVersion in {1, 2}
  {
    hide Inv, WireInv, HttpInv, WsInv, EpochsInv, LatestInv, RoutesInv, OwnersInv, LockInv, Run;
    Reached(tokens, steps, s);
    Frames.RunTokens(tokens, steps);
  }

  /** The guard of `remove_agent_if` never fails for a session whose loop ends. */
  lemma LeavingRemovesItsOwn(tokens: set<string>, steps: seq<Label>, s: Sys, c: nat)
    requires Reaches(tokens, steps, s) && SessionLeave(s, c).Some?
    ensures var s' := SessionLeave(s, c).value; var k := s.conns[c];
            && k.tunnel in s.relay.agents && s'.relay.agents == s.relay.agents - {k.tunnel}
            && s'.lock == Held(c, SweepOf(s, k.tunnel), NoEvict) && s'.conns[c].session.Cleaning?
  {
    hide Inv, WireInv, RegInv, HttpInv, WsInv, Reaches, Run;
    Reached(tokens, steps, s);
    RegistrySteps.GuardHolds(s, c);
  }

  /** Disconnect clean-up over all runs: whatever a session that cleans up takes out of either WebSocket
      map belongs to its own tunnel, was opened under a registration no later than its own, and is on a
      session that has ended; of all other streams it leaves every slot as it was. */
  lemma EvictionIsOfThePast(tokens: set<string>, steps: seq<Label>, s: Sys, c: nat, x: Uuid, s': Sys)
    requires Reaches(tokens, steps, s)
    requires
      || (EvictPending(s, c, x) == Some(s') && x in s.relay.acks.entries)
      || (EvictStreamEntry(s, c, x) == Some(s') && x in s.relay.ws.entries)
    ensures x in s.strs && s.strs[x].conn in s.conns && s.strs[x].tunnel == s.conns[c].tunnel
    ensures s.conns[s.strs[x].conn].epoch <= s.conns[c].epoch && HasLeft(s.conns[s.strs[x].conn])
    ensures forall y: Uuid | y != x :: HereOf(s', y) == HereOf(s, y)
    ensures s'.conns == s.conns && s'.reqs == s.reqs && s'.relay.agents == s.relay.agents
            && s'.relay.http == s.relay.http
  {
    hide Inv, WireInv, RegInv, HttpInv, WsInv, WsLocal, Reaches, Run;
    Reached(tokens, steps, s);
    StreamSteps.FoundIsOwn(s, c, x);
    StreamSteps.EvictedIsOver(s, c, x);
    StreamSteps.OverIsView(s.conns[s.strs[x].conn], x);
    NotLater(s, c, x);
  }

  /** The sender that was taken out is used once, on its own stream alone: a pending stream is told the
      disconnect as its one ack, a stream that still listens gets one close. */
  lemma EvictionTellsItsOwn(tokens: set<string>, steps: seq<Label>, s: Sys, c: nat, s': Sys)
    requires Reaches(tokens, steps, s) && EvictSend(s, c) == Some(s')
    ensures s.lock.Held? && !s.lock.evicting.NoEvict?
    ensures var x := s.lock.evicting.x;
            && (forall y: Uuid | y != x :: HereOf(s', y) == HereOf(s, y))
            && (s.lock.evicting.EvictAck? ==>
                  Get(s'.relay.acks.shots, x) == Some([Acked(Ack(false, None, Some("agent disconnected")))])
                    && s'.relay.ws == s.relay.ws)
            && (s.lock.evicting.EvictStream? ==>
                  && x in s.relay.ws.queues && s'.relay.acks == s.relay.acks
                  && var q := s.relay.ws.queues[x];
                     Get(s'.relay.ws.queues, x) ==
                     Some(if q.open then q.(sent := q.sent + [WsEnd(Some(1011), Some("agent disconnected"))]) else q))
    ensures s'.conns == s.conns && s'.reqs == s.reqs && s'.strs == s.strs
    ensures s'.relay.agents == s.relay.agents && s'.relay.http == s.relay.http
  {
    hide Inv, WireInv, RegInv, HttpInv, WsInv, WsLocal, WsOf, Reaches, Run;
    Reached(tokens, steps, s);
    var x := s.lock.evicting.x;
    StreamSteps.InStrs(s, x);
    StreamSteps.StreamNow(s, x);
    OwnEviction(x, s.strs[x], HereOf(s, x), WsOf(s.conns[s.strs[x].conn], x));
    var told := Acked(SharedState.DisconnectAck());
    assert [] + [told] == [told];
  }

  lemma OwnEviction(x: Uuid, w: Str, h: WsHere, at: WsAt)
    requires WsLocal(x, w, h, at)
    ensures h.evict.EvictAck? ==> h.evict.tx == x && h.shot == Some([])
    ensures h.evict.EvictStream? ==> h.evict.chan == x && h.chan.Some?
  {
  }

  lemma NotLater(s: Sys, c: nat, x: Uuid)
    requires RegInv(s) && Sweeping(s, c) && x in s.strs && s.strs[x].tunnel == s.conns[c].tunnel
    ensures s.strs[x].conn in s.conns && s.conns[s.strs[x].conn].epoch <= s.conns[c].epoch
  {
    hide EpochsInv, EntriesInv, OwnersInv;
  }

  // ---- the links ----

  /** Negotiation makes decoding total: on any link of any run, every binary frame after the registration
      carries the negotiated version, decodes, and is of a kind, and with an opcode, that the end it goes to
      expects. The relay speaks the version the connection registered with, 1 if it named none, and the agent
      the one that the relay acked. The relay sends nothing in binary first, an agent that runs has read an
      accepting ack first, and of all that comes after that it ignores only pongs. */
  lemma DecodingIsTotal(tokens: set<string>, steps: seq<Label>, s: Sys, c: nat, i: nat)
    requires Reaches(tokens, steps, s) && c in s.conns
    ensures s.conns[c].up.sent != [] && s.conns[c].up.sent[0].Text? && s.conns[c].up.sent[0].msg.RegisterAgent?
    ensures 1 <= i < |s.conns[c].up.sent| && s.conns[c].up.sent[i].Binary? ==>
              var bytes := s.conns[c].up.sent[i].bytes;
              var d := DecodeFrame(bytes);
              && d.Ok?
              && (d.value.0.kind.ResponseBody? || (d.value.0.kind.WsLocalFrame? && DecodeWsPayload(d.value.1).Ok?))
              && (forall m: Wire | m in s.conns[c].down.sent && m.Text? && m.msg.RegisterAck? ::
                    bytes[0] == m.msg.protocolVersion.GetOr(1))
    ensures i < |s.conns[c].down.sent| && s.conns[c].down.sent[i].Binary? ==>
              var bytes := s.conns[c].down.sent[i].bytes;
              var d := DecodeFrame(bytes);
              && d.Ok? && bytes[0] == s.conns[c].up.sent[0].msg.protocolVersion.GetOr(1)
              && (d.value.0.kind.RequestBody? || (d.value.0.kind.WsClientFrame? && DecodeWsPayload(d.value.1).Ok?))
    ensures 1 <= i < |s.conns[c].up.sent| ==>
              var m := s.conns[c].up.sent[i]; UpOf(m) == [] ==> m.Text? && (m.msg.Ping? || m.msg.Pong?)
    ensures i < |s.conns[c].down.sent| ==>
              var m := s.conns[c].down.sent[i]; DownOf(m) == [] ==> m.Text? && (m.msg.RegisterAck? || m.msg.Pong?)
    ensures s.conns[c].down.sent != [] ==> s.conns[c].down.sent[0].Text?
    ensures s.conns[c].agent.Running? ==>
              && s.conns[c].down.sent != [] && IsAck(s.conns[c].down.sent[0]) && s.conns[c].down.sent[0].msg.ok
              && forall j | 1 <= j < |s.conns[c].down.sent| && DownOf(s.conns[c].down.sent[j]) == [] ::
                   s.conns[c].down.sent[j].Text? && s.conns[c].down.sent[j].msg.Pong?
  {
    hide Inv, RegInv, HttpInv, WsInv, Reaches, JobFits, Run;
    Reached(tokens, steps, s);
    assert ConnOk(s.conns[c]);
  }

  /** Only an agent that was let in runs, and every connection is told the truth: an ack on the link says `ok`
      exactly if the session has registered the agent, whose registration then names a valid tunnel id, a
      known token, and a supported version if any. */
  lemma OnlyAdmittedRun(tokens: set<string>, steps: seq<Label>, s: Sys, c: nat)
    requires Reaches(tokens, steps, s) && c in s.conns
    ensures s.conns[c].agent.Running? ==> s.conns[c].epoch > 0
    ensures forall i | 0 <= i < |s.conns[c].down.sent| && IsAck(s.conns[c].down.sent[i]) ::
              s.conns[c].down.sent[i].msg.ok <==> s.conns[c].epoch > 0
    ensures s.conns[c].epoch > 0 ==>
              && s.conns[c].up.sent != [] && s.conns[c].up.sent[0].Text? && s.conns[c].up.sent[0].msg.RegisterAgent?
              && var reg := s.conns[c].up.sent[0].msg;
                 && SharedState.IsValidTunnelId(reg.tunnelId) && reg.token in tokens
                 && reg.protocolVersion in {None, Some(1), Some(2)}
  {
    hide Inv, RegInv, HttpInv, WsInv, Run, JobFits, UpHonest, DownHonest, SharedState.IsValidTunnelId, Session.Gate;
    Reached(tokens, steps, s);
    assert ConnOk(s.conns[c]);
    Frames.RunAdmits(tokens, steps, c);
    if s.conns[c].epoch > 0 {
      Session.GateMeaning(tokens, Some(s.conns[c].up.sent[0].msg));
    }
  }

  /** An accepted agent joins if and only if the relay had put nothing on its link before the ack; otherwise
      the first message it reads is that of a request or stream, and it stops. */
  lemma JoinsIffNothingBefore(tokens: set<string>, steps: seq<Label>, s: Sys, c: nat, later: seq<Label>, s2: Sys,
                              s3: Sys)
    requires Reaches(tokens, steps, s) && SessionAck(s, c).Some? && s.conns[c].down.open
    requires Reaches(tokens, steps + [OfSession(c, Acknowledge)] + later, s2) && AgentJoin(s2, c) == Some(s3)
    ensures s.conns[c].down.sent == [] ==> s3.conns[c].agent.Running?
    ensures s.conns[c].down.sent != [] ==> s3.conns[c].agent.Stopped?
  {
    hide Inv, RegInv, HttpInv, WsInv, Agent.JoinFrom, Session.AckFor, Reaches, Run, ConnOk, Next;
    Reached(tokens, steps, s);
    Reached(tokens, steps + [OfSession(c, Acknowledge)] + later, s2);
    AckStays(tokens, steps, s, c, later, s2);
    WireSteps.NotAckedYet(s.conns[c]);
    JoinsFirst(s2.conns[c]);
    FirstRead(s.conns[c].down.sent, Text(Session.AckFor(true, None)));
  }

  lemma AckStays(tokens: set<string>, steps: seq<Label>, s: Sys, c: nat, later: seq<Label>, s2: Sys)
    requires Reaches(tokens, steps, s) && SessionAck(s, c).Some? && s.conns[c].down.open
    requires Reaches(tokens, steps + [OfSession(c, Acknowledge)] + later, s2)
    ensures c in s2.conns
    ensures s.conns[c].down.sent + [Text(Session.AckFor(true, None))] <= s2.conns[c].down.sent
  {
    hide Session.AckFor;
    var steps1 := steps + [OfSession(c, Acknowledge)];
    assert steps1[..|steps|] == steps;
    Frames.RunGrows(tokens, steps1, later, c);
    assert Run(tokens, steps1) == SessionAck(s, c);
  }

  lemma JoinsFirst(k: Conn)
    requires ConnOk(k) && k.agent.Joining?
    ensures k.down.got == 0
  {
  }

  lemma FirstRead(log: seq<Wire>, ack: Wire)
    requires NoAck(log) && ack == Text(Session.AckFor(true, None))
    ensures Agent.JoinFrom(Some((log + [ack])[0])).Some? <==> log == []
  {
  }
}
