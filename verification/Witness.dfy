/** The statements about runs are not empty: a run in which a client is given a whole response. */
module Witness {
  import opened Prelude
  import opened Frame
  import opened Messages
  import opened RelayState
  import opened Framing
  import opened System
  import opened Theorems
  import Session
  import Ingress
  import Agent

  const TUNNEL: string := "t"
  const TOKEN: string := "k"
  const ID: Uuid := [1, 1, 1, 1, 1, 1, 1, 1, 1, 1, 1, 1, 1, 1, 1, 1]
  const CHUNK: Bytes := [7]

  function Registration(): Wire { Text(RegisterAgent(TUNNEL, TOKEN, None, [CAP_WS_TUNNEL_V1])) }

  function Welcome(): Wire { Text(Session.AckFor(true, None)) }

  ghost predicate Reachable(s: Sys) { exists steps :: Reaches({TOKEN}, steps, s) }

  lemma Extend(s: Sys, l: Label, s': Sys)
    requires Reachable(s) && Next(s, l) == Some(s')
    ensures Reachable(s')
  {
    hide Next;
    var steps :| Reaches({TOKEN}, steps, s);
    assert (steps + [l])[..|steps|] == steps;
    assert Reaches({TOKEN}, steps + [l], s');
  }

  /** The agent is connected, and both ends are idle. */
  ghost predicate Joined(s: Sys) {
    && s.lock.Free? && TUNNEL in s.relay.agents && s.relay.agents[TUNNEL] == AgentHandle(ID, 0, {CAP_WS_TUNNEL_V1}, 1)
    && ZERO_ID !in s.reqs && ZERO_ID !in s.strs && 0 in s.conns
    && s.conns[0] == Conn(TUNNEL, ID, 1, Live, NoJob, Link([Registration()], 1, true), Link([Welcome()], 1, true),
                          Running(2, true), Agent.AgentBoard(map[], map[], map[], map[]), map[], map[])
  }

  /** The relay has let the agent in, and the agent does not know yet. */
  ghost predicate Registered(s: Sys) {
    && s.lock.Free? && TUNNEL in s.relay.agents && s.relay.agents[TUNNEL] == AgentHandle(ID, 0, {CAP_WS_TUNNEL_V1}, 1)
    && ZERO_ID !in s.reqs && ZERO_ID !in s.strs && 0 in s.conns
    && s.conns[0] == Conn(TUNNEL, ID, 1, SessionPc.Registered, NoJob, Link([Registration()], 1, true),
                          Link([], 0, true),
                          Joining, Agent.AgentBoard(map[], map[], map[], map[]), map[], map[])
  }

  lemma Registers() returns (s: Sys)
    ensures Reachable(s) && Registered(s)
  {
    hide Session.Gate, Reachable;
    var s0 := Init({TOKEN});
    Starts(s0);
    var s1 := OpenConn(s0, 0, TUNNEL, TOKEN, None, [CAP_WS_TUNNEL_V1]).value;
    Extend(s0, OfSession(0, Connect(TUNNEL, TOKEN, None, [CAP_WS_TUNNEL_V1])), s1);
    Admitted();
    s := SessionRegister(s1, 0, ID).value;
    Extend(s1, OfSession(0, Register(ID)), s);
  }

  lemma Starts(s: Sys)
    requires s == Init({TOKEN})
    ensures Reachable(s)
  {
    hide Next;
    assert Reaches({TOKEN}, [], s);
  }

  lemma Admitted()
    ensures Session.Gate({TOKEN}, Some(Registration().msg)) == Session.Passed(TUNNEL, 1, {CAP_WS_TUNNEL_V1})
  {
    assert (set c | c in Registration().msg.capabilities) == {CAP_WS_TUNNEL_V1};
  }

  lemma Joins() returns (s: Sys)
    ensures Reachable(s) && Joined(s)
  {
    hide Reachable;
    var s0 := Registers();
    var s1 := SessionAck(s0, 0).value;
    Extend(s0, OfSession(0, Acknowledge), s1);
    s := AgentJoin(s1, 0).value;
    Extend(s1, OfAgent(0, Join), s);
  }

  function StartMessage(): Wire { Text(HttpRequestStart(ZERO_ID, "GET", "/", [])) }

  /** A request that comes between the registration and its ack sends its start first, and the agent, which
      waits for the ack, stops although the relay has let it in. */
  lemma SomeAcceptedAgentStops() returns (s: Sys)
    ensures Reachable(s) && 0 in s.conns && s.conns[0].session.Live? && TUNNEL in s.relay.agents
    ensures s.conns[0].down == Link([StartMessage(), Welcome()], 1, true) && s.conns[0].agent.Stopped?
  {
    hide Reachable;
    var s0 := Registers();
    var s1 := Arrive(s0, ZERO_ID, TUNNEL).value;
    Extend(s0, OfRequest(ZERO_ID, Arrives(TUNNEL)), s1);
    var s2 := SendStart(s1, ZERO_ID, "GET", "/", []).value;
    Extend(s1, OfRequest(ZERO_ID, SendsStart("GET", "/", [])), s2);
    var s3 := SessionAck(s2, 0).value;
    Extend(s2, OfSession(0, Acknowledge), s3);
    s := AgentJoin(s3, 0).value;
    Extend(s3, OfAgent(0, Join), s);
  }

  function EndMessage(): Wire { Text(HttpRequestEnd(ZERO_ID)) }

  /** The relay has sent the request, and waits. */
  ghost predicate Requested(s: Sys) {
    && 0 in s.conns && ZERO_ID in s.reqs
    && s.conns[0].session.Live? && s.conns[0].job.NoJob? && s.conns[0].up == Link([Registration()], 1, true)
    && s.conns[0].down == Link([Welcome(), StartMessage(), EndMessage()], 1, true)
    && s.conns[0].agent == Running(2, true) && s.conns[0].board == Agent.AgentBoard(map[], map[], map[], map[])
    && s.reqs[ZERO_ID].conn == 0 && s.reqs[ZERO_ID].pc.Awaiting? && s.reqs[ZERO_ID].loop == Ingress.Waiting([])
    && s.reqs[ZERO_ID].yielded == 0 && Get(s.relay.http.entries, ZERO_ID) == Some(ZERO_ID)
       && Get(s.relay.http.queues, ZERO_ID) == Some(NewQueue())
  }

  /** The request's start is on the link, and its entry in the map. */
  ghost predicate Begun(s: Sys) {
    && 0 in s.conns && ZERO_ID in s.reqs
    && s.conns[0].session.Live? && s.conns[0].job.NoJob? && s.conns[0].up == Link([Registration()], 1, true)
    && s.conns[0].down == Link([Welcome(), StartMessage()], 1, true)
    && s.conns[0].agent == Running(2, true) && s.conns[0].board == Agent.AgentBoard(map[], map[], map[], map[])
    && s.reqs[ZERO_ID].conn == 0 && s.reqs[ZERO_ID].pc.Uploading? && s.reqs[ZERO_ID].loop == Ingress.Waiting([])
    && s.reqs[ZERO_ID].yielded == 0 && Get(s.relay.http.entries, ZERO_ID) == Some(ZERO_ID)
    && Get(s.relay.http.queues, ZERO_ID) == Some(NewQueue())
  }

  lemma Begins() returns (s: Sys)
    ensures Reachable(s) && Begun(s)
  {
    hide Reachable, UpFor, Session.AckFor, JobOf, Relay.Step;
    var s0 := Joins();
    var s1 := Arrive(s0, ZERO_ID, TUNNEL).value;
    Extend(s0, OfRequest(ZERO_ID, Arrives(TUNNEL)), s1);
    var s2 := SendStart(s1, ZERO_ID, "GET", "/", []).value;
    Extend(s1, OfRequest(ZERO_ID, SendsStart("GET", "/", [])), s2);
    s := AddInflight(s2, ZERO_ID).value;
    Extend(s2, OfRequest(ZERO_ID, AddsEntry), s);
  }

  lemma Requests() returns (s: Sys)
    ensures Reachable(s) && Requested(s)
  {
    hide Reachable;
    var s0 := Begins();
    var s1 := UploadStops(s0, ZERO_ID, false).value;
    Extend(s0, OfRequest(ZERO_ID, StopsUpload(false)), s1);
    s := SendEnd(s1, ZERO_ID).value;
    Extend(s1, OfRequest(ZERO_ID, SendsEnd), s);
  }

  /** What the relay's side looks like while the agent answers: `log` sent up to it, `got` of that read,
      and `events` on the request's channel. */
  ghost predicate Answering(s: Sys, log: seq<Wire>, got: nat, listed: bool, events: seq<RelayEvent>) {
    && 0 in s.conns && ZERO_ID in s.reqs
    && s.conns[0].session.Live? && s.conns[0].job.NoJob? && s.conns[0].up == Link(log, got, true)
    && s.reqs[ZERO_ID].conn == 0 && s.reqs[ZERO_ID].pc.Awaiting? && s.reqs[ZERO_ID].loop == Ingress.Waiting([])
    && s.reqs[ZERO_ID].yielded == 0 && Get(s.relay.http.entries, ZERO_ID) == (if listed then Some(ZERO_ID) else None)
    && Get(s.relay.http.queues, ZERO_ID) == Some(Queue(events, 0, true))
  }

  function Log(): seq<Wire> {
    [Registration(), Text(HttpResponseStart(ZERO_ID, 200, [])), BodyFrame(ResponseBody, 2, ZERO_ID, SeqNo(0), CHUNK),
     Text(HttpResponseEnd(ZERO_ID))]
  }

  /** The agent's task runs, and nothing has been said about the request yet. */
  ghost predicate Dispatched(s: Sys) {
    && Answering(s, [Registration()], 1, true, [])
    && Get(s.conns[0].proxies, ZERO_ID) == Some(Proxy(DStart("GET", "/", []), 2, Requesting, None, [], [], None))
  }

  lemma Dispatches() returns (s: Sys)
    ensures Reachable(s) && Dispatched(s)
  {
    hide Reachable;
    var s0 := Requests();
    s := AgentRead(s0, 0).value;
    Extend(s0, OfAgent(0, Handle), s);
  }

  lemma Serves() returns (s: Sys)
    ensures Reachable(s) && Answering(s, Log(), 1, true, [])
  {
    hide Reachable, BodyFrame;
    var s0 := Dispatches();
    var s1 := LocalAnswers(s0, 0, ZERO_ID, 200, []).value;
    Extend(s0, OfLocal(0, ZERO_ID, Answers(200, [])), s1);
    var s2 := LocalChunk(s1, 0, ZERO_ID, CHUNK).value;
    Extend(s1, OfLocal(0, ZERO_ID, Produces(CHUNK)), s2);
    s := LocalEnds(s2, 0, ZERO_ID).value;
    Extend(s2, OfLocal(0, ZERO_ID, Finishes), s);
  }

  /** The session is at `stage` of handling an event. */
  ghost predicate Handling(s: Sys, log: seq<Wire>, got: nat, listed: bool, events: seq<RelayEvent>, ev: RelayEvent,
                           stage: Stage) {
    && 0 in s.conns && s.conns[0].job == Job(HttpId(ZERO_ID), [UHttp(ev)], stage)
    && Answering(s.(conns := s.conns[0 := s.conns[0].(job := NoJob)]), log, got, listed, events)
  }

  lemma Reads(s: Sys, log: seq<Wire>, got: nat, events: seq<RelayEvent>, ev: RelayEvent) returns (s': Sys)
    requires Reachable(s) && Answering(s, log, got, true, events) && got < |log|
    requires TargetOf(log[got]) == HttpId(ZERO_ID) && UpOf(log[got]) == [UHttp(ev)]
    ensures Reachable(s') && Handling(s', log, got + 1, true, events, ev, Fresh)
  {
    hide Reachable, TargetOf, UpOf;
    NotPing(log[got]);
    s' := SessionRead(s, 0).value;
    Extend(s, OfSession(0, ReadMessage), s');
  }

  lemma NotPing(m: Wire)
    requires TargetOf(m).HttpId?
    ensures !(m.Text? && m.msg.Ping?)
  {
  }

  /** The session looks the event's sender up, and sends the event on. */
  lemma Sends(s: Sys, log: seq<Wire>, got: nat, events: seq<RelayEvent>, ev: RelayEvent) returns (s': Sys)
    requires Reachable(s) && Handling(s, log, got, true, events, ev, Fresh) && |events| < 100
    ensures Reachable(s') && Answering(s', log, got, !ev.IsTerminal(), events + [ev])
  {
    hide Reachable, AckBoard.Step, WsBoard.Step;
    var s1 := SessionStep(s, 0).value;
    Extend(s, OfSession(0, HandleEvent), s1);
    s' := SessionStep(s1, 0).value;
    Extend(s1, OfSession(0, HandleEvent), s');
  }

  lemma PassesOn(s: Sys, log: seq<Wire>, got: nat, events: seq<RelayEvent>, ev: RelayEvent) returns (s': Sys)
    requires Reachable(s) && Answering(s, log, got, true, events) && got < |log| && |events| < 100
    requires TargetOf(log[got]) == HttpId(ZERO_ID) && UpOf(log[got]) == [UHttp(ev)]
    ensures Reachable(s') && Answering(s', log, got + 1, !ev.IsTerminal(), events + [ev])
  {
    hide Reachable, Answering, Handling;
    var s1 := Reads(s, log, got, events, ev);
    s' := Sends(s1, log, got + 1, events, ev);
  }

  lemma PassesAllOn() returns (s: Sys)
    ensures Reachable(s) && Answering(s, Log(), 4, false, [Start(200, []), Body(CHUNK), RelayEvent.End])
  {
    hide Reachable, BodyFrame, Answering;
    var s0 := Serves();
    BodyFrameMeaning(ResponseBody, 2, ZERO_ID, SeqNo(0), CHUNK);
    var s1 := PassesOn(s0, Log(), 1, [], Start(200, []));
    assert [] + [Start(200, [])] == [Start(200, [])];
    var s2 := PassesOn(s1, Log(), 2, [Start(200, [])], Body(CHUNK));
    assert [Start(200, [])] + [Body(CHUNK)] == [Start(200, []), Body(CHUNK)];
    s := PassesOn(s2, Log(), 3, [Start(200, []), Body(CHUNK)], RelayEvent.End);
    assert [Start(200, []), Body(CHUNK)] + [RelayEvent.End] == [Start(200, []), Body(CHUNK), RelayEvent.End];
  }

  /** The client's response is at `loop`, all of it yielded, and `taken` events are off the channel. */
  ghost predicate Given(s: Sys, pc: ReqPc, loop: Ingress.LoopState, taken: nat, yielded: nat) {
    && 0 in s.conns && ZERO_ID in s.reqs && s.reqs[ZERO_ID].conn == 0
    && s.reqs[ZERO_ID].pc == pc && s.reqs[ZERO_ID].loop == loop && s.reqs[ZERO_ID].yielded == yielded
    && Get(s.relay.http.queues, ZERO_ID) == Some(Queue([Start(200, []), Body(CHUNK), RelayEvent.End], taken, true))
  }

  lemma TakesOne(s: Sys, pc: ReqPc, loop: Ingress.LoopState, taken: nat, yielded: nat) returns (s': Sys)
    requires Reachable(s) && Given(s, pc, loop, taken, yielded) && taken < 3
    requires pc.Awaiting? || (pc.Streaming? && loop.Responding? && yielded == |loop.body|)
    ensures var loop' := loop.OnEvent([Start(200, []), Body(CHUNK), RelayEvent.End][taken]);
            && Reachable(s')
            && Given(s', if loop'.Responding? then Streaming else if loop'.Waiting? then Awaiting else Removing,
                     loop', taken + 1,
                     if pc.Streaming? && (loop'.Responding? || loop'.Shut?) then |loop'.body| else yielded)
  {
    hide Reachable;
    s' := NextEvent(s, ZERO_ID).value;
    Extend(s, OfRequest(ZERO_ID, TakesEvent), s');
  }

  /** Some run answers a request in full, and the client is given every chunk. */
  lemma SomeRequestIsAnswered()
    ensures exists steps, s ::
              && Reaches({TOKEN}, steps, s) && ZERO_ID in s.reqs
              && s.reqs[ZERO_ID].loop == Ingress.Shut(200, [], [CHUNK], true) && s.reqs[ZERO_ID].yielded == 1
  {
    hide Reaches;
    var s0 := PassesAllOn();
    var s1 := TakesOne(s0, Awaiting, Ingress.Waiting([]), 0, 0);
    var s2 := TakesOne(s1, Streaming, Ingress.Responding(200, [], []), 1, 0);
    assert [] + [CHUNK] == [CHUNK];
    var s3 := TakesOne(s2, Streaming, Ingress.Responding(200, [], [CHUNK]), 2, 1);
  }
}
