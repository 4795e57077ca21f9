/** The same for streams: a run in which a client is given a message of the local server. */
module StreamWitness {
  import opened Prelude
  import opened Frame
  import opened Messages
  import opened RelayState
  import opened WsTunnel
  import opened System
  import opened Theorems
  import opened Witness
  import Agent

  function ConnectMessage(): Wire { Text(WsConnect(ZERO_ID, "/", [], [])) }

  /** The stream's task waits for the ack, and the connect is on its way. */
  ghost predicate Connecting(s: Sys, added: bool) {
    && 0 in s.conns && ZERO_ID in s.strs
    && s.conns[0].session.Live? && s.conns[0].job.NoJob? && s.conns[0].up == Link([Registration()], 1, true)
    && s.conns[0].down == Link([Welcome(), ConnectMessage()], 1, true)
    && s.conns[0].agent == Running(2, true) && s.conns[0].board == Agent.AgentBoard(map[], map[], map[], map[])
    && s.strs[ZERO_ID].conn == 0 && s.strs[ZERO_ID].tunnel == TUNNEL && s.strs[ZERO_ID].delivered == []
    && s.strs[ZERO_ID].pc == (if added then AwaitingAck else Upgrading)
    && Get(s.relay.acks.entries, ZERO_ID) == Some(WsPending(TUNNEL, ZERO_ID))
       && Get(s.relay.acks.shots, ZERO_ID) == Some([])
    && (added ==> Get(s.relay.ws.entries, ZERO_ID) == Some(WsStreamHandle(TUNNEL, ZERO_ID))
                  && Get(s.relay.ws.queues, ZERO_ID) == Some(NewQueue()))
  }

  /** The stream's pending entry is in the map. */
  ghost predicate Pended(s: Sys) {
    && 0 in s.conns && ZERO_ID in s.strs
    && s.conns[0].session.Live? && s.conns[0].job.NoJob? && s.conns[0].up == Link([Registration()], 1, true)
    && s.conns[0].down == Link([Welcome()], 1, true)
    && s.conns[0].agent == Running(2, true) && s.conns[0].board == Agent.AgentBoard(map[], map[], map[], map[])
    && s.strs[ZERO_ID].conn == 0 && s.strs[ZERO_ID].tunnel == TUNNEL && s.strs[ZERO_ID].delivered == []
    && s.strs[ZERO_ID].pc.Pending?
    && Get(s.relay.acks.entries, ZERO_ID) == Some(WsPending(TUNNEL, ZERO_ID))
    && Get(s.relay.acks.shots, ZERO_ID) == Some([])
  }

  lemma Pends() returns (s: Sys)
    ensures Reachable(s) && Pended(s)
  {
    hide Reachable;
    var s0 := Joins();
    var s1 := WsArrive(s0, ZERO_ID, TUNNEL).value;
    Extend(s0, OfStream(ZERO_ID, Opens(TUNNEL)), s1);
    s := AddWsPending(s1, ZERO_ID).value;
    Extend(s1, OfStream(ZERO_ID, AddsPending), s);
  }

  lemma Connects() returns (s: Sys)
    ensures Reachable(s) && Connecting(s, false)
  {
    hide Reachable;
    var s0 := Pends();
    s := SendConnect(s0, ZERO_ID, "/", [], []).value;
    Extend(s0, OfStream(ZERO_ID, SendsConnect("/", [], [])), s);
  }

  /** What the relay's side of the stream looks like: `log` sent up to it, `got` of that read. */
  ghost predicate Tending(s: Sys, pc: StrPc, log: seq<Wire>, got: nat, shot: seq<Resolution>, events: seq<WsEvent>) {
    && 0 in s.conns && ZERO_ID in s.strs
    && s.conns[0].session.Live? && s.conns[0].job.NoJob? && s.conns[0].up == Link(log, got, true)
    && s.strs[ZERO_ID].conn == 0 && s.strs[ZERO_ID].pc == pc && s.strs[ZERO_ID].delivered == []
    && Get(s.relay.acks.entries, ZERO_ID) == (if shot == [] then Some(WsPending(TUNNEL, ZERO_ID)) else None)
    && Get(s.relay.acks.shots, ZERO_ID) == Some(shot)
    && Get(s.relay.ws.entries, ZERO_ID) == Some(WsStreamHandle(TUNNEL, ZERO_ID))
    && Get(s.relay.ws.queues, ZERO_ID) == Some(Queue(events, 0, true))
  }

  function Accepting(): Ack { Ack(true, None, None) }

  function Frame7(): WsEvent { WsFrame(OpBinary, CHUNK) }

  function WsLog(): seq<Wire> {
    [Registration(), AckMessage(), WireFor(LocalSide, 2, ZERO_ID, Frame7())]
  }

  /** The agent's task has been spawned. */
  ghost predicate Spawned(s: Sys) {
    && Tending(s, AwaitingAck, [Registration()], 1, [], [])
    && Get(s.conns[0].tasks, ZERO_ID) ==
       Some(WsTask(DConnect("/", [], []), 2, Dialing, None, [], [], None, 0, [], None))
  }

  lemma Awaits() returns (s: Sys)
    ensures Reachable(s) && Connecting(s, true)
  {
    hide Reachable, UpFor, WsEvents;
    var s0 := Connects();
    s := AddWsStream(s0, ZERO_ID).value;
    Extend(s0, OfStream(ZERO_ID, AddsStream), s);
  }

  lemma Spawns() returns (s: Sys)
    ensures Reachable(s) && Spawned(s)
  {
    hide Reachable;
    var s0 := Awaits();
    s := AgentRead(s0, 0).value;
    Extend(s0, OfAgent(0, Handle), s);
  }

  function AckMessage(): Wire { Text(WsConnectAck(ZERO_ID, true, None, None)) }

  /** The agent's task has said `ok`, and listens. */
  ghost predicate Attentive(s: Sys) {
    && Tending(s, AwaitingAck, [Registration(), AckMessage()], 1, [], [])
    && ZERO_ID in s.conns[0].tasks
    && s.conns[0].tasks[ZERO_ID].pc.TaskServing? && s.conns[0].tasks[ZERO_ID].version == 2
    && Get(s.conns[0].board.inputs, ZERO_ID) == Some(NewQueue())
  }

  lemma Listens() returns (s: Sys)
    ensures Reachable(s) && Attentive(s)
  {
    hide Reachable, DownFor, DownWs;
    var s0 := Spawns();
    var s1 := TaskAcks(s0, 0, ZERO_ID, None).value;
    Extend(s0, OfTask(0, ZERO_ID, Acks(None)), s1);
    s := TaskListens(s1, 0, ZERO_ID).value;
    Extend(s1, OfTask(0, ZERO_ID, TaskMove.Listens), s);
  }

  /** The local server sends a message. */
  lemma Talks() returns (s: Sys)
    ensures Reachable(s) && Tending(s, AwaitingAck, WsLog(), 1, [], [])
  {
    hide Reachable, WireFor;
    var s0 := Listens();
    s := TaskTurn(s0, 0, ZERO_ID, Peer(MBinary(CHUNK)), true).value;
    Extend(s0, OfTask(0, ZERO_ID, Turns(Peer(MBinary(CHUNK)), true)), s);
  }

  /** The session has read a message about the stream. */
  ghost predicate Holds(s: Sys, pc: StrPc, got: nat, shot: seq<Resolution>, events: seq<WsEvent>, ev: UpEvent) {
    && 0 in s.conns && s.conns[0].job == Job(WsId(ZERO_ID), [ev], Fresh)
    && Tending(s.(conns := s.conns[0 := s.conns[0].(job := NoJob)]), pc, WsLog(), got, shot, events)
  }

  lemma ReadsUp(s: Sys, pc: StrPc, got: nat, shot: seq<Resolution>, events: seq<WsEvent>, ev: UpEvent) returns (s': Sys)
    requires Reachable(s) && Tending(s, pc, WsLog(), got, shot, events) && 1 <= got < 3
    requires TargetOf(WsLog()[got]) == WsId(ZERO_ID) && UpOf(WsLog()[got]) == [ev]
    ensures Reachable(s') && Holds(s', pc, got + 1, shot, events, ev)
  {
    hide Reachable, TargetOf, UpOf, WireFor;
    StreamPing(WsLog()[got]);
    s' := SessionRead(s, 0).value;
    Extend(s, OfSession(0, ReadMessage), s');
  }

  lemma StreamPing(m: Wire)
    requires TargetOf(m).WsId?
    ensures !(m.Text? && m.msg.Ping?)
  {
  }

  lemma ResolvesAck(s: Sys) returns (s': Sys)
    requires Reachable(s) && Holds(s, AwaitingAck, 2, [], [], UAck(Accepting()))
    ensures Reachable(s') && Tending(s', AwaitingAck, WsLog(), 2, [Acked(Accepting())], [])
  {
    hide Reachable, HttpBoard.Step, WsBoard.Step, WsLog;
    assert [] + [Acked(Accepting())] == [Acked(Accepting())];
    var s1 := SessionStep(s, 0).value;
    Extend(s, OfSession(0, HandleEvent), s1);
    s' := SessionStep(s1, 0).value;
    Extend(s1, OfSession(0, HandleEvent), s');
  }

  lemma SendsFrame(s: Sys, shot: seq<Resolution>) returns (s': Sys)
    requires Reachable(s) && Holds(s, Serving, 3, shot, [], UWs(Frame7()))
    ensures Reachable(s') && Tending(s', Serving, WsLog(), 3, shot, [Frame7()])
  {
    hide Reachable, HttpBoard.Step, AckBoard.Step, WsLog;
    assert [] + [Frame7()] == [Frame7()];
    var s1 := SessionStep(s, 0).value;
    Extend(s, OfSession(0, HandleEvent), s1);
    s' := SessionStep(s1, 0).value;
    Extend(s1, OfSession(0, HandleEvent), s');
  }

  lemma Accepts() returns (s: Sys)
    ensures Reachable(s) && Tending(s, Serving, WsLog(), 2, [Acked(Accepting())], [])
  {
    hide Reachable, WireFor;
    var s0 := Talks();
    var s1 := ReadsUp(s0, AwaitingAck, 1, [], [], UAck(Accepting()));
    var s2 := ResolvesAck(s1);
    s := AckArrives(s2, ZERO_ID).value;
    Extend(s2, OfStream(ZERO_ID, GetsAck), s);
  }

  lemma Delivers(s: Sys, shot: seq<Resolution>) returns (s': Sys)
    requires Reachable(s) && Tending(s, Serving, WsLog(), 3, shot, [Frame7()])
    ensures Reachable(s') && ZERO_ID in s'.strs && s'.strs[ZERO_ID].delivered == [MBinary(CHUNK)]
  {
    hide Reachable, WsLog, WireFor, WsSenderLeft;
    s' := ClientTurn(s, ZERO_ID, Event(Frame7()), true).value;
    Extend(s, OfStream(ZERO_ID, TakesTurn(Event(Frame7()), true)), s');
  }

  /** Some run hands a client a message of the local server, unaltered. */
  lemma SomeMessageIsDelivered()
    ensures exists steps, s ::
              Reaches({TOKEN}, steps, s) && ZERO_ID in s.strs && s.strs[ZERO_ID].delivered == [MBinary(CHUNK)]
  {
    hide Reaches, WireFor, Tending, Holds;
    var s0 := Accepts();
    WireForMeaning(LocalSide, 2, ZERO_ID, Frame7());
    var s1 := ReadsUp(s0, Serving, 2, [Acked(Accepting())], [], UWs(Frame7()));
    var s2 := SendsFrame(s1, [Acked(Accepting())]);
    var s3 := Delivers(s2, [Acked(Accepting())]);
  }
}
