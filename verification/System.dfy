/** The whole tunnel as steps: any number of agent connections, HTTP requests and WebSocket streams, on one
    relay. A step is one map or queue operation of one task; a run is any list of steps. Links deliver in
    order and may stop at any point; ids are new when they are made. */
module System {
  import opened Prelude
  import opened Frame
  import opened Messages
  import opened RelayState
  import opened Framing
  import opened WsTunnel
  import SharedState
  import Session
  import Ingress
  import Agent

  // ---- one agent connection ----

  /** One direction of a connection: all that its sending half accepted, how much the other end has
      read, and whether the sending half still accepts. */
  datatype Link = Link(sent: seq<Wire>, got: nat, open: bool) {
    function Put(m: Wire): Link { if open then this.(sent := sent + [m]) else this }

    function Read(): seq<Wire> { if got <= |sent| then sent[..got] else sent }
  }

  function Less(a: nat, b: nat): nat { if b <= a then a - b else 0 }

  /** What a session has left to do for the message it has read. */
  datatype Job = NoJob | Job(t: Target, todo: seq<UpEvent>, stage: Stage)

  datatype SessionPc = Opened | Registered | Live | Cleaning | Closed

  datatype AgentPc = Joining | Running(version: byte, ws: bool) | Stopped

  /** A proxy_one_request task. `asked` is the request it makes of the local server, `produced` what that server
      gave, `emitted` what was sent on. */
  datatype Proxy = Proxy(
    asked: DownEvent, version: byte, pc: ProxyPc, start: Option<RelayEvent>, produced: seq<Bytes>, emitted: seq<Bytes>,
    last: Option<RelayEvent>)

  datatype ProxyPc = Requesting | Relaying | Failing(message: string) | ProxyDone

  /** A run_one_ws_stream task. `asked` is the stream it opens, `heard` what its local server said, `said` what
      of it was sent on, `missed` how many frames and closes had been read, and dropped, when the task
      listened; `delivered` is what the local server was given, `hangup` how it ended. */
  datatype WsTask = WsTask(
    asked: DownEvent, version: byte, pc: TaskPc, ack: Option<Ack>, heard: seq<WsMessage>, said: seq<WsMessage>,
    closing: Option<WsEvent>, missed: nat, delivered: seq<WsMessage>, hangup: Option<Hangup>)

  datatype TaskPc =
    | Dialing | Acknowledged | TaskServing | TaskClosing
    | TaskUnlisting | Refusing(reason: string) | Forgetting | TaskDone

  /** Both ends of a connection: the relay's session (`session`, `job`), the agent's run (`agent`, `board`
      and the tasks it spawned) and the links between them. `epoch` numbers the registrations. */
  datatype Conn = Conn(
    tunnel: string, id: Uuid, epoch: nat, session: SessionPc, job: Job, up: Link, down: Link,
    agent: AgentPc, board: Agent.AgentBoard, proxies: map<Uuid, Proxy>, tasks: map<Uuid, WsTask>)

  function SendUp(k: Conn, m: Wire): Conn { k.(up := k.up.Put(m)) }

  function SendDown(k: Conn, m: Wire): Conn { k.(down := k.down.Put(m)) }

  function JobOf(m: Wire): Job {
    if UpOf(m) == [] || TargetOf(m).NoTarget? then NoJob else Job(TargetOf(m), UpOf(m), Fresh)
  }

  /** The session reads its next message. */
  function TakeUp(k: Conn): Conn
    requires k.up.got < |k.up.sent|
  {
    k.(up := k.up.(got := k.up.got + 1), job := JobOf(k.up.sent[k.up.got]))
  }

  /** The agent's reader takes its next message off the link. */
  function TakeDown(k: Conn): Conn
    requires k.down.got < |k.down.sent|
  {
    k.(down := k.down.(got := k.down.got + 1))
  }

  // ---- one request, one stream, at the relay ----

  /** A handle_ingress task and its body stream. `upload` is what was read of the client's body, `sent`
      what was sent on; `missed` is how many events the session had dropped when the entry was added;
      of the body in `loop`, `yielded` chunks have been handed to the client. */
  datatype Req = Req(
    tunnel: string, conn: nat, version: byte, pc: ReqPc, start: Option<DownEvent>, upload: seq<Bytes>,
    sent: seq<Bytes>, ended: bool, missed: nat, loop: Ingress.LoopState, yielded: nat)

  datatype ReqPc =
    | Starting | Adding | Uploading | Ending | Awaiting
    | Streaming | Removing | Dropping | ReqDone | Abandoned

  /** A handle_client_socket task, with upgrade_client_ws before it. `heard` is what the client said, `said`
      what of it was sent on, `delivered` what the client was given, `hangup` how it ended. */
  datatype Str = Str(
    tunnel: string, conn: nat, version: byte, pc: StrPc, connect: Option<DownEvent>, heard: seq<WsMessage>,
    said: seq<WsMessage>, closing: Option<WsEvent>, missed: nat, delivered: seq<WsMessage>, evicted: bool,
    hangup: Option<Hangup>)

  datatype StrPc =
    | Beginning | Pending | Upgrading | AwaitingAck | Serving
    | Rejecting | Unstreaming | Unpending | Leaving | StrDone

  /** The write lock of the registry, held by the session that cleans up: how far it has come, and the sender
      it has taken out of a map and not used yet. */
  datatype Lock = Free | Held(conn: nat, sweep: Sweep, evicting: Evicting)

  /** The tunnel, its `pending` entries and `streams` when the lock was taken, and what is being done. */
  datatype Sweep = Sweep(tunnelId: string, pending: set<Uuid>, streams: set<Uuid>, phase: Phase)

  /** Each map is first searched for the tunnel's ids, and then those are taken out one by one. `due` are the
      streams that were there when their search began; the entries of ws_pending that are due are those
      there when the lock was taken. */
  datatype Phase =
    | FindPending(ids: set<Uuid>)
    | FailPending(ids: set<Uuid>)
    | FindStreams(ids: set<Uuid>, due: set<Uuid>)
    | CloseStreams(ids: set<Uuid>)

  datatype Evicting = NoEvict | EvictAck(x: Uuid, tx: Uuid) | EvictStream(x: Uuid, chan: Uuid)

  datatype Sys = Sys(
    tokens: set<string>, nextEpoch: nat, lock: Lock, relay: Relay, conns: map<nat, Conn>,
    reqs: map<Uuid, Req>, strs: map<Uuid, Str>)

  function Init(tokens: set<string>): Sys {
    Sys(tokens, 1, Free, Relay(map[], HttpBoard(map[], map[]), AckBoard(map[], map[]), WsBoard(map[], map[])),
        map[], map[], map[])
  }

  function SetConn(s: Sys, c: nat, k: Conn): Sys { s.(conns := s.conns[c := k]) }

  function SetReq(s: Sys, r: Uuid, q: Req): Sys { s.(reqs := s.reqs[r := q]) }

  function SetStr(s: Sys, x: Uuid, w: Str): Sys { s.(strs := s.strs[x := w]) }

  function SetProxy(k: Conn, r: Uuid, p: Proxy): Conn { k.(proxies := k.proxies[r := p]) }

  function SetTask(k: Conn, x: Uuid, w: WsTask): Conn { k.(tasks := k.tasks[x := w]) }

  const ZERO_ID: Uuid := [0, 0, 0, 0, 0, 0, 0, 0, 0, 0, 0, 0, 0, 0, 0, 0]

  const CHANNEL_CAPACITY: nat := 128

  predicate Room<T>(q: Queue<T>) { |q.sent| < q.taken + CHANNEL_CAPACITY }

  // ---- connections ----

  /** An agent connects and sends its registration; older agents name no version. */
  function OpenConn(s: Sys, c: nat, tunnelId: string, token: string, version: Option<byte>,
                    caps: seq<string>): Option<Sys> {
    if c in s.conns then None else
      Some(SetConn(s, c, Conn("", ZERO_ID, 0, Opened, NoJob,
                              Link([Text(RegisterAgent(tunnelId, token, version, caps))], 0, true), Link([], 0, true),
                              Joining, Agent.AgentBoard(map[], map[], map[], map[]), map[], map[])))
  }

  ghost function SessionRegister(s: Sys, c: nat, id: Uuid): Option<Sys> {
    if c in s.conns && s.conns[c].session.Opened? && s.conns[c].up.got == 0 < |s.conns[c].up.sent|
        && s.conns[c].up.sent[0].Text? then
      var k := TakeUp(s.conns[c]);
      match Session.Gate(s.tokens, Some(k.up.sent[0].msg))
      case Silent => Some(SetConn(s, c, k.(session := Closed)))
      case Rejected(reason) =>
        Some(SetConn(s, c, SendDown(k.(session := Closed), Text(Session.AckFor(false, Some(reason))))))
      case Passed(tunnelId, version, caps) =>
        if !s.lock.Free? || exists d <- s.conns :: s.conns[d].id == id then None
        else if tunnelId in s.relay.agents then
          Some(SetConn(s, c, SendDown(k.(session := Closed), Text(Session.AckFor(false, Some(Session.IN_USE))))))
        else
          Some(SetConn(s, c, k.(tunnel := tunnelId, id := id, epoch := s.nextEpoch, session := Registered))
               .(nextEpoch := s.nextEpoch + 1,
                 relay := s.relay.(agents := s.relay.agents[tunnelId := AgentHandle(id, c, caps, version)])))
    else None
  }

  /** No registration in time, or none that can be read. */
  function SessionGiveUp(s: Sys, c: nat): Option<Sys> {
    if c in s.conns && s.conns[c].session.Opened? then Some(SetConn(s, c, s.conns[c].(session := Closed))) else None
  }

  function SessionAck(s: Sys, c: nat): Option<Sys> {
    if c in s.conns && s.conns[c].session.Registered? then
      Some(SetConn(s, c, SendDown(s.conns[c].(session := Live), Text(Session.AckFor(true, None)))))
    else None
  }

  function SessionRead(s: Sys, c: nat): Option<Sys> {
    if c in s.conns && s.conns[c].session.Live? && s.conns[c].job.NoJob?
        && s.conns[c].up.got < |s.conns[c].up.sent| then
      var k := s.conns[c];
      var m := k.up.sent[k.up.got];
      var k' := TakeUp(k);
      Some(SetConn(s, c, if m.Text? && m.msg.Ping? then SendDown(k', Text(Pong(m.msg.ts))) else k'))
    else None
  }

  /** One operation of the message being handled. Sending on a full request channel waits. */
  function SessionStep(s: Sys, c: nat): Option<Sys> {
    if c in s.conns && s.conns[c].job.Job? && s.conns[c].job.todo != [] && !s.conns[c].job.t.NoTarget? then
      var k := s.conns[c];
      var j := k.job;
      if j.todo[0].UHttp? && j.stage.HaveSender? && s.relay.http.Open(j.stage.chan)
         && !Room(s.relay.http.queues[j.stage.chan]) then None
      else
        var (relay, stage) := s.relay.Step(j.t.id, j.todo[0], j.stage);
        var job := if !stage.Over? then j.(stage := stage)
                   else if |j.todo| == 1 then NoJob
                   else Job(j.t, j.todo[1..], Fresh);
        Some(SetConn(s, c, k.(job := job)).(relay := relay))
    else None
  }

  /** The start of a clean-up. */
  function SweepOf(s: Sys, tunnelId: string): Sweep {
    Sweep(tunnelId, MatchingPending(s.relay.acks, tunnelId), MatchingStreams(s.relay.ws, tunnelId), FindPending({}))
  }

  predicate Sweeping(s: Sys, c: nat) { s.lock.Held? && s.lock.conn == c && s.lock.evicting.NoEvict? && c in s.conns }

  function InPhase(lock: Lock, phase: Phase): Lock
    requires lock.Held?
  {
    lock.(sweep := lock.sweep.(phase := phase))
  }

  /** The session's loop ends: `remove_agent_if` takes the write lock. */
  function SessionLeave(s: Sys, c: nat): Option<Sys> {
    if c in s.conns && s.conns[c].session.Live? && s.conns[c].job.NoJob? && s.lock.Free? then
      var k := s.conns[c];
      if k.tunnel in s.relay.agents && s.relay.agents[k.tunnel].connectionId == k.id then
        Some(SetConn(s, c, k.(session := Cleaning))
             .(lock := Held(c, SweepOf(s, k.tunnel), NoEvict),
               relay := s.relay.(agents := s.relay.agents - {k.tunnel})))
      else Some(SetConn(s, c, k.(session := Closed)))
    else None
  }

  /** The search of a map comes to an entry of the tunnel; entries may come and go while it lasts. */
  function FindEntry(s: Sys, c: nat, x: Uuid): Option<Sys> {
    if !Sweeping(s, c) then None else
      match s.lock.sweep.phase
      case FindPending(ids) =>
        if x in MatchingPending(s.relay.acks, s.lock.sweep.tunnelId)
        then Some(s.(lock := InPhase(s.lock, FindPending(ids + {x})))) else None
      case FindStreams(ids, due) =>
        if x in MatchingStreams(s.relay.ws, s.lock.sweep.tunnelId)
        then Some(s.(lock := InPhase(s.lock, FindStreams(ids + {x}, due)))) else None
      case _ => None
  }

  /** A search ends, having come to every entry that was there throughout; or the last id of ws_pending is
      done, and the search of ws_streams begins. */
  function NextPhase(s: Sys, c: nat): Option<Sys> {
    if !Sweeping(s, c) then None else
      match s.lock.sweep.phase
      case FindPending(ids) =>
        if forall x <- s.lock.sweep.pending :: x in ids || x !in s.relay.acks.entries
        then Some(s.(lock := InPhase(s.lock, FailPending(ids)))) else None
      case FailPending(ids) =>
        if ids == {} then
          Some(s.(lock := InPhase(s.lock, FindStreams({}, MatchingStreams(s.relay.ws, s.lock.sweep.tunnelId)))))
        else None
      case FindStreams(ids, due) =>
        if forall x <- due :: x in ids || x !in s.relay.ws.entries
        then Some(s.(lock := InPhase(s.lock, CloseStreams(ids)))) else None
      case _ => None
  }

  /** One id found is taken out of ws_pending, if it is still there ... */
  function EvictPending(s: Sys, c: nat, x: Uuid): Option<Sys> {
    if Sweeping(s, c) && s.lock.sweep.phase.FailPending? && x in s.lock.sweep.phase.ids then
      var lock := InPhase(s.lock, FailPending(s.lock.sweep.phase.ids - {x}));
      if x !in s.relay.acks.entries then Some(s.(lock := lock)) else
        Some(s.(lock := lock.(evicting := EvictAck(x, s.relay.acks.entries[x].tx)),
                relay := s.relay.(acks := s.relay.acks.Drop(x))))
    else None
  }

  /** ... or out of ws_streams ... */
  function EvictStreamEntry(s: Sys, c: nat, x: Uuid): Option<Sys> {
    if Sweeping(s, c) && s.lock.sweep.phase.CloseStreams? && x in s.lock.sweep.phase.ids then
      var lock := InPhase(s.lock, CloseStreams(s.lock.sweep.phase.ids - {x}));
      if x !in s.relay.ws.entries then Some(s.(lock := lock)) else
        Some(s.(strs := if x in s.strs then s.strs[x := s.strs[x].(evicted := true)] else s.strs,
                lock := lock.(evicting := EvictStream(x, s.relay.ws.entries[x].sender)),
                relay := s.relay.(ws := s.relay.ws.Drop(x))))
    else None
  }

  /** ... and its sender used. */
  function EvictSend(s: Sys, c: nat): Option<Sys> {
    if s.lock.Held? && s.lock.conn == c then
      match s.lock.evicting
      case EvictAck(x, tx) =>
        Some(s.(lock := s.lock.(evicting := NoEvict),
                relay := s.relay.(acks := s.relay.acks.Resolve(tx, Acked(SharedState.DisconnectAck())))))
      case EvictStream(x, ch) =>
        Some(s.(lock := s.lock.(evicting := NoEvict),
                relay := s.relay.(ws := s.relay.ws.Send(ch, SharedState.DisconnectClose()))))
      case NoEvict => None
    else None
  }

  /** The last id of ws_streams is done: the lock is given back, and the session over. */
  function SessionEnd(s: Sys, c: nat): Option<Sys> {
    if Sweeping(s, c) && s.lock.sweep.phase == CloseStreams({}) then
      Some(SetConn(s, c, s.conns[c].(session := Closed)).(lock := Free))
    else None
  }

  /** A writer task stops: further sends fail. */
  function CloseLink(s: Sys, c: nat, up: bool): Option<Sys> {
    if c in s.conns then
      var k := s.conns[c];
      Some(SetConn(s, c, if up then k.(up := k.up.(open := false)) else k.(down := k.down.(open := false))))
    else None
  }

  /** wait_register_ack */
  function AgentJoin(s: Sys, c: nat): Option<Sys> {
    if c in s.conns && s.conns[c].agent.Joining? && s.conns[c].down.got < |s.conns[c].down.sent| then
      var k := TakeDown(s.conns[c]);
      var agent := match Agent.JoinFrom(Some(k.down.sent[k.down.got - 1]))
                   case Some(info) => Running(info.relayProtocolVersion, info.relaySupportsWs)
                   case None => Stopped;
      Some(SetConn(s, c, k.(agent := agent)))
    else None
  }

  /** The connection after the agent's reader has handled its next message. */
  function Handled(k: Conn): Conn
    requires k.agent.Running? && k.down.got < |k.down.sent|
  {
    var m := k.down.sent[k.down.got];
    var t := TargetOf(m);
    var k' := TakeDown(k).(board := k.board.Read(m, if t.NoTarget? then ZERO_ID else t.id));
    match Agent.ActionOn(m, k.agent.ws)
    case Idle => k'
    case Reply(msg) => SendUp(k', Text(msg))
    case SpawnProxy(r, asked) => SetProxy(k', r, Proxy(asked, k.agent.version, Requesting, None, [], [], None))
    case SpawnWs(x, asked) => SetTask(k', x, WsTask(asked, k.agent.version, Dialing, None, [], [], None, 0, [], None))
  }

  /** The reader handles one message; feeding a full request-body channel waits. */
  function AgentRead(s: Sys, c: nat): Option<Sys> {
    if c in s.conns && s.conns[c].agent.Running? && s.conns[c].down.got < |s.conns[c].down.sent| then
      var k := s.conns[c];
      var m := k.down.sent[k.down.got];
      var t := TargetOf(m);
      if DownOf(m) != [] && DownOf(m)[0].DBody? && !t.NoTarget? && t.id in k.board.inflight
         && k.board.BodyOpen(k.board.inflight[t.id]) && !Room(k.board.bodies[k.board.inflight[t.id]]) then None
      else Some(SetConn(s, c, Handled(k)))
    else None
  }

  /** run_once returns; `clean` when it does so through its last lines. */
  function AgentStop(s: Sys, c: nat, clean: bool): Option<Sys> {
    if c in s.conns && !s.conns[c].agent.Stopped? then
      var k := s.conns[c];
      Some(SetConn(s, c, k.(agent := Stopped,
                            board := k.board.(inflight := map[],
                                              sessions := if clean then map[] else k.board.sessions))))
    else None
  }

  /** The ping task, which may outlive the reader. */
  function AgentPing(s: Sys, c: nat, ts: nat): Option<Sys> {
    if c in s.conns && !s.conns[c].agent.Joining? then Some(SetConn(s, c, SendUp(s.conns[c], Text(Ping(ts))))) else None
  }

  // ---- an HTTP request at the relay ----

  /** `get_agent` gives a handle, and the request an id. */
  function Arrive(s: Sys, r: Uuid, tunnelId: string): Option<Sys> {
    if s.lock.Free? && tunnelId in s.relay.agents && r !in s.reqs then
      var h := s.relay.agents[tunnelId];
      Some(SetReq(s, r, Req(tunnelId, h.sender, h.protocolVersion, Starting, None, [], [], false, 0,
                            Ingress.Waiting([]), 0)))
    else None
  }

  predicate ReqAt(s: Sys, r: Uuid, pc: ReqPc) {
    r in s.reqs && s.reqs[r].pc == pc && s.reqs[r].conn in s.conns
  }

  function SendStart(s: Sys, r: Uuid, verb: string, path: string, headers: Headers): Option<Sys> {
    if ReqAt(s, r, Starting) then
      var q, k := s.reqs[r], s.conns[s.reqs[r].conn];
      if k.down.open then
        Some(SetConn(SetReq(s, r, q.(pc := Adding, start := Some(DStart(verb, path, headers)))), q.conn,
                     SendDown(k, Text(HttpRequestStart(r, verb, path, headers)))))
      else Some(SetReq(s, r, q.(pc := ReqDone)))
    else None
  }

  /** The session's events of `t` that are still to be handled. */
  function TodoFor(k: Conn, t: Target): seq<UpEvent> {
    if k.job.Job? && k.job.t == t then k.job.todo else []
  }

  function AddInflight(s: Sys, r: Uuid): Option<Sys> {
    if ReqAt(s, r, Adding) then
      var q, k := s.reqs[r], s.conns[s.reqs[r].conn];
      var handled := Less(|UpFor(HttpId(r), k.up.Read())|, |TodoFor(k, HttpId(r))|);
      var http := HttpBoard(s.relay.http.entries[r := r], s.relay.http.queues[r := NewQueue()]);
      Some(SetReq(s, r, q.(pc := Uploading, missed := handled)).(relay := s.relay.(http := http)))
    else None
  }

  function UploadChunk(s: Sys, r: Uuid, chunk: Bytes): Option<Sys> {
    if ReqAt(s, r, Uploading) then
      var q, k := s.reqs[r], s.conns[s.reqs[r].conn];
      var q' := q.(upload := q.upload + [chunk]);
      if chunk == [] then Some(SetReq(s, r, q'))
      else if !k.down.open then Some(SetReq(s, r, q'.(pc := Removing)))
      else
        Some(SetConn(SetReq(s, r, q'.(sent := q.sent + [chunk])), q.conn,
                     SendDown(k, BodyFrame(RequestBody, q.version, r, SeqNo(|q.sent|), chunk))))
    else None
  }

  /** The upload is over, or has failed. */
  function UploadStops(s: Sys, r: Uuid, failed: bool): Option<Sys> {
    if ReqAt(s, r, Uploading) then Some(SetReq(s, r, s.reqs[r].(pc := if failed then Removing else Ending))) else None
  }

  function SendEnd(s: Sys, r: Uuid): Option<Sys> {
    if ReqAt(s, r, Ending) then
      var q, k := s.reqs[r], s.conns[s.reqs[r].conn];
      if k.down.open then
        Some(SetConn(SetReq(s, r, q.(pc := Awaiting, ended := true)), q.conn, SendDown(k, Text(HttpRequestEnd(r)))))
      else Some(SetReq(s, r, q.(pc := Removing)))
    else None
  }

  predicate HasEvent(s: Sys, r: Uuid) {
    r in s.relay.http.queues && s.relay.http.queues[r].taken < |s.relay.http.queues[r].sent|
  }

  /** The body stream has handed on all it has, and receives. */
  predicate Draining(s: Sys, r: Uuid) {
    ReqAt(s, r, Streaming) && s.reqs[r].loop.Responding? && s.reqs[r].yielded == |s.reqs[r].loop.body|
  }

  function TakeEvent(s: Sys, r: Uuid): Relay
    requires HasEvent(s, r)
  {
    var q := s.relay.http.queues[r];
    s.relay.(http := s.relay.http.(queues := s.relay.http.queues[r := q.(taken := q.taken + 1)]))
  }

  /** `rx.recv()` in either loop gives an event; the drain loop comes to it when the early chunks are
      gone, and hands a body chunk on at once. */
  function NextEvent(s: Sys, r: Uuid): Option<Sys> {
    if (ReqAt(s, r, Awaiting) || Draining(s, r)) && HasEvent(s, r) then
      var q := s.reqs[r];
      var loop := q.loop.OnEvent(s.relay.http.queues[r].sent[s.relay.http.queues[r].taken]);
      var pc := if loop.Responding? then Streaming else if loop.Waiting? then Awaiting else Removing;
      var yielded := if q.pc.Streaming? && (loop.Responding? || loop.Shut?) then |loop.body| else q.yielded;
      Some(SetReq(s, r, q.(loop := loop, pc := pc, yielded := yielded)).(relay := TakeEvent(s, r)))
    else None
  }

  function YieldEarly(s: Sys, r: Uuid): Option<Sys> {
    if ReqAt(s, r, Streaming) && s.reqs[r].loop.Responding? && s.reqs[r].yielded < |s.reqs[r].loop.body| then
      Some(SetReq(s, r, s.reqs[r].(yielded := s.reqs[r].yielded + 1)))
    else None
  }

  /** No sender of the channel is left: not in the map, and not with a session between two operations. */
  ghost predicate NoSenderLeft(s: Sys, r: Uuid) {
    r !in s.relay.http.entries && forall c <- s.conns :: !(s.conns[c].job.Job? && s.conns[c].job.stage == HaveSender(r))
  }

  /** `rx.recv()` gives None, or the wait for the start times out. */
  ghost function ReceiveFails(s: Sys, r: Uuid, timeout: bool): Option<Sys> {
    if (ReqAt(s, r, Awaiting) && timeout)
       || ((ReqAt(s, r, Awaiting) || Draining(s, r)) && !HasEvent(s, r) && NoSenderLeft(s, r)) then
      Some(SetReq(s, r, s.reqs[r].(pc := Removing)))
    else None
  }

  function RemoveEntry(s: Sys, r: Uuid): Option<Sys> {
    if ReqAt(s, r, Removing) then
      Some(SetReq(s, r, s.reqs[r].(pc := Dropping)).(relay := s.relay.(http := s.relay.http.Drop(r))))
    else None
  }

  function CloseEvents(s: Sys, r: Uuid): Relay {
    if r in s.relay.http.queues then
      s.relay.(http := s.relay.http.(queues := s.relay.http.queues[r := s.relay.http.queues[r].(open := false)]))
    else s.relay
  }

  function DropReceiver(s: Sys, r: Uuid): Option<Sys> {
    if ReqAt(s, r, Dropping) then Some(SetReq(s, r, s.reqs[r].(pc := ReqDone)).(relay := CloseEvents(s, r))) else None
  }

  /** The client goes away: the task, or its body stream, is dropped where it waits. */
  function Abandon(s: Sys, r: Uuid): Option<Sys> {
    if ReqAt(s, r, Uploading) || ReqAt(s, r, Awaiting) || ReqAt(s, r, Streaming) then
      Some(SetReq(s, r, s.reqs[r].(pc := Abandoned)).(relay := CloseEvents(s, r)))
    else None
  }

  // ---- the same request at the agent ----

  predicate ProxyAt(s: Sys, c: nat, r: Uuid) { c in s.conns && r in s.conns[c].proxies }

  /** The local server takes a chunk of the request body, or lets go of the body. */
  function LocalBody(s: Sys, c: nat, r: Uuid, drop: bool): Option<Sys> {
    if ProxyAt(s, c, r) && r in s.conns[c].board.bodies then
      var k := s.conns[c];
      var b := k.board.bodies[r];
      if drop then Some(SetConn(s, c, k.(board := k.board.(bodies := k.board.bodies[r := b.(open := false)]))))
      else if b.open && b.taken < |b.sent| then
        Some(SetConn(s, c, k.(board := k.board.(bodies := k.board.bodies[r := b.(taken := b.taken + 1)]))))
      else None
    else None
  }

  const LINK_CLOSED: string := "relay channel closed"

  function LocalAnswers(s: Sys, c: nat, r: Uuid, status: nat, headers: Headers): Option<Sys> {
    if ProxyAt(s, c, r) && s.conns[c].proxies[r].pc.Requesting? then
      var k := s.conns[c];
      var p := k.proxies[r];
      if k.up.open then
        Some(SetConn(s, c, SendUp(SetProxy(k, r, p.(pc := Relaying, start := Some(Start(status, headers)))),
                                  Text(HttpResponseStart(r, status, headers)))))
      else Some(SetConn(s, c, SetProxy(k, r, p.(pc := Failing(LINK_CLOSED)))))
    else None
  }

  function LocalChunk(s: Sys, c: nat, r: Uuid, chunk: Bytes): Option<Sys> {
    if ProxyAt(s, c, r) && s.conns[c].proxies[r].pc.Relaying? then
      var k := s.conns[c];
      var p := k.proxies[r].(produced := k.proxies[r].produced + [chunk]);
      if chunk == [] then Some(SetConn(s, c, SetProxy(k, r, p)))
      else if k.up.open then
        Some(SetConn(s, c, SendUp(SetProxy(k, r, p.(emitted := p.emitted + [chunk])),
                                  BodyFrame(ResponseBody, p.version, r, SeqNo(|p.emitted|), chunk))))
      else Some(SetConn(s, c, SetProxy(k, r, p.(pc := Failing(LINK_CLOSED)))))
    else None
  }

  function LocalFails(s: Sys, c: nat, r: Uuid, message: string): Option<Sys> {
    if ProxyAt(s, c, r) && (s.conns[c].proxies[r].pc.Requesting? || s.conns[c].proxies[r].pc.Relaying?) then
      Some(SetConn(s, c, SetProxy(s.conns[c], r, s.conns[c].proxies[r].(pc := Failing(message)))))
    else None
  }

  function LocalEnds(s: Sys, c: nat, r: Uuid): Option<Sys> {
    if ProxyAt(s, c, r) && s.conns[c].proxies[r].pc.Relaying? then
      var k := s.conns[c];
      var p := k.proxies[r];
      if k.up.open then
        Some(SetConn(s, c, SendUp(SetProxy(k, r, p.(pc := ProxyDone, last := Some(RelayEvent.End))),
                                  Text(HttpResponseEnd(r)))))
      else Some(SetConn(s, c, SetProxy(k, r, p.(pc := Failing(LINK_CLOSED)))))
    else None
  }

  function ReportFailure(s: Sys, c: nat, r: Uuid): Option<Sys> {
    if ProxyAt(s, c, r) && s.conns[c].proxies[r].pc.Failing? then
      var k := s.conns[c];
      var p := k.proxies[r];
      if k.up.open then
        Some(SetConn(s, c, SendUp(SetProxy(k, r, p.(pc := ProxyDone,
                                                    last := Some(Error(Agent.LOCAL_PROXY_ERROR, p.pc.message)))),
                                  Text(ErrorMessage(Some(r), Agent.LOCAL_PROXY_ERROR, p.pc.message)))))
      else Some(SetConn(s, c, SetProxy(k, r, p.(pc := ProxyDone))))
    else None
  }

  // ---- a WebSocket stream at the relay ----

  function WsArrive(s: Sys, x: Uuid, tunnelId: string): Option<Sys> {
    if s.lock.Free? && tunnelId in s.relay.agents && CAP_WS_TUNNEL_V1 in s.relay.agents[tunnelId].capabilities
        && x !in s.strs then
      var h := s.relay.agents[tunnelId];
      Some(SetStr(s, x, Str(tunnelId, h.sender, h.protocolVersion, Beginning, None, [], [], None, 0, [], false, None)))
    else None
  }

  predicate StrAt(s: Sys, x: Uuid, pc: StrPc) {
    x in s.strs && s.strs[x].pc == pc && s.strs[x].conn in s.conns
  }

  function AddWsPending(s: Sys, x: Uuid): Option<Sys> {
    if StrAt(s, x, Beginning) then
      var acks := AckBoard(s.relay.acks.entries[x := WsPending(s.strs[x].tunnel, x)], s.relay.acks.shots[x := []]);
      Some(SetStr(s, x, s.strs[x].(pc := Pending)).(relay := s.relay.(acks := acks)))
    else None
  }

  function SendConnect(s: Sys, x: Uuid, path: string, headers: Headers, subprotocols: seq<string>): Option<Sys> {
    if StrAt(s, x, Pending) then
      var w, k := s.strs[x], s.conns[s.strs[x].conn];
      if k.down.open then
        Some(SetConn(SetStr(s, x, w.(pc := Upgrading, connect := Some(DConnect(path, headers, subprotocols)))), w.conn,
                     SendDown(k, Text(WsConnect(x, path, headers, subprotocols)))))
      else Some(SetStr(s, x, w.(pc := Unpending)))
    else None
  }

  /** The upgrade never completes: the task with the ack receiver is dropped. */
  function UpgradeLost(s: Sys, x: Uuid): Option<Sys> {
    if StrAt(s, x, Upgrading) then Some(SetStr(s, x, s.strs[x].(pc := StrDone))) else None
  }

  /** Frames and closes among the events. */
  function WsEvents(evs: seq<UpEvent>): seq<WsEvent> {
    if evs == [] then [] else
      WsEvents(evs[..|evs| - 1]) + match evs[|evs| - 1] case UWs(e) => [e] case _ => []
  }

  function AddWsStream(s: Sys, x: Uuid): Option<Sys> {
    if StrAt(s, x, Upgrading) then
      var w, k := s.strs[x], s.conns[s.strs[x].conn];
      var handled := Less(|WsEvents(UpFor(WsId(x), k.up.Read()))|, |WsEvents(TodoFor(k, WsId(x)))|);
      var ws := WsBoard(s.relay.ws.entries[x := WsStreamHandle(w.tunnel, x)], s.relay.ws.queues[x := NewQueue()]);
      Some(SetStr(s, x, w.(pc := AwaitingAck, missed := handled)).(relay := s.relay.(ws := ws)))
    else None
  }

  /** The one-shot gives an ack, or reports that its sender is gone. */
  function AckArrives(s: Sys, x: Uuid): Option<Sys> {
    if StrAt(s, x, AwaitingAck) && x in s.relay.acks.shots && s.relay.acks.shots[x] != [] then
      var pc := match s.relay.acks.shots[x][0]
                case Acked(ack) => if ack.ok then Serving else Rejecting
                case Dropped => Rejecting;
      Some(SetStr(s, x, s.strs[x].(pc := pc)))
    else None
  }

  function AckTimeout(s: Sys, x: Uuid): Option<Sys> {
    if StrAt(s, x, AwaitingAck) then Some(SetStr(s, x, s.strs[x].(pc := Rejecting))) else None
  }

  /** The client is told with a close frame, which may fail. */
  function RejectClient(s: Sys, x: Uuid): Option<Sys> {
    if StrAt(s, x, Rejecting) then Some(SetStr(s, x, s.strs[x].(pc := Unstreaming))) else None
  }

  ghost predicate InputReady(input: Input, q: Queue<WsEvent>, senderLeft: bool) {
    && ValidInput(input)
    && (input.Event? ==> q.taken < |q.sent| && q.sent[q.taken] == input.ev)
    && (input.EventsGone? ==> q.taken == |q.sent| && !senderLeft)
  }

  ghost predicate WsSenderLeft(s: Sys, x: Uuid) {
    || x in s.relay.ws.entries
    || (s.lock.Held? && s.lock.evicting == EvictStream(x, x))
    || exists c <- s.conns ::
         s.conns[c].job.Job? && s.conns[c].job.t == WsId(x) && s.conns[c].job.stage == HaveSender(x)
  }

  function AfterEvent(q: Queue<WsEvent>, input: Input): Queue<WsEvent> {
    if input.Event? then q.(taken := q.taken + 1) else q
  }

  /** All that a socket has said, closes aside. */
  function Hear(heard: seq<WsMessage>, input: Input): seq<WsMessage> {
    if input.Peer? && !input.m.MClose? then heard + [input.m] else heard
  }

  /** A turn of the client loop; `delivers` says whether the client's socket takes the message. */
  ghost function ClientTurn(s: Sys, x: Uuid, input: Input, delivers: bool): Option<Sys> {
    if StrAt(s, x, Serving) && x in s.relay.ws.queues
       && InputReady(input, s.relay.ws.queues[x], WsSenderLeft(s, x)) then
      var w, k := s.strs[x], s.conns[s.strs[x].conn];
      var turn := TakeTurn(ClientSide, w.version, x, input);
      var q := s.relay.ws.queues[x];
      var s' := s.(relay := s.relay.(ws := s.relay.ws.(queues := s.relay.ws.queues[x := AfterEvent(q, input)])));
      if turn.emit.Some? then
        var ev := EmittedEvent(ClientSide, input).value;
        var heard := Hear(w.heard, input);
        if k.down.open then
          Some(SetConn(SetStr(s', x, w.(pc := if turn.stop then Unstreaming else Serving,
                                        heard := heard,
                                        said := if ev.WsFrame? then w.said + [input.m] else w.said,
                                        closing := if ev.WsEnd? then Some(ev) else None,
                                        hangup := HangupOf(input))),
                       w.conn, SendDown(k, turn.emit.value)))
        else Some(SetStr(s', x, w.(pc := Unstreaming, heard := heard, hangup := HangupOf(input))))
      else if turn.deliver.Some? then
        if delivers then
          Some(SetStr(s', x, w.(pc := if turn.stop then Unstreaming else Serving,
                                delivered := w.delivered + [turn.deliver.value])))
        else Some(SetStr(s', x, w.(pc := Unstreaming)))
      else Some(SetStr(s', x, w.(pc := Unstreaming)))
    else None
  }

  function RemoveWsStream(s: Sys, x: Uuid): Option<Sys> {
    if StrAt(s, x, Unstreaming) then
      Some(SetStr(s, x, s.strs[x].(pc := Unpending)).(relay := s.relay.(ws := s.relay.ws.Drop(x))))
    else None
  }

  function RemoveWsPending(s: Sys, x: Uuid): Option<Sys> {
    if StrAt(s, x, Unpending) then
      Some(SetStr(s, x, s.strs[x].(pc := Leaving)).(relay := s.relay.(acks := s.relay.acks.Remove(x))))
    else None
  }

  /** The task ends, and its event receiver goes. */
  function LeaveStream(s: Sys, x: Uuid): Option<Sys> {
    if StrAt(s, x, Leaving) then
      var ws := if x in s.relay.ws.queues
                then s.relay.ws.(queues := s.relay.ws.queues[x := s.relay.ws.queues[x].(open := false)])
                else s.relay.ws;
      Some(SetStr(s, x, s.strs[x].(pc := StrDone)).(relay := s.relay.(ws := ws)))
    else None
  }

  // ---- the same stream at the agent ----

  predicate TaskAt(s: Sys, c: nat, x: Uuid) { c in s.conns && x in s.conns[c].tasks }

  /** The local server takes the connection, and the relay is told. */
  function TaskAcks(s: Sys, c: nat, x: Uuid, sub: Option<string>): Option<Sys> {
    if TaskAt(s, c, x) && s.conns[c].tasks[x].pc.Dialing? then
      var k := s.conns[c];
      var w := k.tasks[x];
      if k.up.open then
        Some(SetConn(s, c, SendUp(SetTask(k, x, w.(pc := Acknowledged, ack := Some(Ack(true, sub, None)))),
                                  Text(WsConnectAck(x, true, sub, None)))))
      else Some(SetConn(s, c, SetTask(k, x, w.(pc := Refusing(LINK_CLOSED)))))
    else None
  }

  function TaskDialFails(s: Sys, c: nat, x: Uuid, reason: string): Option<Sys> {
    if TaskAt(s, c, x) && s.conns[c].tasks[x].pc.Dialing? then
      Some(SetConn(s, c, SetTask(s.conns[c], x, s.conns[c].tasks[x].(pc := Refusing(reason)))))
    else None
  }

  function TaskRefuses(s: Sys, c: nat, x: Uuid): Option<Sys> {
    if TaskAt(s, c, x) && s.conns[c].tasks[x].pc.Refusing? then
      var k := s.conns[c];
      var w := k.tasks[x];
      var ack := Ack(false, None, Some(w.pc.reason));
      if k.up.open then
        Some(SetConn(s, c, SendUp(SetTask(k, x, w.(pc := Forgetting, ack := Some(ack))),
                                  Text(WsConnectAck(x, false, None, Some(w.pc.reason))))))
      else Some(SetConn(s, c, SetTask(k, x, w.(pc := Forgetting))))
    else None
  }

  function DownWs(evs: seq<DownEvent>): seq<WsEvent> {
    if evs == [] then [] else
      DownWs(evs[..|evs| - 1]) + match evs[|evs| - 1] case DWs(e) => [e] case _ => []
  }

  /** The session map gets the stream's sender. */
  function TaskListens(s: Sys, c: nat, x: Uuid): Option<Sys> {
    if TaskAt(s, c, x) && s.conns[c].tasks[x].pc.Acknowledged? then
      var k := s.conns[c];
      var missed := |DownWs(DownFor(WsId(x), k.down.Read()))|;
      Some(SetConn(s, c, SetTask(k, x, k.tasks[x].(pc := TaskServing, missed := missed))
                         .(board := k.board.(sessions := k.board.sessions[x := x],
                                             inputs := k.board.inputs[x := NewQueue()]))))
    else None
  }

  ghost function TaskTurn(s: Sys, c: nat, x: Uuid, input: Input, delivers: bool): Option<Sys> {
    if TaskAt(s, c, x) && s.conns[c].tasks[x].pc.TaskServing? && x in s.conns[c].board.inputs
       && InputReady(input, s.conns[c].board.inputs[x], x in s.conns[c].board.sessions) then
      var k := s.conns[c];
      var w := k.tasks[x];
      var turn := TakeTurn(LocalSide, w.version, x, input);
      var k' := k.(board := k.board.(inputs := k.board.inputs[x := AfterEvent(k.board.inputs[x], input)]));
      if turn.emit.Some? then
        var ev := EmittedEvent(LocalSide, input).value;
        var heard := Hear(w.heard, input);
        if k.up.open then
          Some(SetConn(s, c, SendUp(SetTask(k', x, w.(pc := if turn.stop then TaskClosing else TaskServing,
                                                     heard := heard,
                                                     said := if ev.WsFrame? then w.said + [input.m] else w.said,
                                                     closing := if ev.WsEnd? then Some(ev) else None,
                                                     hangup := HangupOf(input))),
                                    turn.emit.value)))
        else Some(SetConn(s, c, SetTask(k', x, w.(pc := TaskClosing, heard := heard, hangup := HangupOf(input)))))
      else if turn.deliver.Some? then
        if delivers then
          Some(SetConn(s, c, SetTask(k', x, w.(pc := if turn.stop then TaskClosing else TaskServing,
                                               delivered := w.delivered + [turn.deliver.value]))))
        else Some(SetConn(s, c, SetTask(k', x, w.(pc := TaskClosing))))
      else Some(SetConn(s, c, SetTask(k', x, w.(pc := TaskClosing))))
    else None
  }

  /** `drop(in_rx)`, and then the session entry goes; or, after a refusal, the entry alone. */
  function TaskDropsInput(s: Sys, c: nat, x: Uuid): Option<Sys> {
    if TaskAt(s, c, x) && s.conns[c].tasks[x].pc.TaskClosing? && x in s.conns[c].board.inputs then
      var k := s.conns[c];
      Some(SetConn(s, c, SetTask(k, x, k.tasks[x].(pc := TaskUnlisting))
                         .(board := k.board.(inputs := k.board.inputs[x := k.board.inputs[x].(open := false)]))))
    else None
  }

  function TaskUnlists(s: Sys, c: nat, x: Uuid): Option<Sys> {
    if TaskAt(s, c, x) && (s.conns[c].tasks[x].pc.TaskUnlisting? || s.conns[c].tasks[x].pc.Forgetting?) then
      var k := s.conns[c];
      Some(SetConn(s, c, SetTask(k, x, k.tasks[x].(pc := TaskDone))
                         .(board := k.board.(sessions := k.board.sessions - {x}))))
    else None
  }

  // ---- runs ----

  /** What the relay's session of a connection does, and the connection itself. */
  datatype SessionMove =
    | Connect(tunnelId: string, token: string, version: Option<byte>, caps: seq<string>)
    | Register(id: Uuid)
    | GiveUp
    | Acknowledge
    | ReadMessage
    | HandleEvent
    | Leave
    | FindsEntry(x: Uuid)
    | GoesOn
    | TakePending(x: Uuid)
    | TakeStream(x: Uuid)
    | UseSender
    | FinishCleanup
    | CloseWriter(up: bool)

  /** What the agent's reader and ping task do. */
  datatype AgentMove =
    | Join
    | Handle
    | Stop(clean: bool)
    | SendPing(ts: nat)

  /** What the relay's task for a request does, or its client. */
  datatype RequestMove =
    | Arrives(tunnelId: string)
    | SendsStart(verb: string, path: string, headers: Headers)
    | AddsEntry
    | Uploads(chunk: Bytes)
    | StopsUpload(failed: bool)
    | SendsEnd
    | TakesEvent
    | YieldsEarly
    | GivesUp(timeout: bool)
    | RemovesEntry
    | DropsReceiver
    | IsAbandoned

  /** What the agent's task for a request does, on behalf of the local server. */
  datatype LocalMove =
    | TakesBody(drop: bool)
    | Answers(status: nat, headers: Headers)
    | Produces(chunk: Bytes)
    | Fails(message: string)
    | Finishes
    | Reports

  /** What the relay's task for a stream does, or its client. */
  datatype StreamMove =
    | Opens(tunnelId: string)
    | AddsPending
    | SendsConnect(path: string, headers: Headers, subprotocols: seq<string>)
    | LosesUpgrade
    | AddsStream
    | GetsAck
    | TimesOut
    | Rejects
    | TakesTurn(input: Input, delivers: bool)
    | RemovesStream
    | RemovesPending
    | Departs

  /** What the agent's task for a stream does, on behalf of the local server. */
  datatype TaskMove =
    | Acks(sub: Option<string>)
    | DialFails(reason: string)
    | Refuses
    | Listens
    | Turns(input: Input, delivers: bool)
    | DropsInput
    | Unlists

  datatype Label =
    | OfSession(c: nat, session: SessionMove)
    | OfAgent(c: nat, agent: AgentMove)
    | OfRequest(r: Uuid, request: RequestMove)
    | OfLocal(c: nat, r: Uuid, local: LocalMove)
    | OfStream(x: Uuid, stream: StreamMove)
    | OfTask(c: nat, x: Uuid, task: TaskMove)

  ghost function SessionNext(s: Sys, c: nat, move: SessionMove): Option<Sys> {
    match move
    case Connect(tunnelId, token, version, caps) => OpenConn(s, c, tunnelId, token, version, caps)
    case Register(id) => SessionRegister(s, c, id)
    case GiveUp => SessionGiveUp(s, c)
    case Acknowledge => SessionAck(s, c)
    case ReadMessage => SessionRead(s, c)
    case HandleEvent => SessionStep(s, c)
    case Leave => SessionLeave(s, c)
    case FindsEntry(x) => FindEntry(s, c, x)
    case GoesOn => NextPhase(s, c)
    case TakePending(x) => EvictPending(s, c, x)
    case TakeStream(x) => EvictStreamEntry(s, c, x)
    case UseSender => EvictSend(s, c)
    case FinishCleanup => SessionEnd(s, c)
    case CloseWriter(up) => CloseLink(s, c, up)
  }

  ghost function AgentNext(s: Sys, c: nat, move: AgentMove): Option<Sys> {
    match move
    case Join => AgentJoin(s, c)
    case Handle => AgentRead(s, c)
    case Stop(clean) => AgentStop(s, c, clean)
    case SendPing(ts) => AgentPing(s, c, ts)
  }

  ghost function RequestNext(s: Sys, r: Uuid, move: RequestMove): Option<Sys> {
    match move
    case Arrives(tunnelId) => Arrive(s, r, tunnelId)
    case SendsStart(verb, path, headers) => SendStart(s, r, verb, path, headers)
    case AddsEntry => AddInflight(s, r)
    case Uploads(chunk) => UploadChunk(s, r, chunk)
    case StopsUpload(failed) => UploadStops(s, r, failed)
    case SendsEnd => SendEnd(s, r)
    case TakesEvent => NextEvent(s, r)
    case YieldsEarly => YieldEarly(s, r)
    case GivesUp(timeout) => ReceiveFails(s, r, timeout)
    case RemovesEntry => RemoveEntry(s, r)
    case DropsReceiver => DropReceiver(s, r)
    case IsAbandoned => Abandon(s, r)
  }

  ghost function LocalNext(s: Sys, c: nat, r: Uuid, move: LocalMove): Option<Sys> {
    match move
    case TakesBody(drop) => LocalBody(s, c, r, drop)
    case Answers(status, headers) => LocalAnswers(s, c, r, status, headers)
    case Produces(chunk) => LocalChunk(s, c, r, chunk)
    case Fails(message) => LocalFails(s, c, r, message)
    case Finishes => LocalEnds(s, c, r)
    case Reports => ReportFailure(s, c, r)
  }

  ghost function StreamNext(s: Sys, x: Uuid, move: StreamMove): Option<Sys> {
    match move
    case Opens(tunnelId) => WsArrive(s, x, tunnelId)
    case AddsPending => AddWsPending(s, x)
    case SendsConnect(path, headers, subprotocols) => SendConnect(s, x, path, headers, subprotocols)
    case LosesUpgrade => UpgradeLost(s, x)
    case AddsStream => AddWsStream(s, x)
    case GetsAck => AckArrives(s, x)
    case TimesOut => AckTimeout(s, x)
    case Rejects => RejectClient(s, x)
    case TakesTurn(input, delivers) => ClientTurn(s, x, input, delivers)
    case RemovesStream => RemoveWsStream(s, x)
    case RemovesPending => RemoveWsPending(s, x)
    case Departs => LeaveStream(s, x)
  }

  ghost function TaskNext(s: Sys, c: nat, x: Uuid, move: TaskMove): Option<Sys> {
    match move
    case Acks(sub) => TaskAcks(s, c, x, sub)
    case DialFails(reason) => TaskDialFails(s, c, x, reason)
    case Refuses => TaskRefuses(s, c, x)
    case Listens => TaskListens(s, c, x)
    case Turns(input, delivers) => TaskTurn(s, c, x, input, delivers)
    case DropsInput => TaskDropsInput(s, c, x)
    case Unlists => TaskUnlists(s, c, x)
  }

  /** The state after a step, if the step can be taken. */
  ghost function Next(s: Sys, l: Label): Option<Sys> {
    match l
    case OfSession(c, move) => SessionNext(s, c, move)
    case OfAgent(c, move) => AgentNext(s, c, move)
    case OfRequest(r, move) => RequestNext(s, r, move)
    case OfLocal(c, r, move) => LocalNext(s, c, r, move)
    case OfStream(x, move) => StreamNext(s, x, move)
    case OfTask(c, x, move) => TaskNext(s, c, x, move)
  }

  /** The state a list of steps leads to, if it is a run. */
  ghost function Run(tokens: set<string>, steps: seq<Label>): Option<Sys> {
    if steps == [] then Some(Init(tokens)) else
      match Run(tokens, steps[..|steps| - 1])
      case None => None
      case Some(s) => Next(s, steps[|steps| - 1])
  }
}
