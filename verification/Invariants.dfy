/** What holds in every reachable state: of the links, of the registry, of every request and of every stream. */
module Invariants {
  import opened Prelude
  import opened Frame
  import opened Messages
  import opened RelayState
  import opened WsTunnel
  import opened System
  import opened Views
  import SharedState
  import Ingress
  import Demux

  // ---- links ----

  /** What an agent says after its registration, in the version that the relay acks; the relay ignores none
      of it but pings, which it answers, and pongs. */
  predicate HonestUp(m: Wire) {
    match m
    case Text(HttpResponseStart(_, _, _)) => true
    case Text(HttpResponseEnd(_)) => true
    case Text(ErrorMessage(r, _, _)) => r.Some?
    case Text(WsConnectAck(_, _, _, _)) => true
    case Text(WsClose(_, _, _)) => true
    case Text(Ping(_)) => true
    case Text(Pong(_)) => true
    case Text(_) => false
    case Binary(bytes) =>
      && DecodeFrame(bytes).Ok? && bytes[0] == PROTOCOL_VERSION
      && var (header, payload) := DecodeFrame(bytes).value;
         (header.kind.ResponseBody? && !header.fin) || (header.kind.WsLocalFrame? && DecodeWsPayload(payload).Ok?)
  }

  /** What the relay says; once an agent has joined, it ignores none of it but pongs. */
  predicate HonestDown(m: Wire) {
    match m
    case Text(RegisterAck(_, _, version, _)) => version == Some(PROTOCOL_VERSION)
    case Text(HttpRequestStart(_, _, _, _)) => true
    case Text(HttpRequestEnd(_)) => true
    case Text(WsConnect(_, _, _, _)) => true
    case Text(WsClose(_, _, _)) => true
    case Text(Pong(_)) => true
    case Text(_) => false
    case Binary(bytes) =>
      && DecodeFrame(bytes).Ok?
      && var (header, payload) := DecodeFrame(bytes).value;
         (header.kind.RequestBody? && !header.fin) || (header.kind.WsClientFrame? && DecodeWsPayload(payload).Ok?)
  }

  predicate IsRegistration(m: Wire) { m.Text? && m.msg.RegisterAgent? }

  predicate UpHonest(log: seq<Wire>) {
    && log != [] && IsRegistration(log[0])
    && forall i | 1 <= i < |log| :: HonestUp(log[i])
  }

  predicate DownHonest(log: seq<Wire>) { forall i | 0 <= i < |log| :: HonestDown(log[i]) }

  predicate Versioned(m: Wire, version: byte) { m.Binary? ==> m.bytes != [] && m.bytes[0] == version }

  /** The version the agent of a connection registered with. */
  function RegVersion(k: Conn): byte {
    if k.up.sent != [] && IsRegistration(k.up.sent[0])
    then k.up.sent[0].msg.protocolVersion.GetOr(LEGACY_PROTOCOL_VERSION) else LEGACY_PROTOCOL_VERSION
  }

  /** The relay speaks to each agent in the version it registered with. */
  predicate DownVersioned(k: Conn) { forall i | 0 <= i < |k.down.sent| :: Versioned(k.down.sent[i], RegVersion(k)) }

  predicate IsAck(m: Wire) { m.Text? && m.msg.RegisterAck? }

  predicate NoAck(log: seq<Wire>) { forall i | 0 <= i < |log| :: !IsAck(log[i]) }

  /** The relay acks once, when the session has registered or is refused, and `ok` exactly if it has; an agent
      that runs has read an accepting ack, and read it first. */
  predicate AckOk(k: Conn) {
    && (k.session.Opened? || k.session.Registered? ==> NoAck(k.down.sent))
    && (forall i, j | 0 <= i < j < |k.down.sent| :: !IsAck(k.down.sent[i]) || !IsAck(k.down.sent[j]))
    && (forall i | 0 <= i < |k.down.sent| && IsAck(k.down.sent[i]) :: k.down.sent[i].msg.ok <==> k.epoch > 0)
    && (k.down.sent != [] ==> k.down.sent[0].Text?)
    && (k.agent.Running? ==> k.down.got > 0 && k.down.sent != [] && IsAck(k.down.sent[0]) && k.down.sent[0].msg.ok)
  }

  /** What the relay may say at any time. */
  predicate Sendable(k: Conn, m: Wire) {
    Versioned(m, RegVersion(k)) && !IsAck(m) && (m.Binary? ==> k.down.sent != [])
  }

  predicate JobFits(j: Job) {
    j.Job? ==>
      && j.todo != [] && !j.t.NoTarget? && !j.stage.Over? && (j.todo[0].UAck? ==> !j.stage.Forget?)
      && forall i | 0 <= i < |j.todo| :: Demux.Fits(j.t, j.todo[i])
  }

  ghost predicate ConnOk(k: Conn) {
    && LinksOk(k) && UpHonest(k.up.sent) && DownHonest(k.down.sent) && DownVersioned(k) && AckOk(k)
    && JobFits(k.job)
    && (k.session.Live? || k.job.NoJob?)
    && (!k.session.Opened? && !k.session.Closed? ==> k.up.got > 0)
    && (k.session.Opened? ==> k.epoch == 0) && (k.session.Registered? ==> k.epoch > 0)
    && (k.agent.Joining? ==> k.down.got == 0)
    && (k.agent.Running? ==> k.agent.version == PROTOCOL_VERSION)
    && (forall r <- k.proxies :: k.proxies[r].version == PROTOCOL_VERSION)
    && (forall x <- k.tasks :: k.tasks[x].version == PROTOCOL_VERSION)
  }

  ghost predicate WireInv(s: Sys) { forall c <- s.conns :: ConnOk(s.conns[c]) }

  // ---- the registry ----

  predicate Owning(k: Conn) { k.session.Registered? || k.session.Live? }

  /** The registration `k` sent was for tunnel `t` with a known token, and is what handle `h` records. */
  ghost predicate RegisteredAs(s: Sys, k: Conn, t: string, h: AgentHandle) {
    && Owning(k) && k.tunnel == t && k.id == h.connectionId && k.epoch > 0
    && SharedState.IsValidTunnelId(t) && IsSupported(h.protocolVersion)
    && k.up.sent != [] && IsRegistration(k.up.sent[0])
    && var reg := k.up.sent[0].msg;
       && reg.tunnelId == t && reg.token in s.tokens
       && reg.protocolVersion.GetOr(LEGACY_PROTOCOL_VERSION) == h.protocolVersion
       && h.capabilities == set cap | cap in reg.capabilities
  }

  /** The lock is held by the one session that cleans up, whose tunnel is then free. */
  ghost predicate LockInv(s: Sys) {
    && (s.lock.Held? ==> s.lock.conn in s.conns && s.conns[s.lock.conn].session.Cleaning?
                         && s.lock.sweep.tunnelId == s.conns[s.lock.conn].tunnel
                         && s.conns[s.lock.conn].tunnel !in s.relay.agents && s.conns[s.lock.conn].epoch > 0)
    && (forall c <- s.conns :: s.conns[c].session.Cleaning? ==> s.lock.Held? && s.lock.conn == c)
  }

  /** What clean-up has found is of its own tunnel. */
  ghost predicate IdsInv(s: Sys) {
    s.lock.Held? && s.lock.conn in s.conns ==>
      forall x <- s.lock.sweep.phase.ids :: x in s.strs && s.strs[x].tunnel == s.conns[s.lock.conn].tunnel
  }

  /** Every entry is that of a session that owns it ... */
  ghost predicate EntriesInv(s: Sys) {
    forall t <- s.relay.agents :: s.relay.agents[t].sender in s.conns
                                  && RegisteredAs(s, s.conns[s.relay.agents[t].sender], t, s.relay.agents[t])
  }

  /** ... and every session that owns a tunnel has its entry. */
  ghost predicate OwnersInv(s: Sys) {
    forall c <- s.conns :: Owning(s.conns[c]) ==>
      s.conns[c].tunnel in s.relay.agents && s.relay.agents[s.conns[c].tunnel].sender == c
  }

  /** Registrations are numbered in order, and their connection ids are their own. */
  ghost predicate EpochsInv(s: Sys) {
    && s.nextEpoch > 0
    && (forall c <- s.conns :: s.conns[c].epoch < s.nextEpoch)
    && (forall c, d | c in s.conns && d in s.conns && c != d && s.conns[c].epoch > 0 && s.conns[d].epoch > 0 ::
          s.conns[c].epoch != s.conns[d].epoch && s.conns[c].id != s.conns[d].id)
  }

  /** The owner of a tunnel, or the session cleaning up after having been. */
  predicate Current(k: Conn) { Owning(k) || k.session.Cleaning? }

  /** No registration of a tunnel is later than that of its owner, or of the session cleaning up. */
  ghost predicate LatestInv(s: Sys) {
    forall c, d | c in s.conns && d in s.conns && Current(s.conns[c]) && s.conns[d].epoch > 0
                  && s.conns[d].tunnel == s.conns[c].tunnel :: s.conns[d].epoch <= s.conns[c].epoch
  }

  /** A connection that was registered for the tunnel, in this version. */
  predicate Routed(k: Conn, tunnel: string, version: byte) {
    k.epoch > 0 && k.tunnel == tunnel && k.up.sent != [] && RegVersion(k) == version
  }

  /** Requests and streams go to a connection that was registered for their tunnel, in its version. */
  ghost predicate RoutesInv(s: Sys) {
    && (forall r <- s.reqs :: s.reqs[r].conn in s.conns
                              && Routed(s.conns[s.reqs[r].conn], s.reqs[r].tunnel, s.reqs[r].version))
    && (forall x <- s.strs :: s.strs[x].conn in s.conns
                              && Routed(s.conns[s.strs[x].conn], s.strs[x].tunnel, s.strs[x].version))
  }

  ghost predicate RegInv(s: Sys) {
    LockInv(s) && IdsInv(s) && EntriesInv(s) && OwnersInv(s) && EpochsInv(s) && LatestInv(s) && RoutesInv(s)
  }

  // ---- requests ----

  /** What a proxy task has said. */
  function Said(p: Proxy): seq<UpEvent> {
    (if p.start.Some? then [UHttp(p.start.value)] + BodyEvents(p.emitted) else [])
      + (if p.last.Some? then [UHttp(p.last.value)] else [])
  }

  predicate ProxyOk(p: Proxy) {
    && (p.start.Some? ==> p.start.value.Start?)
    && (p.start.None? ==> p.emitted == [] && p.produced == [])
    && (p.last.Some? ==> p.last.value.IsTerminal() && p.pc.ProxyDone?)
    && (p.pc.Requesting? ==> p.start.None?)
    && p.emitted <= NonEmpty(p.produced)
    && (p.pc.Relaying? || p.last == Some(RelayEvent.End) ==> p.start.Some? && p.emitted == NonEmpty(p.produced))
  }

  /** What the relay has said about a request. */
  function Asked(q: Req): seq<DownEvent> {
    if q.start.None? then [] else [q.start.value] + BodyDowns(q.sent) + if q.ended then [DEnd] else []
  }

  predicate ReqOk(q: Req) {
    && IsSupported(q.version)
    && (q.start.Some? ==> q.start.value.DStart?)
    && (q.start.None? ==> q.sent == [] && !q.ended && q.upload == [])
    && (q.pc.Starting? ==> q.start.None?)
    && (!q.pc.Starting? && !q.pc.ReqDone? ==> q.start.Some?)
    && q.sent <= NonEmpty(q.upload)
    && (q.ended || q.pc.Uploading? || q.pc.Ending? || q.pc.Adding? ==> q.sent == NonEmpty(q.upload))
    && (q.pc.Awaiting? || q.pc.Streaming? ==> q.ended)
    && (q.pc.Starting? || q.pc.Adding? || q.pc.Uploading? || q.pc.Ending? ==> !q.ended)
    && (q.pc.Adding? ==> q.upload == [])
  }

  /** The body chunks among what an agent has read. */
  function Chunks(evs: seq<DownEvent>): seq<Bytes> {
    if evs == [] then [] else
      Chunks(evs[..|evs| - 1]) + match evs[|evs| - 1] case DBody(b) => [b] case _ => []
  }

  ghost predicate AgentOk(r: Uuid, at: HttpAt) {
    && (at.proxy.None? ==> at.traffic.up == [] && at.listed.None? && at.body.None?)
    && (at.running && at.traffic.downGot != [] ==> at.proxy.Some?)
    && (at.listed.Some? ==> at.listed.value == r && at.running && DEnd !in at.traffic.downGot)
    && (at.proxy.Some? ==>
          && at.traffic.up == Said(at.proxy.value) && ProxyOk(at.proxy.value)
          && at.traffic.downGot != [] && at.proxy.value.asked == at.traffic.downGot[0] && at.body.Some?
          && BodyOk(at.body.value, Chunks(at.traffic.downGot))
          && (at.running && at.body.value.open && DEnd !in at.traffic.downGot ==> at.listed.Some?))
  }

  predicate BodyOk(b: Queue<Bytes>, chunks: seq<Bytes>) {
    && b.taken <= |b.sent| && b.sent <= chunks
    && (b.open ==> b.sent == chunks)
  }

  function HttpEvents(evs: seq<UpEvent>): (out: seq<RelayEvent>)
    ensures |out| == |evs|
  {
    seq(|evs|, i requires 0 <= i < |evs| => if evs[i].UHttp? then evs[i].ev else RelayEvent.End)
  }

  /** The session has come to the end of what the agent says about the request. */
  predicate Ends(evs: seq<UpEvent>) {
    evs != [] && evs[|evs| - 1].UHttp? && evs[|evs| - 1].ev.IsTerminal()
  }

  /** The request's task still wants its events. */
  predicate Holding(pc: ReqPc) {
    pc.Uploading? || pc.Ending? || pc.Awaiting? || pc.Streaming? || pc.Removing?
  }

  /** What is still to be handled is the end of what was read. */
  predicate TodoOk(tr: Traffic) {
    && |tr.todo| <= 1 && |tr.todo| <= |tr.got| && tr.todo == tr.got[|tr.got| - |tr.todo|..]
    && (tr.todo == [] ==> tr.stage.Fresh?) && !tr.stage.Over?
  }

  /** Nothing is lost between the session and the channel from the moment the entry is added. */
  predicate Intact(sent: seq<RelayEvent>, missed: nat, tr: Traffic) {
    missed <= |tr.got| && sent + HttpEvents(tr.todo) == HttpEvents(tr.got)[missed..]
  }

  predicate ChanOk(r: Uuid, q: Req, entry: Option<Uuid>, chan: Option<Queue<RelayEvent>>, tr: Traffic) {
    && TodoOk(tr)
    && (chan.None? ==> entry.None? && tr.stage.Fresh? && (q.pc.Starting? || q.pc.Adding? || q.pc.ReqDone?))
    && (chan.Some? ==>
          && !q.pc.Starting? && !q.pc.Adding?
          && q.missed <= |tr.got| && chan.value.taken <= |chan.value.sent|
          && (entry.Some? ==> entry.value == r) && (tr.stage.HaveSender? ==> tr.stage.chan == r)
          && chan.value.sent <= HttpEvents(tr.got)[q.missed..]
          && (chan.value.open && (entry.Some? || tr.stage.HaveSender?) ==> Intact(chan.value.sent, q.missed, tr))
          && (Holding(q.pc) ==>
                && chan.value.open && Intact(chan.value.sent, q.missed, tr)
                && (entry.None? ==>
                      q.missed < |tr.got| && Ends(tr.got) && (tr.todo == [] || tr.stage.HaveSender?)))
          && (tr.stage.Forget? ==> !chan.value.open)
          && (tr.stage.HaveSender? && tr.todo != [] && tr.todo[0].UHttp? && tr.todo[0].ev.IsTerminal() ==> entry.None?)
          && (q.pc.Dropping? || q.pc.ReqDone? ==> entry.None?)
          && (q.pc.ReqDone? || q.pc.Abandoned? ==> !chan.value.open))
  }

  predicate LoopOk(q: Req, chan: Option<Queue<RelayEvent>>) {
    && (chan.None? ==> q.loop == Ingress.Waiting([]))
    && (chan.Some? ==>
          && chan.value.taken <= |chan.value.sent|
          && q.loop == Ingress.Replay(chan.value.sent[..chan.value.taken]))
    && (q.pc.Starting? || q.pc.Adding? || q.pc.Uploading? || q.pc.Ending? || q.pc.Awaiting? ==> q.loop.Waiting?)
    && (q.pc.Uploading? || q.pc.Ending? ==> chan.Some? ==> chan.value.taken == 0)
    && (q.pc.Streaming? ==> q.loop.Responding?)
    && (match q.loop
        case Responding(_, _, body) => q.yielded <= |body|
        case Shut(_, _, body, _) => q.yielded == |body|
        case _ => q.yielded == 0)
  }

  ghost predicate HttpLocal(r: Uuid, q: Req, entry: Option<Uuid>, chan: Option<Queue<RelayEvent>>, at: HttpAt) {
    && ReqOk(q) && at.traffic.down == Asked(q) && AgentOk(r, at)
    && ChanOk(r, q, entry, chan, at.traffic) && LoopOk(q, chan)
  }

  predicate NoHttp(at: HttpAt) {
    && at.traffic.up == [] && at.traffic.down == [] && at.traffic.todo == []
    && at.proxy.None? && at.listed.None? && at.body.None?
  }

  ghost predicate HttpOk(s: Sys, r: Uuid, c: nat)
    requires c in s.conns
  {
    if r in s.reqs && s.reqs[r].conn == c
    then HttpLocal(r, s.reqs[r], Get(s.relay.http.entries, r), Get(s.relay.http.queues, r), HttpOf(s.conns[c], r))
    else NoHttp(HttpOf(s.conns[c], r))
  }

  ghost predicate HttpInv(s: Sys) {
    && (forall r <- s.reqs :: s.reqs[r].conn in s.conns)
    && (forall r: Uuid | r !in s.reqs :: r !in s.relay.http.entries && r !in s.relay.http.queues)
    && (forall r: Uuid, c: nat | c in s.conns :: HttpOk(s, r, c))
  }

  // ---- streams ----

  function WsDowns(evs: seq<WsEvent>): (out: seq<DownEvent>)
    ensures |out| == |evs|
  {
    seq(|evs|, i requires 0 <= i < |evs| => DWs(evs[i]))
  }

  function WsUps(evs: seq<WsEvent>): (out: seq<UpEvent>)
    ensures |out| == |evs|
  {
    seq(|evs|, i requires 0 <= i < |evs| => UWs(evs[i]))
  }

  function AsList<T>(o: Option<T>): seq<T> { if o.Some? then [o.value] else [] }

  /** What an end has said of a stream: its socket's messages, and a close at most. */
  function Talk(said: seq<WsMessage>, closing: Option<WsEvent>): seq<WsEvent> { EventsFor(said) + AsList(closing) }

  predicate TalkOk(said: seq<WsMessage>, closing: Option<WsEvent>) {
    (forall i | 0 <= i < |said| :: IsData(said[i])) && (closing.Some? ==> closing.value.WsEnd?)
  }

  /** A close is put on the link for how the socket ended. */
  predicate ClosingOk(side: Side, closing: Option<WsEvent>, hangup: Option<Hangup>) {
    closing.Some? ==> hangup.Some? && closing.value == HangupEvent(side, hangup.value)
  }

  /** What the relay has said about a stream. */
  function Called(w: Str): seq<DownEvent> {
    if w.connect.None? then [] else [w.connect.value] + WsDowns(Talk(w.said, w.closing))
  }

  predicate StrOk(w: Str) {
    && IsSupported(w.version) && TalkOk(w.said, w.closing) && w.said <= w.heard
    && ClosingOk(ClientSide, w.closing, w.hangup)
    && (w.pc.Upgrading? || w.pc.AwaitingAck? || w.pc.Serving? ==> w.said == w.heard)
    && (w.connect.Some? ==> w.connect.value.DConnect?)
    && (w.connect.None? ==> w.said == w.heard == [] && w.closing.None?)
    && (w.pc.Beginning? || w.pc.Pending? ==> w.connect.None?)
    && (w.pc.Upgrading? || w.pc.AwaitingAck? || w.pc.Serving? ==> w.connect.Some?)
    && (w.pc.Upgrading? || w.pc.AwaitingAck? ==> w.said == [])
    && (w.pc.Upgrading? || w.pc.AwaitingAck? || w.pc.Serving? ==> w.closing.None?)
  }

  /** What a stream task has said. */
  function Replied(t: WsTask): seq<UpEvent> {
    if t.ack.None? then [] else [UAck(t.ack.value)] + WsUps(Talk(t.said, t.closing))
  }

  predicate TaskOk(t: WsTask) {
    && TalkOk(t.said, t.closing) && t.said <= t.heard && ClosingOk(LocalSide, t.closing, t.hangup)
    && (t.pc.Dialing? || t.pc.Acknowledged? || t.pc.TaskServing? ==> t.said == t.heard)
    && (t.ack.None? || !t.ack.value.ok ==> t.said == [] && t.closing.None?)
    && (t.pc.Dialing? || t.pc.Refusing? ==> t.ack.None?)
    && (t.pc.Acknowledged? || t.pc.TaskServing? ==> t.ack.Some? && t.ack.value.ok && t.closing.None?)
    && (t.pc.Acknowledged? ==> t.said == [])
  }

  /** The relay's maps and channels, as far as one stream is concerned. */
  datatype WsHere = WsHere(pend: Option<WsPending>, shot: Option<seq<Resolution>>, entry: Option<WsStreamHandle>,
                           chan: Option<Queue<WsEvent>>, evict: Evicting)

  function EvictOf(lock: Lock, x: Uuid): Evicting {
    if lock.Held? && !lock.evicting.NoEvict? && lock.evicting.x == x then lock.evicting else NoEvict
  }

  /** The slots of `x` in the relay's state. */
  function Here(v: Relay, x: Uuid, evict: Evicting): WsHere {
    WsHere(Get(v.acks.entries, x), Get(v.acks.shots, x), Get(v.ws.entries, x), Get(v.ws.queues, x), evict)
  }

  function HereOf(s: Sys, x: Uuid): WsHere { Here(s.relay, x, EvictOf(s.lock, x)) }

  predicate HoldsAck(tr: Traffic) { tr.todo != [] && tr.todo[0].UAck? && tr.stage.HaveSender? }

  predicate HoldsWs(tr: Traffic) { tr.todo != [] && tr.todo[0].UWs? && tr.stage.HaveSender? }

  /** Where the sending half of the one-shot is: in the map, with a session, with the session that cleans
      up, or used. */
  function Tokens(h: WsHere, tr: Traffic): nat {
    (if h.pend.Some? then 1 else 0) + (if HoldsAck(tr) then 1 else 0) + (if h.evict.EvictAck? then 1 else 0)
      + (if h.shot.Some? then |h.shot.value| else 0)
  }

  predicate Accepted(h: WsHere) {
    h.shot.Some? && |h.shot.value| == 1 && h.shot.value[0].Acked? && h.shot.value[0].ack.ok
  }

  predicate ShotOk(x: Uuid, w: Str, h: WsHere, tr: Traffic) {
    && (h.shot.None? <==> w.pc.Beginning?)
    && Tokens(h, tr) == (if h.shot.Some? then 1 else 0)
    && (h.pend.Some? ==> h.pend.value == WsPending(w.tunnel, x))
    && (HoldsAck(tr) ==> tr.stage.chan == x)
    && (h.evict.EvictAck? ==> h.evict.tx == x)
    && (Accepted(h) ==> tr.got != [] && tr.got[0] == UAck(h.shot.value[0].ack))
    && (w.said != [] || w.closing.Some? || w.pc.Serving? ==> Accepted(h))
  }

  /** A pending entry outlives its task only if the upgrade was lost, before the stream was added. */
  predicate PendOk(w: Str, h: WsHere) {
    h.pend.Some? ==> !w.pc.Leaving? && (w.pc.StrDone? ==> w.connect.Some? && h.chan.None?)
  }

  predicate AllFrames(evs: seq<WsEvent>) { forall i | 0 <= i < |evs| :: evs[i].WsFrame? }

  predicate WsEnds(evs: seq<UpEvent>) {
    evs != [] && evs[|evs| - 1].UWs? && evs[|evs| - 1].ws.WsEnd?
  }

  /** The client's task has added its entry and not yet taken it out. */
  predicate Listening(pc: StrPc) { pc.AwaitingAck? || pc.Serving? || pc.Rejecting? || pc.Unstreaming? }

  /** No frame or close is lost between the session and the channel once the entry is added. */
  predicate WsIntact(sent: seq<WsEvent>, missed: nat, tr: Traffic) {
    missed <= |WsEvents(tr.got)| && sent + WsEvents(tr.todo) == WsEvents(tr.got)[missed..]
  }

  predicate EventsOk(x: Uuid, w: Str, h: WsHere, at: WsAt) {
    var tr := at.traffic;
    && TodoOk(tr)
    && (w.evicted ==> at.over && tr.todo == [] && h.entry.None? && h.chan.Some?)
    && (h.evict.EvictStream? ==> w.evicted && h.evict.chan == x)
    && (h.chan.None? ==> h.entry.None? && !HoldsWs(tr) && !tr.stage.Forget? && !Listening(w.pc))
    && (h.chan.Some? ==>
          && !w.pc.Beginning? && !w.pc.Pending? && !w.pc.Upgrading?
          && w.missed <= |WsEvents(tr.got)| && h.chan.value.taken <= |h.chan.value.sent|
          && (h.entry.Some? ==> h.entry.value == WsStreamHandle(w.tunnel, x))
          && (HoldsWs(tr) ==> tr.stage.chan == x && (tr.todo[0].ws.WsEnd? ==> h.entry.None?))
          && QueueOk(w, h, tr)
          && (tr.stage.Forget? ==> !h.chan.value.open)
          && (w.pc.Unpending? || w.pc.Leaving? || w.pc.StrDone? ==> h.entry.None?)
          && (w.pc.StrDone? ==> !h.chan.value.open))
  }

  predicate QueueOk(w: Str, h: WsHere, tr: Traffic)
    requires h.chan.Some? && w.missed <= |WsEvents(tr.got)|
  {
    var sent, heard := h.chan.value.sent, WsEvents(tr.got)[w.missed..];
    && (!w.evicted || h.evict.EvictStream? ==> sent <= heard)
    && (w.evicted ==> sent <= heard + [SharedState.DisconnectClose()])
    && (forall i | 0 <= i < |sent| - 1 :: sent[i].WsFrame?)
    && (h.chan.value.open && (h.entry.Some? || HoldsWs(tr)) ==> WsIntact(sent, w.missed, tr))
    && (h.chan.value.open && h.evict.EvictStream? ==> sent == heard)
    && (h.entry.Some? || HoldsWs(tr) || h.evict.EvictStream? ==> AllFrames(sent))
    && (Listening(w.pc) && !w.evicted ==>
          && h.chan.value.open && WsIntact(sent, w.missed, tr)
          && (h.entry.None? ==> WsEnds(tr.got) && (tr.todo == [] || HoldsWs(tr))))
    && (Listening(w.pc) ==> h.chan.value.open)
  }

  function ToClients(evs: seq<WsEvent>): (out: seq<WsMessage>)
    ensures |out| == |evs|
  {
    seq(|evs|, i requires 0 <= i < |evs| => ToClient(evs[i]))
  }

  function ToLocals(evs: seq<WsEvent>): (out: seq<WsMessage>)
    ensures |out| == |evs|
  {
    seq(|evs|, i requires 0 <= i < |evs| => ToLocal(evs[i]))
  }

  predicate DeliveredOk(w: Str, chan: Option<Queue<WsEvent>>) {
    && (chan.None? ==> w.delivered == [])
    && (chan.Some? ==>
          && chan.value.taken <= |chan.value.sent|
          && w.delivered <= ToClients(chan.value.sent[..chan.value.taken])
          && (w.pc.AwaitingAck? || w.pc.Serving? ==> w.delivered == ToClients(chan.value.sent[..chan.value.taken])))
  }

  predicate TaskSide(x: Uuid, at: WsAt) {
    var tr := at.traffic;
    && (tr.downGot == [] ==> at.task.None? && tr.up == [])
    && (at.task.None? ==>
          && at.listed.None? && at.input.None?
          && (tr.up == [] || (|tr.up| == 1 && tr.up[0].UAck? && !tr.up[0].ack.ok)))
    && (at.listed.Some? ==> at.listed.value == x && at.input.Some?)
    && (at.task.Some? ==>
          && tr.downGot != [] && at.task.value.asked == tr.downGot[0]
          && tr.up == Replied(at.task.value) && TaskOk(at.task.value) && InputOk(at))
  }

  predicate InputOk(at: WsAt)
    requires at.task.Some?
  {
    var t, heard := at.task.value, DownWs(at.traffic.downGot);
    && (t.pc.TaskServing? || t.pc.TaskClosing? ==> at.input.Some? && at.input.value.open)
    && (t.pc.Dialing? || t.pc.Acknowledged? || t.pc.Refusing? || t.pc.Forgetting? ==> at.input.None?)
    && (at.input.None? ==> t.delivered == [])
    && (at.input.Some? ==>
          var q := at.input.value;
          && t.missed <= |heard| && q.taken <= |q.sent|
          && q.sent <= heard[t.missed..]
          && (q.open ==> q.sent == heard[t.missed..])
          && (q.open && at.running ==> at.listed.Some?)
          && (q.open ==> t.pc.TaskServing? || t.pc.TaskClosing?)
          && t.delivered <= ToLocals(q.sent[..q.taken])
          && (t.pc.TaskServing? ==> t.delivered == ToLocals(q.sent[..q.taken])))
  }

  ghost predicate WsLocal(x: Uuid, w: Str, h: WsHere, at: WsAt) {
    && StrOk(w) && at.traffic.down == Called(w)
    && ShotOk(x, w, h, at.traffic) && PendOk(w, h) && EventsOk(x, w, h, at) && DeliveredOk(w, h.chan) && TaskSide(x, at)
  }

  predicate NoWs(at: WsAt) {
    && at.traffic.up == [] && at.traffic.down == [] && at.traffic.todo == []
    && at.task.None? && at.listed.None? && at.input.None?
  }

  ghost predicate WsOk(s: Sys, x: Uuid, c: nat)
    requires c in s.conns
  {
    if x in s.strs && s.strs[x].conn == c then WsLocal(x, s.strs[x], HereOf(s, x), WsOf(s.conns[c], x))
    else NoWs(WsOf(s.conns[c], x))
  }

  const NOWHERE: WsHere := WsHere(None, None, None, None, NoEvict)

  ghost predicate WsInv(s: Sys) {
    && (forall x <- s.strs :: s.strs[x].conn in s.conns)
    && (forall x: Uuid | x !in s.strs :: HereOf(s, x) == NOWHERE)
    && (forall x: Uuid, c: nat | c in s.conns :: WsOk(s, x, c))
  }

  ghost predicate Inv(s: Sys) { WireInv(s) && RegInv(s) && HttpInv(s) && WsInv(s) }
}
