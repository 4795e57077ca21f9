/** The relay's shared state, crates/relay-server/src/state.rs, as values: the agent registry, the
    three maps of open requests and streams, and the channels their senders lead to. */
module RelayState {
  import opened Prelude
  import opened Messages

  /** A channel: everything ever accepted on it, how much of that has been received, and whether
      the receiver is still there. */
  datatype Queue<T> = Queue(sent: seq<T>, taken: nat, open: bool)

  function NewQueue<T>(): Queue<T> { Queue([], 0, true) }

  datatype AgentHandle =
    AgentHandle(connectionId: Uuid, sender: nat, capabilities: set<string>, protocolVersion: byte)

  /** What a session does with an event whose sender it has looked up: go on to the next event, or
      keep at this one. */
  datatype Stage = Fresh | HaveSender(chan: Uuid) | Forget | Over

  // ---- inflight and its event channels ----

  datatype HttpBoard = HttpBoard(entries: map<Uuid, Uuid>, queues: map<Uuid, Queue<RelayEvent>>) {
    /** Senders lead to existing channels and no two entries share one. */
    ghost predicate Sound() {
      && (forall r <- entries :: entries[r] in queues)
      && (forall r, q | r in entries && q in entries && r != q :: entries[r] != entries[q])
    }

    predicate Open(ch: Uuid) { ch in queues && queues[ch].open }

    function Add(r: Uuid, ch: Uuid): HttpBoard { this.(entries := entries[r := ch]) }

    function Drop(r: Uuid): HttpBoard { this.(entries := entries - {r}) }

    function Send(ch: Uuid, ev: RelayEvent): HttpBoard {
      if Open(ch) then this.(queues := queues[ch := queues[ch].(sent := queues[ch].sent + [ev])]) else this
    }

    /** notify_start and notify_body: look up, send, and forget the id if the receiver is gone. */
    function Notify(r: Uuid, ev: RelayEvent): HttpBoard {
      if r !in entries then this else if Open(entries[r]) then Send(entries[r], ev) else Drop(r)
    }

    /** notify_end and notify_error: take the entry out, then send on its channel. */
    function Finish(r: Uuid, ev: RelayEvent): HttpBoard {
      if r !in entries then this else Drop(r).Send(entries[r], ev)
    }

    function Apply(r: Uuid, ev: RelayEvent): HttpBoard {
      if ev.IsTerminal() then Finish(r, ev) else Notify(r, ev)
    }

    /** One map or queue operation of `Apply`; other tasks may run between two of these. */
    function Step(r: Uuid, ev: RelayEvent, stage: Stage): (HttpBoard, Stage) {
      match stage
      case Fresh =>
        if r !in entries then (this, Over)
        else (if ev.IsTerminal() then Drop(r) else this, HaveSender(entries[r]))
      case HaveSender(ch) =>
        if Open(ch) then (Send(ch, ev), Over) else (this, if ev.IsTerminal() then Over else Forget)
      case Forget => (Drop(r), Over)
      case Over => (this, Over)
    }
  }

  // ---- ws_pending and its one-shots ----

  datatype WsPending = WsPending(tunnelId: string, tx: Uuid)

  datatype Resolution = Acked(ack: Ack) | Dropped

  /** A one-shot is the log of what its sending half did. */
  datatype AckBoard = AckBoard(entries: map<Uuid, WsPending>, shots: map<Uuid, seq<Resolution>>) {
    ghost predicate Sound() {
      && (forall x <- entries :: entries[x].tx in shots)
      && (forall x, y | x in entries && y in entries && x != y :: entries[x].tx != entries[y].tx)
    }

    function Add(x: Uuid, tunnelId: string, tx: Uuid): AckBoard {
      this.(entries := entries[x := WsPending(tunnelId, tx)])
    }

    function Drop(x: Uuid): AckBoard { this.(entries := entries - {x}) }

    function Resolve(tx: Uuid, res: Resolution): AckBoard {
      if tx in shots then this.(shots := shots[tx := shots[tx] + [res]]) else this
    }

    /** remove_ws_pending: the sender goes with its entry, unused. */
    function Remove(x: Uuid): AckBoard {
      if x !in entries then this else Drop(x).Resolve(entries[x].tx, Dropped)
    }

    function Apply(x: Uuid, ack: Ack): AckBoard {
      if x !in entries then this else Drop(x).Resolve(entries[x].tx, Acked(ack))
    }

    function Step(x: Uuid, ack: Ack, stage: Stage): (AckBoard, Stage) {
      match stage
      case Fresh => if x !in entries then (this, Over) else (Drop(x), HaveSender(entries[x].tx))
      case HaveSender(tx) => (Resolve(tx, Acked(ack)), Over)
      case _ => (this, Over)
    }
  }

  // ---- ws_streams and its event channels ----

  datatype WsStreamHandle = WsStreamHandle(tunnelId: string, sender: Uuid)

  datatype WsBoard = WsBoard(entries: map<Uuid, WsStreamHandle>, queues: map<Uuid, Queue<WsEvent>>) {
    ghost predicate Sound() {
      && (forall x <- entries :: entries[x].sender in queues)
      && (forall x, y | x in entries && y in entries && x != y :: entries[x].sender != entries[y].sender)
    }

    predicate Open(ch: Uuid) { ch in queues && queues[ch].open }

    function Add(x: Uuid, tunnelId: string, ch: Uuid): WsBoard {
      this.(entries := entries[x := WsStreamHandle(tunnelId, ch)])
    }

    function Drop(x: Uuid): WsBoard { this.(entries := entries - {x}) }

    function Send(ch: Uuid, ev: WsEvent): WsBoard {
      if Open(ch) then this.(queues := queues[ch := queues[ch].(sent := queues[ch].sent + [ev])]) else this
    }

    /** notify_ws_frame, and notify_ws_close for the closing event. */
    function Apply(x: Uuid, ev: WsEvent): WsBoard {
      if x !in entries then this
      else if ev.WsEnd? then Drop(x).Send(entries[x].sender, ev)
      else if Open(entries[x].sender) then Send(entries[x].sender, ev)
      else Drop(x)
    }

    function Step(x: Uuid, ev: WsEvent, stage: Stage): (WsBoard, Stage) {
      match stage
      case Fresh =>
        if x !in entries then (this, Over)
        else (if ev.WsEnd? then Drop(x) else this, HaveSender(entries[x].sender))
      case HaveSender(ch) =>
        if Open(ch) then (Send(ch, ev), Over) else (this, if ev.WsEnd? then Over else Forget)
      case Forget => (Drop(x), Over)
      case Over => (this, Over)
    }
  }

  // ---- the whole state ----

  datatype Relay = Relay(agents: map<string, AgentHandle>, http: HttpBoard, acks: AckBoard, ws: WsBoard) {
    ghost predicate Sound() { http.Sound() && acks.Sound() && ws.Sound() }

    /** One event of a message of the request or stream `id`. */
    function Apply(id: Uuid, ev: UpEvent): Relay {
      match ev
      case UHttp(e) => this.(http := http.Apply(id, e))
      case UAck(ack) => this.(acks := acks.Apply(id, ack))
      case UWs(e) => this.(ws := ws.Apply(id, e))
    }

    function Step(id: Uuid, ev: UpEvent, stage: Stage): (Relay, Stage) {
      match ev
      case UHttp(e) => var (b, s) := http.Step(id, e, stage); (this.(http := b), s)
      case UAck(ack) => var (b, s) := acks.Step(id, ack, stage); (this.(acks := b), s)
      case UWs(e) => var (b, s) := ws.Step(id, e, stage); (this.(ws := b), s)
    }

    function ApplyAll(id: Uuid, evs: seq<UpEvent>): Relay {
      if evs == [] then this else ApplyAll(id, evs[..|evs| - 1]).Apply(id, evs[|evs| - 1])
    }

    /** A whole message from an agent. */
    function Handle(m: Wire): Relay {
      if TargetOf(m).NoTarget? then this else ApplyAll(TargetOf(m).id, UpOf(m))
    }

    function HandleAll(msgs: seq<Wire>): Relay {
      if msgs == [] then this else HandleAll(msgs[..|msgs| - 1]).Handle(msgs[|msgs| - 1])
    }

    /** fail_ws_pending_for_tunnel and close_ws_for_tunnel, with no other task in between. */
    function Evict(tunnelId: string, ack: Ack, close: WsEvent): Relay {
      this.(acks := ResolveAll(acks, MatchingPending(acks, tunnelId), ack),
            ws := CloseAll(ws, MatchingStreams(ws, tunnelId), close))
    }
  }

  function StageRank(s: Stage): nat {
    match s case Fresh => 3 case HaveSender(_) => 2 case Forget => 1 case Over => 0
  }

  lemma StepAdvances(v: Relay, id: Uuid, ev: UpEvent, stage: Stage)
    requires !stage.Over?
    ensures StageRank(v.Step(id, ev, stage).1) < StageRank(stage)
  {
  }

  /** The steps of one event with nothing in between. */
  function RunSteps(v: Relay, id: Uuid, ev: UpEvent, stage: Stage): Relay
    decreases StageRank(stage)
  {
    if stage.Over? then v else
      StepAdvances(v, id, ev, stage);
      var (v', stage') := v.Step(id, ev, stage);
      RunSteps(v', id, ev, stage')
  }

  /** Left undisturbed, the steps taken for an event amount to the operation of state.rs. */
  lemma RunStepsIsApply(v: Relay, id: Uuid, ev: UpEvent)
    ensures RunSteps(v, id, ev, Fresh) == v.Apply(id, ev)
  {
    var (v1, s1) := v.Step(id, ev, Fresh);
    var (v2, s2) := v1.Step(id, ev, s1);
    var (v3, s3) := v2.Step(id, ev, s2);
    assert s3.Over?;
    assert RunSteps(v2, id, ev, s2) == v3;
    assert RunSteps(v1, id, ev, s1) == v3;
  }

  function MatchingPending(b: AckBoard, tunnelId: string): set<Uuid> {
    set x | x in b.entries && b.entries[x].tunnelId == tunnelId
  }

  function MatchingStreams(b: WsBoard, tunnelId: string): set<Uuid> {
    set x | x in b.entries && b.entries[x].tunnelId == tunnelId
  }

  function Txs(b: AckBoard, gone: set<Uuid>): set<Uuid> {
    set x | x in gone && x in b.entries :: b.entries[x].tx
  }

  function Senders(b: WsBoard, gone: set<Uuid>): set<Uuid> {
    set x | x in gone && x in b.entries :: b.entries[x].sender
  }

  /** The entries `gone` go, each of their one-shots getting `ack`; nothing else changes. */
  function ResolveAll(b: AckBoard, gone: set<Uuid>, ack: Ack): AckBoard {
    AckBoard(b.entries - gone,
             map tx | tx in b.shots :: if tx in Txs(b, gone) then b.shots[tx] + [Acked(ack)] else b.shots[tx])
  }

  /** The entries `gone` go, each of their channels getting `close` as its last event. */
  function CloseAll(b: WsBoard, gone: set<Uuid>, close: WsEvent): WsBoard {
    WsBoard(b.entries - gone, CloseQueues(b.queues, Senders(b, gone), close))
  }

  lemma ResolveNone(b: AckBoard, ack: Ack)
    ensures ResolveAll(b, {}, ack) == b
  {
    assert ResolveAll(b, {}, ack).shots == b.shots;
  }

  lemma CloseNone(b: WsBoard, close: WsEvent)
    ensures CloseAll(b, {}, close) == b
  {
    assert CloseAll(b, {}, close).queues == b.queues;
  }

  /** Taking one more entry out, in any order, is one more step towards the whole eviction. */
  lemma ResolveOneMore(b: AckBoard, done: set<Uuid>, x: Uuid, ack: Ack)
    requires b.Sound() && x in b.entries && x !in done
    ensures ResolveAll(b, done, ack).Apply(x, ack) == ResolveAll(b, done + {x}, ack)
  {
    assert Txs(b, done + {x}) == Txs(b, done) + {b.entries[x].tx};
    assert b.entries[x].tx !in Txs(b, done);
    assert b.entries - done - {x} == b.entries - (done + {x});
    assert ResolveAll(b, done, ack).Apply(x, ack).shots == ResolveAll(b, done + {x}, ack).shots;
  }

  lemma CloseOneMore(b: WsBoard, done: set<Uuid>, x: Uuid, close: WsEvent)
    requires b.Sound() && x in b.entries && x !in done && close.WsEnd?
    ensures CloseAll(b, done, close).Apply(x, close) == CloseAll(b, done + {x}, close)
  {
    var ch := b.entries[x].sender;
    assert Senders(b, done + {x}) == Senders(b, done) + {ch};
    assert ch !in Senders(b, done);
    assert b.entries - done - {x} == b.entries - (done + {x});
    CloseOneQueue(b.queues, Senders(b, done), ch, close);
  }

  /** The queues after closing those in `chans`. */
  function CloseQueues(queues: map<Uuid, Queue<WsEvent>>, chans: set<Uuid>, close: WsEvent): map<Uuid, Queue<WsEvent>> {
    map ch | ch in queues ::
      if ch in chans && queues[ch].open then queues[ch].(sent := queues[ch].sent + [close]) else queues[ch]
  }

  lemma CloseOneQueue(queues: map<Uuid, Queue<WsEvent>>, chans: set<Uuid>, ch: Uuid, close: WsEvent)
    requires ch in queues && ch !in chans
    ensures var before, after := CloseQueues(queues, chans, close), CloseQueues(queues, chans + {ch}, close);
            && before[ch] == queues[ch]
            && after == if queues[ch].open then before[ch := queues[ch].(sent := queues[ch].sent + [close])] else before
  {
  }

  // ---- operations keep senders private ----

  lemma HttpApplySound(b: HttpBoard, r: Uuid, ev: RelayEvent)
    requires b.Sound()
    ensures b.Apply(r, ev).Sound()
  {
  }

  lemma AckApplySound(b: AckBoard, x: Uuid, ack: Ack)
    requires b.Sound()
    ensures b.Apply(x, ack).Sound() && b.Remove(x).Sound()
  {
  }

  lemma WsApplySound(b: WsBoard, x: Uuid, ev: WsEvent)
    requires b.Sound()
    ensures b.Apply(x, ev).Sound()
  {
  }

  lemma ApplySound(v: Relay, id: Uuid, ev: UpEvent)
    requires v.Sound()
    ensures v.Apply(id, ev).Sound()
  {
    match ev
    case UHttp(e) => HttpApplySound(v.http, id, e);
    case UAck(ack) => AckApplySound(v.acks, id, ack);
    case UWs(e) => WsApplySound(v.ws, id, e);
  }

  lemma {:induction false} ApplyAllSound(v: Relay, id: Uuid, evs: seq<UpEvent>)
    requires v.Sound()
    ensures v.ApplyAll(id, evs).Sound()
  {
    if evs != [] {
      ApplyAllSound(v, id, evs[..|evs| - 1]);
      ApplySound(v.ApplyAll(id, evs[..|evs| - 1]), id, evs[|evs| - 1]);
    }
  }

  lemma HandleSound(v: Relay, m: Wire)
    requires v.Sound()
    ensures v.Handle(m).Sound()
  {
    if !TargetOf(m).NoTarget? {
      ApplyAllSound(v, TargetOf(m).id, UpOf(m));
    }
  }
}
