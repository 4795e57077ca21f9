/** The relay's handling of agent messages never mixes ids, and its disconnect clean-up touches one
    tunnel only. Nothing here assumes that agents are honest. */
module Demux {
  import opened Prelude
  import opened Messages
  import opened RelayState

  /** All that concerns one id: its map entries, and the channels that `origin`'s entries lead to. */
  datatype Slice =
    | NoSlice
    | HttpSlice(entry: Option<Uuid>, events: Option<Queue<RelayEvent>>)
    | WsSlice(pending: Option<WsPending>, shot: Option<seq<Resolution>>,
              stream: Option<WsStreamHandle>, wsEvents: Option<Queue<WsEvent>>)

  function HttpSliceOf(b: HttpBoard, origin: HttpBoard, r: Uuid): Slice {
    HttpSlice(Get(b.entries, r), if r in origin.entries then Get(b.queues, origin.entries[r]) else None)
  }

  function SliceOf(v: Relay, origin: Relay, t: Target): Slice {
    match t
    case NoTarget => NoSlice
    case HttpId(r) => HttpSliceOf(v.http, origin.http, r)
    case WsId(x) =>
      WsSlice(Get(v.acks.entries, x), ShotOf(v.acks, origin.acks, x), Get(v.ws.entries, x),
              EventsOf(v.ws, origin.ws, x))
  }

  function ShotOf(b: AckBoard, origin: AckBoard, x: Uuid): Option<seq<Resolution>> {
    if x in origin.entries then Get(b.shots, origin.entries[x].tx) else None
  }

  function EventsOf(b: WsBoard, origin: WsBoard, x: Uuid): Option<Queue<WsEvent>> {
    if x in origin.entries then Get(b.queues, origin.entries[x].sender) else None
  }

  /** The messages that name `t`. */
  function Only(t: Target, msgs: seq<Wire>): seq<Wire> {
    if msgs == [] then [] else
      var last := msgs[|msgs| - 1];
      Only(t, msgs[..|msgs| - 1]) + if TargetOf(last) == t then [last] else []
  }

  /** No entry is new or redirected. */
  ghost predicate HttpUnder(b: HttpBoard, origin: HttpBoard) {
    forall r <- b.entries :: r in origin.entries && b.entries[r] == origin.entries[r]
  }

  ghost predicate AckUnder(b: AckBoard, origin: AckBoard) {
    forall x <- b.entries :: x in origin.entries && b.entries[x] == origin.entries[x]
  }

  ghost predicate WsUnder(b: WsBoard, origin: WsBoard) {
    forall x <- b.entries :: x in origin.entries && b.entries[x] == origin.entries[x]
  }

  ghost predicate Under(v: Relay, origin: Relay) {
    HttpUnder(v.http, origin.http) && AckUnder(v.acks, origin.acks) && WsUnder(v.ws, origin.ws)
  }

  // ---- one event ----

  lemma HttpOther(b: HttpBoard, origin: HttpBoard, r: Uuid, q: Uuid, ev: RelayEvent)
    requires HttpUnder(b, origin) && origin.Sound() && q != r
    ensures HttpSliceOf(b.Apply(q, ev), origin, r) == HttpSliceOf(b, origin, r)
  {
  }

  lemma HttpSame(b1: HttpBoard, b2: HttpBoard, origin: HttpBoard, r: Uuid, ev: RelayEvent)
    requires HttpUnder(b1, origin) && HttpUnder(b2, origin)
    requires HttpSliceOf(b1, origin, r) == HttpSliceOf(b2, origin, r)
    ensures HttpSliceOf(b1.Apply(r, ev), origin, r) == HttpSliceOf(b2.Apply(r, ev), origin, r)
  {
    assert (r in b1.entries) == (r in b2.entries);
  }

  lemma AckOther(b: AckBoard, origin: AckBoard, x: Uuid, y: Uuid, ack: Ack)
    requires AckUnder(b, origin) && origin.Sound() && y != x
    ensures Get(b.Apply(y, ack).entries, x) == Get(b.entries, x)
    ensures ShotOf(b.Apply(y, ack), origin, x) == ShotOf(b, origin, x)
  {
  }

  lemma AckSame(b1: AckBoard, b2: AckBoard, origin: AckBoard, x: Uuid, ack: Ack)
    requires AckUnder(b1, origin) && AckUnder(b2, origin)
    requires Get(b1.entries, x) == Get(b2.entries, x) && ShotOf(b1, origin, x) == ShotOf(b2, origin, x)
    ensures Get(b1.Apply(x, ack).entries, x) == Get(b2.Apply(x, ack).entries, x)
    ensures ShotOf(b1.Apply(x, ack), origin, x) == ShotOf(b2.Apply(x, ack), origin, x)
  {
    assert (x in b1.entries) == (x in b2.entries);
  }

  lemma WsOther(b: WsBoard, origin: WsBoard, x: Uuid, y: Uuid, ev: WsEvent)
    requires WsUnder(b, origin) && origin.Sound() && y != x
    ensures Get(b.Apply(y, ev).entries, x) == Get(b.entries, x)
    ensures EventsOf(b.Apply(y, ev), origin, x) == EventsOf(b, origin, x)
  {
  }

  lemma WsSame(b1: WsBoard, b2: WsBoard, origin: WsBoard, x: Uuid, ev: WsEvent)
    requires WsUnder(b1, origin) && WsUnder(b2, origin)
    requires Get(b1.entries, x) == Get(b2.entries, x) && EventsOf(b1, origin, x) == EventsOf(b2, origin, x)
    ensures Get(b1.Apply(x, ev).entries, x) == Get(b2.Apply(x, ev).entries, x)
    ensures EventsOf(b1.Apply(x, ev), origin, x) == EventsOf(b2.Apply(x, ev), origin, x)
  {
    assert (x in b1.entries) == (x in b2.entries);
  }

  // ---- one message ----

  /** Requests only get HTTP events and streams only WebSocket ones, whatever was sent. */
  predicate Fits(t: Target, ev: UpEvent) {
    match t case HttpId(_) => ev.UHttp? case WsId(_) => ev.UAck? || ev.UWs? case NoTarget => false
  }

  lemma UpOfFits(m: Wire)
    ensures forall i | 0 <= i < |UpOf(m)| :: Fits(TargetOf(m), UpOf(m)[i])
  {
  }

  lemma ApplyUnder(v: Relay, origin: Relay, id: Uuid, ev: UpEvent)
    requires Under(v, origin)
    ensures Under(v.Apply(id, ev), origin)
  {
  }

  lemma ApplyOther(v: Relay, origin: Relay, t: Target, u: Target, ev: UpEvent)
    requires Under(v, origin) && origin.Sound() && Fits(u, ev) && u != t
    ensures SliceOf(v.Apply(u.id, ev), origin, t) == SliceOf(v, origin, t) && Under(v.Apply(u.id, ev), origin)
  {
    hide HttpUnder, AckUnder, WsUnder, HttpBoard.Apply, AckBoard.Apply, WsBoard.Apply;
    ApplyUnder(v, origin, u.id, ev);
    match ev
    case UHttp(e) => if t.HttpId? { HttpOther(v.http, origin.http, t.id, u.id, e); }
    case UAck(ack) => if t.WsId? { AckOther(v.acks, origin.acks, t.id, u.id, ack); }
    case UWs(e) => if t.WsId? { WsOther(v.ws, origin.ws, t.id, u.id, e); }
  }

  lemma ApplySame(v1: Relay, v2: Relay, origin: Relay, t: Target, ev: UpEvent)
    requires Under(v1, origin) && Under(v2, origin) && Fits(t, ev)
    requires SliceOf(v1, origin, t) == SliceOf(v2, origin, t)
    ensures SliceOf(v1.Apply(t.id, ev), origin, t) == SliceOf(v2.Apply(t.id, ev), origin, t)
    ensures Under(v1.Apply(t.id, ev), origin) && Under(v2.Apply(t.id, ev), origin)
  {
    hide HttpUnder, AckUnder, WsUnder, HttpBoard.Apply, AckBoard.Apply, WsBoard.Apply;
    ApplyUnder(v1, origin, t.id, ev);
    ApplyUnder(v2, origin, t.id, ev);
    match ev
    case UHttp(e) => HttpSame(v1.http, v2.http, origin.http, t.id, e);
    case UAck(ack) => AckSame(v1.acks, v2.acks, origin.acks, t.id, ack);
    case UWs(e) => WsSame(v1.ws, v2.ws, origin.ws, t.id, e);
  }

  lemma {:induction false} AllOther(v: Relay, origin: Relay, t: Target, u: Target, evs: seq<UpEvent>)
    requires Under(v, origin) && origin.Sound() && u != t
    requires !u.NoTarget? && forall i | 0 <= i < |evs| :: Fits(u, evs[i])
    ensures SliceOf(v.ApplyAll(u.id, evs), origin, t) == SliceOf(v, origin, t) && Under(v.ApplyAll(u.id, evs), origin)
  {
    if evs != [] {
      var init := evs[..|evs| - 1];
      AllOther(v, origin, t, u, init);
      ApplyOther(v.ApplyAll(u.id, init), origin, t, u, evs[|evs| - 1]);
    }
  }

  lemma {:induction false} AllSame(v1: Relay, v2: Relay, origin: Relay, t: Target, evs: seq<UpEvent>)
    requires Under(v1, origin) && Under(v2, origin) && SliceOf(v1, origin, t) == SliceOf(v2, origin, t)
    requires !t.NoTarget? && forall i | 0 <= i < |evs| :: Fits(t, evs[i])
    ensures SliceOf(v1.ApplyAll(t.id, evs), origin, t) == SliceOf(v2.ApplyAll(t.id, evs), origin, t)
    ensures Under(v1.ApplyAll(t.id, evs), origin) && Under(v2.ApplyAll(t.id, evs), origin)
  {
    if evs != [] {
      var init := evs[..|evs| - 1];
      AllSame(v1, v2, origin, t, init);
      ApplySame(v1.ApplyAll(t.id, init), v2.ApplyAll(t.id, init), origin, t, evs[|evs| - 1]);
    }
  }

  // ---- any list of messages ----

  /** Demultiplexing commutes with projection: what happens to one id, under any list of messages, is
      what the messages naming that id do on their own; the registry is left alone. */
  lemma {:induction false} DemuxCommutes(v: Relay, msgs: seq<Wire>, t: Target)
    requires v.Sound()
    ensures SliceOf(v.HandleAll(msgs), v, t) == SliceOf(v.HandleAll(Only(t, msgs)), v, t)
    ensures v.HandleAll(msgs).agents == v.agents
    ensures Under(v.HandleAll(msgs), v) && Under(v.HandleAll(Only(t, msgs)), v)
  {
    if msgs != [] {
      var init, m := msgs[..|msgs| - 1], msgs[|msgs| - 1];
      DemuxCommutes(v, init, t);
      UpOfFits(m);
      var v1, v2 := v.HandleAll(init), v.HandleAll(Only(t, init));
      ApplyAllAgents(v1, TargetOf(m), UpOf(m));
      if TargetOf(m) == t {
        assert Only(t, msgs)[..|Only(t, init)|] == Only(t, init);
        if !t.NoTarget? {
          AllSame(v1, v2, v, t, UpOf(m));
        }
      } else {
        assert Only(t, msgs) == Only(t, init);
        if !TargetOf(m).NoTarget? {
          AllOther(v1, v, t, TargetOf(m), UpOf(m));
        }
      }
    }
  }

  lemma {:induction false} ApplyAllAgents(v: Relay, t: Target, evs: seq<UpEvent>)
    ensures t.NoTarget? || v.ApplyAll(t.id, evs).agents == v.agents
  {
    if evs != [] {
      ApplyAllAgents(v, t, evs[..|evs| - 1]);
    }
  }

  /** What `AppState.RemoveAgentIf` does to the WebSocket maps, entry by entry and channel by channel. */
  lemma EvictExact(v: Relay, tunnelId: string, ack: Ack, close: WsEvent)
    requires v.Sound()
    ensures var w := v.Evict(tunnelId, ack, close);
            && w.http == v.http && w.agents == v.agents
            && (forall x :: x in w.acks.entries <==> x in v.acks.entries && v.acks.entries[x].tunnelId != tunnelId)
            && (forall x <- w.acks.entries :: w.acks.entries[x] == v.acks.entries[x]
                                              && w.acks.shots[v.acks.entries[x].tx]
                                                 == v.acks.shots[v.acks.entries[x].tx])
            && (forall x <- v.acks.entries :: v.acks.entries[x].tunnelId == tunnelId ==>
                  w.acks.shots[v.acks.entries[x].tx] == v.acks.shots[v.acks.entries[x].tx] + [Acked(ack)])
    ensures var w := v.Evict(tunnelId, ack, close);
            && (forall x :: x in w.ws.entries <==> x in v.ws.entries && v.ws.entries[x].tunnelId != tunnelId)
            && (forall x <- w.ws.entries :: w.ws.entries[x] == v.ws.entries[x]
                                            && w.ws.queues[v.ws.entries[x].sender]
                                               == v.ws.queues[v.ws.entries[x].sender])
            && (forall x <- v.ws.entries ::
                  v.ws.entries[x].tunnelId == tunnelId && v.ws.Open(v.ws.entries[x].sender) ==>
                  w.ws.queues[v.ws.entries[x].sender].sent == v.ws.queues[v.ws.entries[x].sender].sent + [close])
    ensures var w := v.Evict(tunnelId, ack, close);
            && w.acks.shots.Keys == v.acks.shots.Keys && w.ws.queues.Keys == v.ws.queues.Keys
            && (forall tx <- v.acks.shots :: tx !in Txs(v.acks, MatchingPending(v.acks, tunnelId)) ==>
                  w.acks.shots[tx] == v.acks.shots[tx])
            && (forall ch <- v.ws.queues :: ch !in Senders(v.ws, MatchingStreams(v.ws, tunnelId)) ==>
                  w.ws.queues[ch] == v.ws.queues[ch])
            && (forall ch <- v.ws.queues ::
                  w.ws.queues[ch].taken == v.ws.queues[ch].taken && w.ws.queues[ch].open == v.ws.queues[ch].open)
  {
  }

  /** An id whose receiver is gone is forgotten by the next event that names it; so is one that ends. */
  lemma ClosedReceiverForgotten(v: Relay, r: Uuid, ev: RelayEvent)
    requires r in v.http.entries && !v.http.Open(v.http.entries[r])
    ensures v.Apply(r, UHttp(ev)) == v.(http := v.http.Drop(r))
  {
  }
}
