/** What one request or stream sees of a connection, and how each operation on a connection changes it.
    An operation on behalf of one id leaves every other id's view as it was. */
module Views {
  import opened Prelude
  import opened Messages
  import opened RelayState
  import opened System

  /** A connection's links and session, projected on one id. */
  datatype Traffic = Traffic(
    up: seq<UpEvent>, got: seq<UpEvent>, todo: seq<UpEvent>, stage: Stage,
    down: seq<DownEvent>, downGot: seq<DownEvent>)

  function TrafficOf(k: Conn, t: Target): Traffic {
    Traffic(UpFor(t, k.up.sent), UpFor(t, k.up.Read()), TodoFor(k, t), StageFor(k, t),
            DownFor(t, k.down.sent), DownFor(t, k.down.Read()))
  }

  function StageFor(k: Conn, t: Target): Stage {
    if k.job.Job? && k.job.t == t then k.job.stage else Fresh
  }

  predicate LinksOk(k: Conn) { k.up.got <= |k.up.sent| && k.down.got <= |k.down.sent| }

  lemma SendUpTraffic(k: Conn, m: Wire)
    requires LinksOk(k)
    ensures LinksOk(SendUp(k, m))
    ensures forall t: Target ::
              TrafficOf(SendUp(k, m), t) ==
              if k.up.open && TargetOf(m) == t then TrafficOf(k, t).(up := TrafficOf(k, t).up + UpOf(m))
              else TrafficOf(k, t)
  {
    if k.up.open {
      assert (k.up.sent + [m])[..k.up.got] == k.up.sent[..k.up.got];
      forall t: Target ensures TrafficOf(SendUp(k, m), t) ==
                       if TargetOf(m) == t then TrafficOf(k, t).(up := TrafficOf(k, t).up + UpOf(m))
                       else TrafficOf(k, t)
      {
        UpForSnoc(t, k.up.sent, m);
      }
    }
  }

  lemma SendDownTraffic(k: Conn, m: Wire)
    requires LinksOk(k)
    ensures LinksOk(SendDown(k, m))
    ensures forall t: Target ::
              TrafficOf(SendDown(k, m), t) ==
              if k.down.open && TargetOf(m) == t then TrafficOf(k, t).(down := TrafficOf(k, t).down + DownOf(m))
              else TrafficOf(k, t)
  {
    if k.down.open {
      assert (k.down.sent + [m])[..k.down.got] == k.down.sent[..k.down.got];
      forall t: Target ensures TrafficOf(SendDown(k, m), t) ==
                       if TargetOf(m) == t then TrafficOf(k, t).(down := TrafficOf(k, t).down + DownOf(m))
                       else TrafficOf(k, t)
      {
        DownForSnoc(t, k.down.sent, m);
      }
    }
  }

  lemma TakeUpTraffic(k: Conn)
    requires LinksOk(k) && k.up.got < |k.up.sent| && k.job.NoJob?
    ensures LinksOk(TakeUp(k))
    ensures var m := k.up.sent[k.up.got];
            forall t: Target :: !t.NoTarget? ==>
              TrafficOf(TakeUp(k), t) ==
              if TargetOf(m) == t then TrafficOf(k, t).(got := TrafficOf(k, t).got + UpOf(m), todo := UpOf(m))
              else TrafficOf(k, t)
  {
    var m := k.up.sent[k.up.got];
    assert k.up.sent[..k.up.got + 1] == k.up.sent[..k.up.got] + [m];
    forall t: Target | !t.NoTarget?
      ensures TrafficOf(TakeUp(k), t) ==
              if TargetOf(m) == t then TrafficOf(k, t).(got := TrafficOf(k, t).got + UpOf(m), todo := UpOf(m))
              else TrafficOf(k, t)
    {
      UpForSnoc(t, k.up.sent[..k.up.got], m);
    }
  }

  lemma TakeDownTraffic(k: Conn)
    requires LinksOk(k) && k.down.got < |k.down.sent|
    ensures LinksOk(TakeDown(k))
    ensures var m := k.down.sent[k.down.got];
            forall t: Target :: TrafficOf(TakeDown(k), t) ==
              if TargetOf(m) == t then TrafficOf(k, t).(downGot := TrafficOf(k, t).downGot + DownOf(m))
              else TrafficOf(k, t)
  {
    var m := k.down.sent[k.down.got];
    assert k.down.sent[..k.down.got + 1] == k.down.sent[..k.down.got] + [m];
    forall t: Target ensures TrafficOf(TakeDown(k), t) ==
                     if TargetOf(m) == t then TrafficOf(k, t).(downGot := TrafficOf(k, t).downGot + DownOf(m))
                     else TrafficOf(k, t)
    {
      DownForSnoc(t, k.down.sent[..k.down.got], m);
    }
  }

  /** What has been read is a prefix of what was sent. */
  lemma TrafficPrefix(k: Conn, t: Target)
    requires LinksOk(k)
    ensures TrafficOf(k, t).got <= TrafficOf(k, t).up && TrafficOf(k, t).downGot <= TrafficOf(k, t).down
  {
    UpForPrefix(t, k.up.sent, k.up.got);
    DownForPrefix(t, k.down.sent, k.down.got);
  }

  /** The next message of a link, if it means anything, is among what was sent for its target. */
  lemma NextUpIsSent(k: Conn)
    requires LinksOk(k) && k.up.got < |k.up.sent|
    ensures var m := k.up.sent[k.up.got]; var t := TargetOf(m);
            TrafficOf(k, t).got + UpOf(m) <= TrafficOf(k, t).up
  {
    var m := k.up.sent[k.up.got];
    assert k.up.sent[..k.up.got + 1] == k.up.sent[..k.up.got] + [m];
    UpForSnoc(TargetOf(m), k.up.sent[..k.up.got], m);
    UpForPrefix(TargetOf(m), k.up.sent, k.up.got + 1);
  }

  lemma NextDownIsSent(k: Conn)
    requires LinksOk(k) && k.down.got < |k.down.sent|
    ensures var m := k.down.sent[k.down.got]; var t := TargetOf(m);
            TrafficOf(k, t).downGot + DownOf(m) <= TrafficOf(k, t).down
  {
    var m := k.down.sent[k.down.got];
    assert k.down.sent[..k.down.got + 1] == k.down.sent[..k.down.got] + [m];
    DownForSnoc(TargetOf(m), k.down.sent[..k.down.got], m);
    DownForPrefix(TargetOf(m), k.down.sent, k.down.got + 1);
  }

  // ---- a request's view of a connection ----

  datatype HttpAt = HttpAt(traffic: Traffic, proxy: Option<Proxy>, listed: Option<Uuid>, body: Option<Queue<Bytes>>,
                           running: bool) {
    function Heard(evs: seq<DownEvent>): HttpAt { this.(traffic := traffic.(down := traffic.down + evs)) }

    function Spoke(evs: seq<UpEvent>): HttpAt { this.(traffic := traffic.(up := traffic.up + evs)) }
  }

  function HttpOf(k: Conn, r: Uuid): HttpAt {
    HttpAt(TrafficOf(k, HttpId(r)), Get(k.proxies, r), Get(k.board.inflight, r), Get(k.board.bodies, r),
           k.agent.Running?)
  }

  /** A stream's view of a connection. */
  datatype WsAt = WsAt(traffic: Traffic, task: Option<WsTask>, listed: Option<Uuid>, input: Option<Queue<WsEvent>>,
                       running: bool, over: bool)
  {
    function Heard(evs: seq<DownEvent>): WsAt { this.(traffic := traffic.(down := traffic.down + evs)) }

    function Spoke(evs: seq<UpEvent>): WsAt { this.(traffic := traffic.(up := traffic.up + evs)) }
  }

  /** The session has left its loop: it handles no more messages. */
  predicate HasLeft(k: Conn) { k.session.Cleaning? || k.session.Closed? }

  function WsOf(k: Conn, x: Uuid): WsAt {
    WsAt(TrafficOf(k, WsId(x)), Get(k.tasks, x), Get(k.board.sessions, x), Get(k.board.inputs, x), k.agent.Running?,
         HasLeft(k))
  }

  lemma SendUpViews(k: Conn, m: Wire)
    requires LinksOk(k)
    ensures LinksOk(SendUp(k, m))
    ensures forall r: Uuid :: HttpOf(SendUp(k, m), r) ==
              if k.up.open && TargetOf(m) == HttpId(r) then HttpOf(k, r).Spoke(UpOf(m)) else HttpOf(k, r)
    ensures forall x: Uuid :: WsOf(SendUp(k, m), x) ==
              if k.up.open && TargetOf(m) == WsId(x) then WsOf(k, x).Spoke(UpOf(m)) else WsOf(k, x)
  {
    hide TrafficOf;
    SendUpTraffic(k, m);
  }

  lemma SendDownViews(k: Conn, m: Wire)
    requires LinksOk(k)
    ensures LinksOk(SendDown(k, m))
    ensures forall r: Uuid :: HttpOf(SendDown(k, m), r) ==
              if k.down.open && TargetOf(m) == HttpId(r) then HttpOf(k, r).Heard(DownOf(m)) else HttpOf(k, r)
    ensures forall x: Uuid :: WsOf(SendDown(k, m), x) ==
              if k.down.open && TargetOf(m) == WsId(x) then WsOf(k, x).Heard(DownOf(m)) else WsOf(k, x)
  {
    hide TrafficOf;
    SendDownTraffic(k, m);
  }

  function Received(tr: Traffic, evs: seq<UpEvent>): Traffic { tr.(got := tr.got + evs, todo := evs) }

  lemma TakeUpViews(k: Conn)
    requires LinksOk(k) && k.up.got < |k.up.sent| && k.job.NoJob?
    ensures LinksOk(TakeUp(k))
    ensures var m := k.up.sent[k.up.got];
            forall r: Uuid :: HttpOf(TakeUp(k), r) ==
              if TargetOf(m) == HttpId(r) then HttpOf(k, r).(traffic := Received(HttpOf(k, r).traffic, UpOf(m)))
              else HttpOf(k, r)
    ensures var m := k.up.sent[k.up.got];
            forall x: Uuid :: WsOf(TakeUp(k), x) ==
              if TargetOf(m) == WsId(x) then WsOf(k, x).(traffic := Received(WsOf(k, x).traffic, UpOf(m)))
              else WsOf(k, x)
  {
    hide TrafficOf;
    TakeUpTraffic(k);
  }

  function Handed(tr: Traffic, evs: seq<DownEvent>): Traffic { tr.(downGot := tr.downGot + evs) }

  lemma TakeDownViews(k: Conn)
    requires LinksOk(k) && k.down.got < |k.down.sent|
    ensures LinksOk(TakeDown(k))
    ensures var m := k.down.sent[k.down.got];
            forall r: Uuid :: HttpOf(TakeDown(k), r) ==
              if TargetOf(m) == HttpId(r) then HttpOf(k, r).(traffic := Handed(HttpOf(k, r).traffic, DownOf(m)))
              else HttpOf(k, r)
    ensures var m := k.down.sent[k.down.got];
            forall x: Uuid :: WsOf(TakeDown(k), x) ==
              if TargetOf(m) == WsId(x) then WsOf(k, x).(traffic := Handed(WsOf(k, x).traffic, DownOf(m)))
              else WsOf(k, x)
  {
    hide TrafficOf;
    TakeDownTraffic(k);
  }

  /** The links and the job are all there is to traffic. */
  lemma SameLinksTraffic(k: Conn, k': Conn)
    requires k'.up == k.up && k'.down == k.down && k'.job == k.job
    ensures forall t: Target :: TrafficOf(k', t) == TrafficOf(k, t)
  {
  }

  /** The job's next stage, or its next event, or its end. */
  lemma SetJobTraffic(k: Conn, job: Job)
    ensures forall t: Target ::
              TrafficOf(k.(job := job), t) ==
              TrafficOf(k, t).(todo := TodoFor(k.(job := job), t), stage := StageFor(k.(job := job), t))
  {
  }
}
