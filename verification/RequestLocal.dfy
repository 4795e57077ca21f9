/** One request at a time: each thing that can happen to it keeps what `Invariants.HttpLocal` says of it. */
module RequestLocal {
  import opened Prelude
  import opened Frame
  import opened Messages
  import opened RelayState
  import opened System
  import opened Views
  import opened Invariants
  import Ingress

  ghost predicate SameBut(b: HttpBoard, b': HttpBoard, r: Uuid) {
    forall q: Uuid | q != r :: Get(b'.entries, q) == Get(b.entries, q) && Get(b'.queues, q) == Get(b.queues, q)
  }

  // ---- the request's own task, one local fact at a time ----

  lemma ArriveLocal(r: Uuid, q: Req, at: HttpAt)
    requires NoHttp(at) && at.traffic.got == [] && at.traffic.downGot == [] && at.traffic.stage.Fresh?
    requires IsSupported(q.version) && q.pc.Starting? && q.start.None? && q.upload == [] && q.sent == [] && !q.ended
    requires q.loop == Ingress.Waiting([]) && q.yielded == 0
    ensures HttpLocal(r, q, None, None, at)
  {
  }

  lemma SendStartLocal(r: Uuid, q: Req, entry: Option<Uuid>, chan: Option<Queue<RelayEvent>>, at: HttpAt,
                       start: DownEvent)
    requires HttpLocal(r, q, entry, chan, at) && q.pc.Starting? && start.DStart?
    ensures HttpLocal(r, q.(pc := Adding, start := Some(start)), entry, chan, at.Heard([start]))
    ensures HttpLocal(r, q.(pc := ReqDone), entry, chan, at)
  {
  }

  lemma AddInflightLocal(r: Uuid, q: Req, entry: Option<Uuid>, chan: Option<Queue<RelayEvent>>, at: HttpAt)
    requires HttpLocal(r, q, entry, chan, at) && q.pc.Adding?
    ensures HttpLocal(r, q.(pc := Uploading, missed := Less(|at.traffic.got|, |at.traffic.todo|)), Some(r),
                      Some(NewQueue()), at)
  {
    var tr := at.traffic;
    var missed := |tr.got| - |tr.todo|;
    assert HttpEvents(tr.todo) == HttpEvents(tr.got)[missed..];
  }

  lemma BodyDownsSnoc(chunks: seq<Bytes>, chunk: Bytes)
    ensures BodyDowns(chunks + [chunk]) == BodyDowns(chunks) + [DBody(chunk)]
  {
  }

  /** Uploading goes on, or gives way to the removal of the entry. */
  lemma StillUploading(r: Uuid, q: Req, q': Req, entry: Option<Uuid>, chan: Option<Queue<RelayEvent>>, tr: Traffic)
    requires ChanOk(r, q, entry, chan, tr) && LoopOk(q, chan) && q.pc.Uploading?
    requires q'.pc.Uploading? || q'.pc.Removing?
    requires q'.missed == q.missed && q'.loop == q.loop && q'.yielded == q.yielded
    ensures ChanOk(r, q', entry, chan, tr) && LoopOk(q', chan)
  {
    hide Intact, TodoOk, Ingress.Replay;
  }

  lemma AgentHears(r: Uuid, at: HttpAt, evs: seq<DownEvent>)
    requires AgentOk(r, at)
    ensures AgentOk(r, at.Heard(evs))
  {
  }

  lemma UploadLocal(r: Uuid, q: Req, q': Req, entry: Option<Uuid>, chan: Option<Queue<RelayEvent>>, at: HttpAt,
                    chunk: Bytes)
    requires HttpLocal(r, q, entry, chan, at) && q.pc.Uploading?
    requires
      || (chunk == [] && q' == q.(upload := q.upload + [chunk]))
      || (chunk != [] && q' == q.(upload := q.upload + [chunk], pc := Removing))
    ensures HttpLocal(r, q', entry, chan, at)
  {
    hide ChanOk, LoopOk, AgentOk, NonEmpty;
    NonEmptySnoc(q.upload, chunk);
    StillUploading(r, q, q', entry, chan, at.traffic);
  }

  lemma UploadSentLocal(r: Uuid, q: Req, entry: Option<Uuid>, chan: Option<Queue<RelayEvent>>, at: HttpAt, chunk: Bytes)
    requires HttpLocal(r, q, entry, chan, at) && q.pc.Uploading? && chunk != []
    ensures HttpLocal(r, q.(upload := q.upload + [chunk], sent := q.sent + [chunk]), entry, chan,
                      at.Heard([DBody(chunk)]))
  {
    hide ChanOk, LoopOk, AgentOk, NonEmpty;
    var q' := q.(upload := q.upload + [chunk], sent := q.sent + [chunk]);
    NonEmptySnoc(q.upload, chunk);
    BodyDownsSnoc(q.sent, chunk);
    assert Asked(q') == Asked(q) + [DBody(chunk)];
    StillUploading(r, q, q', entry, chan, at.traffic);
    ChanElsewhere(r, q', entry, chan, at.traffic, at.Heard([DBody(chunk)]).traffic);
    AgentHears(r, at, [DBody(chunk)]);
  }

  lemma UploadStopsLocal(r: Uuid, q: Req, entry: Option<Uuid>, chan: Option<Queue<RelayEvent>>, at: HttpAt)
    requires HttpLocal(r, q, entry, chan, at) && (q.pc.Uploading? || q.pc.Ending?)
    ensures HttpLocal(r, q.(pc := Removing), entry, chan, at)
    ensures HttpLocal(r, q.(pc := Ending), entry, chan, at)
    ensures q.pc.Ending? ==> HttpLocal(r, q.(pc := Awaiting, ended := true), entry, chan, at.Heard([DEnd]))
  {
  }

  lemma NextEventLocal(r: Uuid, q: Req, entry: Option<Uuid>, chan: Queue<RelayEvent>, at: HttpAt)
    requires HttpLocal(r, q, entry, Some(chan), at) && chan.taken < |chan.sent|
    requires q.pc.Awaiting? || (q.pc.Streaming? && q.loop.Responding? && q.yielded == |q.loop.body|)
    ensures var loop := q.loop.OnEvent(chan.sent[chan.taken]);
            var pc := if loop.Responding? then Streaming else if loop.Waiting? then Awaiting else Removing;
            var yielded := if q.pc.Streaming? && (loop.Responding? || loop.Shut?) then |loop.body| else q.yielded;
            HttpLocal(r, q.(loop := loop, pc := pc, yielded := yielded), entry, Some(chan.(taken := chan.taken + 1)),
                      at)
  {
    assert chan.sent[..chan.taken + 1] == chan.sent[..chan.taken] + [chan.sent[chan.taken]];
    Ingress.ReplaySnoc(chan.sent[..chan.taken], chan.sent[chan.taken]);
  }

  lemma YieldLocal(r: Uuid, q: Req, entry: Option<Uuid>, chan: Option<Queue<RelayEvent>>, at: HttpAt)
    requires HttpLocal(r, q, entry, chan, at) && q.pc.Streaming? && q.yielded < |q.loop.body|
    ensures HttpLocal(r, q.(yielded := q.yielded + 1), entry, chan, at)
  {
  }

  lemma LeaveLocal(r: Uuid, q: Req, entry: Option<Uuid>, chan: Option<Queue<RelayEvent>>, at: HttpAt)
    requires HttpLocal(r, q, entry, chan, at)
    ensures q.pc.Awaiting? || q.pc.Streaming? ==> HttpLocal(r, q.(pc := Removing), entry, chan, at)
    ensures q.pc.Removing? ==> HttpLocal(r, q.(pc := Dropping), None, chan, at)
  {
    hide AgentOk, Ingress.Replay;
  }

  lemma CloseLocal(r: Uuid, q: Req, entry: Option<Uuid>, chan: Queue<RelayEvent>, at: HttpAt)
    requires HttpLocal(r, q, entry, Some(chan), at)
    ensures q.pc.Dropping? ==> HttpLocal(r, q.(pc := ReqDone), entry, Some(chan.(open := false)), at)
    ensures q.pc.Uploading? || q.pc.Awaiting? || q.pc.Streaming? ==>
              HttpLocal(r, q.(pc := Abandoned), entry, Some(chan.(open := false)), at)
  {
    hide AgentOk, Ingress.Replay;
  }

  // ---- the same at the session ----

  lemma BodyEventsSnoc(chunks: seq<Bytes>, chunk: Bytes)
    ensures BodyEvents(chunks + [chunk]) == BodyEvents(chunks) + [UHttp(Body(chunk))]
  {
  }

  lemma HttpEventsConcat(a: seq<UpEvent>, b: seq<UpEvent>)
    ensures HttpEvents(a + b) == HttpEvents(a) + HttpEvents(b)
  {
  }

  /** Nothing follows a terminal event. */
  lemma NothingAfterEnd(p: Proxy, got: seq<UpEvent>)
    requires ProxyOk(p) && got <= Said(p) && Ends(got)
    ensures got == Said(p)
  {
    var said := Said(p);
    assert forall i | 0 <= i < |said| - 1 :: !said[i].ev.IsTerminal();
  }

  lemma ReadChan(r: Uuid, q: Req, entry: Option<Uuid>, chan: Option<Queue<RelayEvent>>, tr: Traffic, ev: UpEvent)
    requires ChanOk(r, q, entry, chan, tr) && tr.todo == [] && !Ends(tr.got)
    ensures ChanOk(r, q, entry, chan, Received(tr, [ev]))
  {
    HttpEventsConcat(tr.got, [ev]);
    assert HttpEvents(tr.todo) == [];
    var tr' := Received(tr, [ev]);
    assert tr'.got[|tr'.got| - 1..] == [ev];
    if chan.Some? {
      assert HttpEvents(tr'.got)[q.missed..] == HttpEvents(tr.got)[q.missed..] + HttpEvents([ev]);
    }
  }

  lemma ReadLocal(r: Uuid, q: Req, entry: Option<Uuid>, chan: Option<Queue<RelayEvent>>, at: HttpAt, ev: UpEvent)
    requires HttpLocal(r, q, entry, chan, at) && at.traffic.todo == []
    requires at.traffic.got + [ev] <= at.traffic.up
    ensures HttpLocal(r, q, entry, chan, at.(traffic := Received(at.traffic, [ev])))
  {
    hide ChanOk, LoopOk, ReqOk;
    if Ends(at.traffic.got) {
      assert at.traffic.got <= Said(at.proxy.value);
      NothingAfterEnd(at.proxy.value, at.traffic.got);
    }
    ReadChan(r, q, entry, chan, at.traffic, ev);
  }

  /** How the traffic looks when an operation leaves the event at hand at `stage`. */
  function Proceed(tr: Traffic, stage: Stage): Traffic {
    if stage.Over? then tr.(todo := [], stage := Fresh) else tr.(stage := stage)
  }

  lemma StepChan(r: Uuid, q: Req, b: HttpBoard, tr: Traffic)
    requires ChanOk(r, q, Get(b.entries, r), Get(b.queues, r), tr) && tr.todo != [] && tr.todo[0].UHttp?
    ensures var (b', stage) := b.Step(r, tr.todo[0].ev, tr.stage);
            ChanOk(r, q, Get(b'.entries, r), Get(b'.queues, r), Proceed(tr, stage))
  {
    var ev := tr.todo[0];
    assert tr.todo == [ev];
    assert HttpEvents([ev]) == [ev.ev];
    assert tr.got[|tr.got| - 1] == ev;
    assert HttpEvents([]) == [];
  }

  /** Only the request's own entry and channel change; of the channel, what was received stays. */
  lemma StepFrame(r: Uuid, b: HttpBoard, ev: RelayEvent, stage: Stage)
    requires stage.HaveSender? ==> stage.chan == r
    ensures var b' := b.Step(r, ev, stage).0;
            && SameBut(b, b', r) && (r in b'.queues <==> r in b.queues)
            && (r in b.queues ==> b'.queues[r].taken == b.queues[r].taken && b.queues[r].sent <= b'.queues[r].sent)
  {
  }

  lemma StepLocal(r: Uuid, q: Req, b: HttpBoard, at: HttpAt)
    requires HttpLocal(r, q, Get(b.entries, r), Get(b.queues, r), at)
    requires at.traffic.todo != [] && at.traffic.todo[0].UHttp?
    requires at.traffic.stage.HaveSender? ==> at.traffic.stage.chan == r
    ensures var (b', stage) := b.Step(r, at.traffic.todo[0].ev, at.traffic.stage);
            && HttpLocal(r, q, Get(b'.entries, r), Get(b'.queues, r), at.(traffic := Proceed(at.traffic, stage)))
            && SameBut(b, b', r)
  {
    hide ChanOk, ReqOk;
    var (b', stage) := b.Step(r, at.traffic.todo[0].ev, at.traffic.stage);
    StepChan(r, q, b, at.traffic);
    StepFrame(r, b, at.traffic.todo[0].ev, at.traffic.stage);
    if r in b.queues {
      assert b'.queues[r].sent[..b.queues[r].taken] == b.queues[r].sent[..b.queues[r].taken];
    }
  }

  // ---- the same at the agent ----

  /** The channel does not depend on what is said or heard on the links. */
  lemma ChanElsewhere(r: Uuid, q: Req, entry: Option<Uuid>, chan: Option<Queue<RelayEvent>>, tr: Traffic, tr': Traffic)
    requires ChanOk(r, q, entry, chan, tr)
    requires tr'.got == tr.got && tr'.todo == tr.todo && tr'.stage == tr.stage
    ensures ChanOk(r, q, entry, chan, tr')
  {
  }

  lemma AgentSide(r: Uuid, q: Req, entry: Option<Uuid>, chan: Option<Queue<RelayEvent>>, at: HttpAt, at': HttpAt)
    requires HttpLocal(r, q, entry, chan, at) && AgentOk(r, at')
    requires at'.traffic.got == at.traffic.got && at'.traffic.todo == at.traffic.todo
             && at'.traffic.stage == at.traffic.stage
    requires at'.traffic.down == at.traffic.down
    ensures HttpLocal(r, q, entry, chan, at')
  {
    hide ChanOk, LoopOk, ReqOk, AgentOk;
    ChanElsewhere(r, q, entry, chan, at.traffic, at'.traffic);
  }

  lemma ChunksSnoc(evs: seq<DownEvent>, ev: DownEvent)
    ensures Chunks(evs + [ev]) == Chunks(evs) + match ev case DBody(b) => [b] case _ => []
    ensures Chunks([]) == []
  {
    assert (evs + [ev])[..|evs|] == evs;
  }

  /** A request's view after the agent's reader has handled `ev`. */
  function AfterHanding(r: Uuid, at: HttpAt, ev: DownEvent, version: byte): HttpAt {
    var at1 := at.(traffic := Handed(at.traffic, [ev]));
    match ev
    case DStart(_, _, _) =>
      at1.(proxy := Some(Proxy(ev, version, Requesting, None, [], [], None)), listed := Some(r),
           body := Some(NewQueue()))
    case DBody(bytes) =>
      if at.listed.None? then at1
      else if at.body.Some? && at.body.value.open then
        at1.(body := Some(at.body.value.(sent := at.body.value.sent + [bytes])))
      else at1.(listed := None)
    case _ => at1.(listed := None)
  }

  /** The relay's words about a request: the start first, the end last, chunks in between. */
  lemma NextWord(q: Req, got: seq<DownEvent>, ev: DownEvent)
    requires ReqOk(q) && got + [ev] <= Asked(q)
    ensures ev.DStart? || ev.DBody? || ev.DEnd?
    ensures ev.DStart? <==> got == []
    ensures DEnd !in got
  {
    var asked := Asked(q);
    assert ev == asked[|got|];
    assert forall i | 0 <= i < |asked| - 1 :: !asked[i].DEnd?;
    assert forall i | 1 <= i < |asked| :: !asked[i].DStart?;
    assert forall i | 0 <= i < |got| :: got[i] == asked[i];
  }

  lemma HandLocal(r: Uuid, q: Req, entry: Option<Uuid>, chan: Option<Queue<RelayEvent>>, at: HttpAt, ev: DownEvent,
                  version: byte)
    requires HttpLocal(r, q, entry, chan, at) && at.running
    requires at.traffic.downGot + [ev] <= at.traffic.down
    ensures HttpLocal(r, q, entry, chan, AfterHanding(r, at, ev, version))
    ensures ev.DStart? || ev.DBody? || ev.DEnd?
    ensures ev.DStart? ==> at.proxy.None?
    ensures at.listed.Some? ==> at.listed.value == r && at.body.Some?
  {
    hide ChanOk, LoopOk, Chunks;
    var got := at.traffic.downGot;
    NextWord(q, got, ev);
    ChunksSnoc(got, ev);
    AgentSide(r, q, entry, chan, at, AfterHanding(r, at, ev, version));
  }

  /** What the proxy task says, and what it then has said. */
  lemma ProxyLocal(r: Uuid, q: Req, entry: Option<Uuid>, chan: Option<Queue<RelayEvent>>, at: HttpAt, p: Proxy,
                   said: seq<UpEvent>)
    requires HttpLocal(r, q, entry, chan, at) && at.proxy.Some?
    requires ProxyOk(p) && Said(p) == Said(at.proxy.value) + said && p.asked == at.proxy.value.asked
    ensures HttpLocal(r, q, entry, chan, at.Spoke(said).(proxy := Some(p)))
  {
    hide ChanOk, LoopOk, ReqOk;
    AgentSide(r, q, entry, chan, at, at.Spoke(said).(proxy := Some(p)));
  }

  lemma BodyLocal(r: Uuid, q: Req, entry: Option<Uuid>, chan: Option<Queue<RelayEvent>>, at: HttpAt, b: Queue<Bytes>)
    requires HttpLocal(r, q, entry, chan, at) && at.body.Some? && at.proxy.Some?
    requires b.sent == at.body.value.sent && b.taken <= |b.sent| && (b.open ==> at.body.value.open)
    ensures HttpLocal(r, q, entry, chan, at.(body := Some(b)))
  {
    hide ChanOk, LoopOk, ReqOk;
    AgentSide(r, q, entry, chan, at, at.(body := Some(b)));
  }

  /** The agent's run ends: its senders are dropped. */
  lemma StopLocal(r: Uuid, q: Req, entry: Option<Uuid>, chan: Option<Queue<RelayEvent>>, at: HttpAt)
    requires HttpLocal(r, q, entry, chan, at)
    ensures HttpLocal(r, q, entry, chan, at.(running := false, listed := None))
    ensures forall evs :: !at.running ==>
              at.proxy.None? ==> HttpLocal(r, q, entry, chan, at.(traffic := Handed(at.traffic, evs)))
    ensures at.traffic.downGot == [] ==> HttpLocal(r, q, entry, chan, at.(running := true))
  {
    hide ChanOk, LoopOk, ReqOk;
    AgentSide(r, q, entry, chan, at, at.(running := false, listed := None));
    if !at.running && at.proxy.None? {
      forall evs ensures HttpLocal(r, q, entry, chan, at.(traffic := Handed(at.traffic, evs))) {
        AgentSide(r, q, entry, chan, at, at.(traffic := Handed(at.traffic, evs)));
      }
    }
    if at.traffic.downGot == [] {
      AgentSide(r, q, entry, chan, at, at.(running := true));
    }
  }
}
