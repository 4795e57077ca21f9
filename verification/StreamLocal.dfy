/** One stream at a time: each thing that can happen to it keeps what `Invariants.WsLocal` says of it. */
module StreamLocal {
  import opened Prelude
  import opened Frame
  import opened Messages
  import opened RelayState
  import opened WsTunnel
  import opened System
  import opened Views
  import opened Invariants
  import opened RequestLocal
  import SharedState
  import Agent

  // ---- the stream's own task ----

  lemma WsArriveLocal(x: Uuid, w: Str, at: WsAt)
    requires NoWs(at) && at.traffic.got == [] && at.traffic.downGot == [] && at.traffic.stage.Fresh?
    requires IsSupported(w.version) && w.pc.Beginning? && w.connect.None? && w.said == w.heard == [] && w.closing.None?
    requires w.delivered == [] && !w.evicted
    ensures WsLocal(x, w, NOWHERE, at)
  {
  }

  lemma AddPendingLocal(x: Uuid, w: Str, h: WsHere, at: WsAt)
    requires WsLocal(x, w, h, at) && w.pc.Beginning?
    ensures WsLocal(x, w.(pc := Pending), h.(pend := Some(WsPending(w.tunnel, x)), shot := Some([])), at)
  {
    hide TaskSide;
  }

  lemma SendConnectLocal(x: Uuid, w: Str, h: WsHere, at: WsAt, connect: DownEvent)
    requires WsLocal(x, w, h, at) && w.pc.Pending? && connect.DConnect?
    ensures WsLocal(x, w.(pc := Upgrading, connect := Some(connect)), h, at.Heard([connect]))
    ensures WsLocal(x, w.(pc := Unpending), h, at)
  {
    assert EventsFor([]) == [];
    assert WsDowns([]) == [];
    assert [connect] + [] == [connect];
  }

  lemma WsEventsSnoc(evs: seq<UpEvent>, ev: UpEvent)
    ensures WsEvents(evs + [ev]) == WsEvents(evs) + match ev case UWs(e) => [e] case _ => []
  {
    assert (evs + [ev])[..|evs|] == evs;
  }

  /** What is still to be handled is the end of what was read, for frames and closes too. */
  lemma TodoEvents(tr: Traffic)
    requires TodoOk(tr)
    ensures var n := |WsEvents(tr.got)| - |WsEvents(tr.todo)|; n >= 0 && WsEvents(tr.todo) == WsEvents(tr.got)[n..]
  {
    if tr.todo != [] {
      assert tr.got == tr.got[..|tr.got| - 1] + tr.todo;
      WsEventsSnoc(tr.got[..|tr.got| - 1], tr.todo[0]);
      WsEventsSnoc([], tr.todo[0]);
      assert [] + tr.todo == [tr.todo[0]];
    }
  }

  lemma AddStreamLocal(x: Uuid, w: Str, h: WsHere, at: WsAt)
    requires WsLocal(x, w, h, at) && w.pc.Upgrading?
    ensures var missed := Less(|WsEvents(at.traffic.got)|, |WsEvents(at.traffic.todo)|);
            WsLocal(x, w.(pc := AwaitingAck, missed := missed),
                    h.(entry := Some(WsStreamHandle(w.tunnel, x)), chan := Some(NewQueue())), at)
  {
    hide TaskSide, ShotOk;
    TodoEvents(at.traffic);
    ShotElsewhere(x, w, h, at.traffic);
  }

  /** The one-shot does not depend on the event channel. */
  lemma ShotElsewhere(x: Uuid, w: Str, h: WsHere, tr: Traffic)
    requires ShotOk(x, w, h, tr)
    ensures forall entry, chan, missed, delivered, pc: StrPc ::
              !pc.Beginning? && !w.pc.Beginning? && (pc.Serving? ==> w.pc.Serving? || Accepted(h)) ==>
              ShotOk(x, w.(pc := pc, missed := missed, delivered := delivered), h.(entry := entry, chan := chan), tr)
  {
  }

  predicate Moves(w: Str, h: WsHere, pc: StrPc) {
    || (w.pc.Upgrading? && pc.StrDone?)
    || (w.pc.AwaitingAck? && (pc.Rejecting? || (pc.Serving? && Accepted(h))))
    || (w.pc.Rejecting? && pc.Unstreaming?)
    || (w.pc.Serving? && pc.Unstreaming?)
  }

  lemma MoveLocal(x: Uuid, w: Str, h: WsHere, at: WsAt, pc: StrPc)
    requires WsLocal(x, w, h, at) && Moves(w, h, pc)
    ensures WsLocal(x, w.(pc := pc), h, at)
  {
    hide TaskSide, WsIntact;
  }

  /** The client's next message, or the end or failure of its socket, goes on the link. */
  lemma ClientSaysLocal(x: Uuid, w: Str, h: WsHere, at: WsAt, input: Input)
    requires WsLocal(x, w, h, at) && w.pc.Serving? && ValidInput(input) && EmittedEvent(ClientSide, input).Some?
    ensures var ev := EmittedEvent(ClientSide, input).value;
            WsLocal(x, w.(pc := if ev.WsEnd? then Unstreaming else Serving,
                          heard := Hear(w.heard, input),
                          said := if ev.WsFrame? then w.said + [input.m] else w.said,
                          closing := if ev.WsEnd? then Some(ev) else None, hangup := HangupOf(input)),
                    h, at.Heard([DWs(ev)]))
  {
    hide TaskSide, WsIntact, AllFrames, DeliveredOk, EventsOk;
    var ev := EmittedEvent(ClientSide, input).value;
    TalkGrows(w.said, input, ev, ClientSide);
    var w' := w.(pc := if ev.WsEnd? then Unstreaming else Serving,
                 heard := Hear(w.heard, input),
                 said := if ev.WsFrame? then w.said + [input.m] else w.said,
                 closing := if ev.WsEnd? then Some(ev) else None, hangup := HangupOf(input));
    HangupTold(ClientSide, input);
    assert Called(w') == Called(w) + [DWs(ev)] by {
      assert WsDowns(Talk(w'.said, w'.closing)) == WsDowns(Talk(w.said, None)) + [DWs(ev)];
    }
    EventsElsewhere(x, w, h, at, at.Heard([DWs(ev)]));
    EventsMove(x, w, w', h, at.Heard([DWs(ev)]));
    assert TaskSide(x, at.Heard([DWs(ev)])) by { TaskSideOnLink(x, at, [DWs(ev)]); }
    assert DeliveredOk(w', h.chan) by { DeliveredElsewhere(w, w', h.chan); }
  }

  /** The link is closed, and the client's message lost with it. */
  lemma ClientLostLocal(x: Uuid, w: Str, h: WsHere, at: WsAt, input: Input)
    requires WsLocal(x, w, h, at) && w.pc.Serving?
    ensures WsLocal(x, w.(pc := Unstreaming, heard := Hear(w.heard, input), hangup := HangupOf(input)), h, at)
    ensures WsLocal(x, w.(pc := Unstreaming), h, at)
  {
    hide TaskSide, WsIntact;
  }

  /** The channel does not depend on what is said or heard on the links, nor on the agent. */
  lemma EventsElsewhere(x: Uuid, w: Str, h: WsHere, at: WsAt, at': WsAt)
    requires EventsOk(x, w, h, at)
    requires at'.traffic.got == at.traffic.got && at'.traffic.todo == at.traffic.todo
             && at'.traffic.stage == at.traffic.stage
    requires at.over ==> at'.over
    ensures EventsOk(x, w, h, at')
  {
  }

  lemma EventsMove(x: Uuid, w: Str, w': Str, h: WsHere, at: WsAt)
    requires EventsOk(x, w, h, at) && w.pc.Serving? && (w'.pc.Serving? || w'.pc.Unstreaming?)
    requires w'.tunnel == w.tunnel && w'.missed == w.missed && w'.evicted == w.evicted
    ensures EventsOk(x, w', h, at)
  {
    hide WsIntact, AllFrames;
  }

  lemma DeliveredElsewhere(w: Str, w': Str, chan: Option<Queue<WsEvent>>)
    requires DeliveredOk(w, chan) && w'.delivered == w.delivered
    requires w'.pc.AwaitingAck? || w'.pc.Serving? ==> w.pc.AwaitingAck? || w.pc.Serving?
    ensures DeliveredOk(w', chan)
  {
  }

  lemma TalkGrows(said: seq<WsMessage>, input: Input, ev: WsEvent, side: Side)
    requires ValidInput(input) && EmittedEvent(side, input) == Some(ev)
    ensures ev.WsFrame? ==> input.Peer? && IsData(input.m) && Talk(said + [input.m], None) == Talk(said, None) + [ev]
    ensures ev.WsEnd? ==> Talk(said, Some(ev)) == Talk(said, None) + [ev]
  {
    if ev.WsFrame? {
      assert EventsFor(said + [input.m]) == EventsFor(said) + [EventFor(input.m)];
    }
  }

  lemma TaskSideOnLink(x: Uuid, at: WsAt, evs: seq<DownEvent>)
    requires TaskSide(x, at)
    ensures TaskSide(x, at.Heard(evs))
  {
  }

  lemma TaskSideReads(x: Uuid, at: WsAt, evs: seq<UpEvent>)
    requires TaskSide(x, at)
    ensures TaskSide(x, at.(traffic := Received(at.traffic, evs)))
  {
  }

  /** The client's loop takes an event off the channel, and hands it to the client or stops. */
  lemma ClientGetsLocal(x: Uuid, w: Str, h: WsHere, at: WsAt)
    requires WsLocal(x, w, h, at) && w.pc.Serving? && h.chan.Some? && h.chan.value.taken < |h.chan.value.sent|
    ensures var q := h.chan.value;
            var h' := h.(chan := Some(q.(taken := q.taken + 1)));
            && (forall pc: StrPc | pc.Serving? || pc.Unstreaming? ::
                  WsLocal(x, w.(pc := pc, delivered := w.delivered + [ToClient(q.sent[q.taken])]), h', at))
            && WsLocal(x, w.(pc := Unstreaming), h', at)
  {
    hide TaskSide, WsIntact, AllFrames, StrOk, ShotOk;
    var q := h.chan.value;
    assert ToClients(q.sent[..q.taken + 1]) == ToClients(q.sent[..q.taken]) + [ToClient(q.sent[q.taken])];
    ShotElsewhere(x, w, h, at.traffic);
    StrElsewhere(w);
  }

  lemma StrElsewhere(w: Str)
    requires StrOk(w) && w.pc.Serving?
    ensures forall pc: StrPc, delivered | pc.Serving? || pc.Unstreaming? :: StrOk(w.(pc := pc, delivered := delivered))
  {
  }

  lemma UnlistLocal(x: Uuid, w: Str, h: WsHere, at: WsAt)
    requires WsLocal(x, w, h, at) && w.pc.Unstreaming?
    ensures WsLocal(x, w.(pc := Unpending), h.(entry := None), at)
  {
    hide TaskSide, WsIntact, AllFrames;
  }

  /** The task's own removal of its pending entry, which drops the sender if it is still there. */
  function Unpend(h: WsHere): WsHere {
    if h.pend.Some? && h.shot.Some? then h.(pend := None, shot := Some(h.shot.value + [Dropped])) else h
  }

  lemma UnpendLocal(x: Uuid, w: Str, h: WsHere, at: WsAt)
    requires WsLocal(x, w, h, at) && w.pc.Unpending?
    ensures WsLocal(x, w.(pc := Leaving), Unpend(h), at)
    ensures h.pend.Some? ==> h.shot.Some? && h.pend.value.tx == x
  {
    hide TaskSide, WsIntact, AllFrames;
  }

  lemma WsLeaveLocal(x: Uuid, w: Str, h: WsHere, at: WsAt)
    requires WsLocal(x, w, h, at) && w.pc.Leaving?
    ensures WsLocal(x, w.(pc := StrDone),
                    h.(chan := if h.chan.Some? then Some(h.chan.value.(open := false)) else None), at)
  {
    hide TaskSide, WsIntact, AllFrames;
  }

  // ---- the session ----

  /** Nothing follows a close. */
  lemma NothingAfterClose(x: Uuid, at: WsAt)
    requires TaskSide(x, at) && at.traffic.got <= at.traffic.up && WsEnds(at.traffic.got)
    ensures at.traffic.got == at.traffic.up
  {
    var up := at.traffic.up;
    if at.task.Some? {
      assert forall i | 0 <= i < |up| - 1 :: up[i].UWs? ==> !up[i].ws.WsEnd?;
    }
  }

  /** The ack comes first, and once. */
  lemma AckComesFirst(x: Uuid, at: WsAt)
    requires TaskSide(x, at)
    ensures forall i | 0 <= i < |at.traffic.up| :: at.traffic.up[i].UAck? <==> i == 0
  {
  }

  lemma WsReadEvents(x: Uuid, w: Str, h: WsHere, at: WsAt, ev: UpEvent)
    requires EventsOk(x, w, h, at) && at.traffic.todo == [] && !at.over && !WsEnds(at.traffic.got)
    ensures EventsOk(x, w, h, at.(traffic := Received(at.traffic, [ev])))
  {
    hide WsEvents, QueueOk;
    var tr := at.traffic;
    var tr' := Received(tr, [ev]);
    WsEventsSnoc(tr.got, ev);
    assert tr'.got[|tr'.got| - 1..] == [ev];
    if h.chan.Some? {
      WsReadQueue(w, h, tr, ev);
    }
  }

  lemma WsReadQueue(w: Str, h: WsHere, tr: Traffic, ev: UpEvent)
    requires h.chan.Some? && w.missed <= |WsEvents(tr.got)| && QueueOk(w, h, tr)
    requires tr.todo == [] && tr.stage.Fresh? && !w.evicted && !h.evict.EvictStream? && !WsEnds(tr.got)
    ensures w.missed <= |WsEvents(Received(tr, [ev]).got)| && QueueOk(w, h, Received(tr, [ev]))
  {
    hide WsEvents, AllFrames, Listening;
    WsEventsSnoc(tr.got, ev);
    OneEvent(ev);
    var tr' := Received(tr, [ev]);
    assert WsEvents(tr'.got)[w.missed..] == WsEvents(tr.got)[w.missed..] + WsEvents([ev]);
  }

  lemma WsReadLocal(x: Uuid, w: Str, h: WsHere, at: WsAt, ev: UpEvent)
    requires WsLocal(x, w, h, at) && at.traffic.todo == [] && !at.over
    requires at.traffic.got + [ev] <= at.traffic.up
    ensures WsLocal(x, w, h, at.(traffic := Received(at.traffic, [ev])))
  {
    hide EventsOk, StrOk, DeliveredOk, TaskSide;
    TaskSideReads(x, at, [ev]);
    if WsEnds(at.traffic.got) {
      assert at.traffic.got <= at.traffic.up;
      NothingAfterClose(x, at);
    }
    WsReadEvents(x, w, h, at, ev);
    FreshNow(x, w, h, at);
  }

  lemma FreshNow(x: Uuid, w: Str, h: WsHere, at: WsAt)
    requires EventsOk(x, w, h, at) && at.traffic.todo == []
    ensures at.traffic.stage.Fresh?
  {
  }

  lemma StepTodo(x: Uuid, w: Str, h: WsHere, at: WsAt)
    requires EventsOk(x, w, h, at) && at.traffic.todo != []
    ensures at.traffic.todo == [at.traffic.todo[0]] && |at.traffic.got| > 0
    ensures at.traffic.got[|at.traffic.got| - 1] == at.traffic.todo[0]
    ensures !w.evicted && !h.evict.EvictStream?
    ensures WsEvents(at.traffic.todo) == if at.traffic.todo[0].UWs? then [at.traffic.todo[0].ws] else []
    ensures WsEvents([]) == []
  {
    hide QueueOk, WsEvents;
    OneEvent(at.traffic.todo[0]);
  }

  lemma OneEvent(ev: UpEvent)
    ensures WsEvents([ev]) == if ev.UWs? then [ev.ws] else []
    ensures WsEvents([]) == []
  {
    WsEventsSnoc([], ev);
    assert [] + [ev] == [ev];
  }

  ghost predicate SameSlotsBut(v: Relay, v': Relay, x: Uuid) {
    forall y: Uuid, evict | y != x :: Here(v', y, evict) == Here(v, y, evict)
  }

  lemma AckStepShot(x: Uuid, w: Str, v: Relay, evict: Evicting, tr: Traffic)
    requires ShotOk(x, w, Here(v, x, evict), tr) && tr.todo != [] && tr.todo[0].UAck?
    requires tr.got != [] && tr.got[0] == tr.todo[0]
    ensures var (b, stage) := v.acks.Step(x, tr.todo[0].ack, tr.stage);
            ShotOk(x, w, Here(v.(acks := b), x, evict), Proceed(tr, stage))
  {
  }

  lemma AckStepFrame(x: Uuid, v: Relay, ack: Ack, stage: Stage)
    requires stage.HaveSender? ==> stage.chan == x
    ensures SameSlotsBut(v, v.(acks := v.acks.Step(x, ack, stage).0), x)
  {
  }

  lemma AckStepEvents(x: Uuid, w: Str, h: WsHere, at: WsAt, stage: Stage, pend: Option<WsPending>,
                      shot: Option<seq<Resolution>>)
    requires EventsOk(x, w, h, at) && at.traffic.todo != [] && at.traffic.todo[0].UAck?
    requires stage.HaveSender? || stage.Over?
    ensures EventsOk(x, w, h.(pend := pend, shot := shot), at.(traffic := Proceed(at.traffic, stage)))
  {
    StepTodo(x, w, h, at);
  }

  lemma TaskSideProceeds(x: Uuid, at: WsAt, stage: Stage)
    requires TaskSide(x, at)
    ensures TaskSide(x, at.(traffic := Proceed(at.traffic, stage)))
  {
  }

  lemma AckStepLocal(x: Uuid, w: Str, v: Relay, evict: Evicting, at: WsAt)
    requires WsLocal(x, w, Here(v, x, evict), at) && at.traffic.todo != [] && at.traffic.todo[0].UAck?
    requires at.traffic.got <= at.traffic.up
    ensures var (b, stage) := v.acks.Step(x, at.traffic.todo[0].ack, at.traffic.stage);
            && WsLocal(x, w, Here(v.(acks := b), x, evict), at.(traffic := Proceed(at.traffic, stage)))
            && SameSlotsBut(v, v.(acks := b), x)
  {
    hide EventsOk, TaskSide, ShotOk, StrOk, DeliveredOk;
    var tr := at.traffic;
    var (b, stage) := v.acks.Step(x, tr.todo[0].ack, tr.stage);
    var h := Here(v, x, evict);
    StepTodo(x, w, h, at);
    AckComesFirst(x, at);
    assert tr.got[|tr.got| - 1] == tr.up[|tr.got| - 1];
    AckStepShot(x, w, v, evict, tr);
    OwnShot(x, w, h, tr);
    AckStepFrame(x, v, tr.todo[0].ack, tr.stage);
    AckStepEvents(x, w, h, at, stage, Get(b.entries, x), Get(b.shots, x));
    TaskSideProceeds(x, at, stage);
  }

  lemma OwnShot(x: Uuid, w: Str, h: WsHere, tr: Traffic)
    requires ShotOk(x, w, h, tr)
    ensures HoldsAck(tr) ==> tr.stage.chan == x
  {
  }

  lemma WsStepEvents(x: Uuid, w: Str, v: Relay, evict: Evicting, at: WsAt)
    requires EventsOk(x, w, Here(v, x, evict), at) && at.traffic.todo != [] && at.traffic.todo[0].UWs?
    ensures var (b, stage) := v.ws.Step(x, at.traffic.todo[0].ws, at.traffic.stage);
            EventsOk(x, w, Here(v.(ws := b), x, evict), at.(traffic := Proceed(at.traffic, stage)))
  {
    hide EventsOk;
    if at.traffic.stage.HaveSender? {
      WsSendEvents(x, w, v, evict, at);
    } else {
      WsLookEvents(x, w, v, evict, at);
    }
  }

  /** The event is sent on the channel that was looked up, if that is still open. */
  lemma WsSendEvents(x: Uuid, w: Str, v: Relay, evict: Evicting, at: WsAt)
    requires EventsOk(x, w, Here(v, x, evict), at) && at.traffic.todo != [] && at.traffic.todo[0].UWs?
    requires at.traffic.stage.HaveSender?
    ensures var (b, stage) := v.ws.Step(x, at.traffic.todo[0].ws, at.traffic.stage);
            EventsOk(x, w, Here(v.(ws := b), x, evict), at.(traffic := Proceed(at.traffic, stage)))
  {
    hide WsEvents;
    var tr := at.traffic;
    var h := Here(v, x, evict);
    StepTodo(x, w, h, at);
    if h.chan.Some? && h.chan.value.open {
      assert h.chan.value.sent + [tr.todo[0].ws] == WsEvents(tr.got)[w.missed..];
    }
  }

  /** The sender is looked up, or the entry of a closed channel forgotten. */
  lemma WsLookEvents(x: Uuid, w: Str, v: Relay, evict: Evicting, at: WsAt)
    requires EventsOk(x, w, Here(v, x, evict), at) && at.traffic.todo != [] && at.traffic.todo[0].UWs?
    requires !at.traffic.stage.HaveSender?
    ensures var (b, stage) := v.ws.Step(x, at.traffic.todo[0].ws, at.traffic.stage);
            EventsOk(x, w, Here(v.(ws := b), x, evict), at.(traffic := Proceed(at.traffic, stage)))
  {
    hide WsEvents, AllFrames;
    StepTodo(x, w, Here(v, x, evict), at);
  }

  lemma WsStepFrame(x: Uuid, v: Relay, ev: WsEvent, stage: Stage)
    requires stage.HaveSender? ==> stage.chan == x
    ensures var b := v.ws.Step(x, ev, stage).0;
            && SameSlotsBut(v, v.(ws := b), x) && (x in b.queues <==> x in v.ws.queues)
            && (x in v.ws.queues ==>
                  && b.queues[x].taken == v.ws.queues[x].taken
                  && v.ws.queues[x].sent <= b.queues[x].sent)
  {
  }

  lemma WsStepLocal(x: Uuid, w: Str, v: Relay, evict: Evicting, at: WsAt)
    requires WsLocal(x, w, Here(v, x, evict), at) && at.traffic.todo != [] && at.traffic.todo[0].UWs?
    ensures var (b, stage) := v.ws.Step(x, at.traffic.todo[0].ws, at.traffic.stage);
            && WsLocal(x, w, Here(v.(ws := b), x, evict), at.(traffic := Proceed(at.traffic, stage)))
            && SameSlotsBut(v, v.(ws := b), x)
  {
    hide EventsOk, TaskSide, ShotOk, StrOk, DeliveredOk;
    var tr := at.traffic;
    var h := Here(v, x, evict);
    var (b, stage) := v.ws.Step(x, tr.todo[0].ws, tr.stage);
    StepTodo(x, w, h, at);
    OwnSender(x, w, h, at);
    WsStepEvents(x, w, v, evict, at);
    WsStepFrame(x, v, tr.todo[0].ws, tr.stage);
    TaskSideProceeds(x, at, stage);
    ShotIgnoresEvents(x, w, h, tr, stage, Get(b.entries, x), Get(b.queues, x));
    DeliveredGrows(w, h.chan, Get(b.queues, x));
  }

  lemma OwnSender(x: Uuid, w: Str, h: WsHere, at: WsAt)
    requires EventsOk(x, w, h, at)
    ensures HoldsWs(at.traffic) ==> at.traffic.stage.chan == x
  {
  }

  lemma ShotIgnoresEvents(x: Uuid, w: Str, h: WsHere, tr: Traffic, stage: Stage, entry: Option<WsStreamHandle>,
                          chan: Option<Queue<WsEvent>>)
    requires ShotOk(x, w, h, tr) && tr.todo != [] && tr.todo[0].UWs?
    ensures ShotOk(x, w, h.(entry := entry, chan := chan), Proceed(tr, stage))
  {
  }

  /** What was received of a channel stays when more is sent on it. */
  lemma DeliveredGrows(w: Str, chan: Option<Queue<WsEvent>>, chan': Option<Queue<WsEvent>>)
    requires DeliveredOk(w, chan) && (chan.Some? <==> chan'.Some?)
    requires chan.Some? ==> chan'.value.taken == chan.value.taken && chan.value.sent <= chan'.value.sent
    ensures DeliveredOk(w, chan')
  {
    if chan.Some? {
      assert chan'.value.sent[..chan.value.taken] == chan.value.sent[..chan.value.taken];
    }
  }

  /** A session that leaves its loop leaves its streams as they are. */
  lemma OverLocal(x: Uuid, w: Str, h: WsHere, at: WsAt)
    requires WsLocal(x, w, h, at)
    ensures WsLocal(x, w, h, at.(over := true))
  {
    hide EventsOk, TaskSide, ShotOk, StrOk, DeliveredOk;
    EventsElsewhere(x, w, h, at, at.(over := true));
    assert TaskSide(x, at.(over := true)) by { OverSide(x, at); }
  }

  lemma OverSide(x: Uuid, at: WsAt)
    requires TaskSide(x, at)
    ensures TaskSide(x, at.(over := true))
  {
  }

  // ---- disconnect clean-up ----

  lemma EvictPendingLocal(x: Uuid, w: Str, h: WsHere, at: WsAt)
    requires WsLocal(x, w, h, at) && h.pend.Some? && h.evict.NoEvict?
    ensures h.pend.value.tx == x
    ensures WsLocal(x, w, h.(pend := None, evict := EvictAck(x, x)), at)
  {
    hide TaskSide, StrOk, DeliveredOk, WsIntact, AllFrames;
  }

  lemma EvictStreamLocal(x: Uuid, w: Str, h: WsHere, at: WsAt)
    requires WsLocal(x, w, h, at) && h.entry.Some? && h.evict.NoEvict? && at.over && at.traffic.todo == []
    ensures h.entry.value.sender == x
    ensures WsLocal(x, w.(evicted := true), h.(entry := None, evict := EvictStream(x, x)), at)
  {
    hide TaskSide, StrOk, AllFrames, DeliveredOk;
    assert WsEvents([]) == [];
    EvictedElsewhere(w, h.chan);
  }

  lemma EvictedElsewhere(w: Str, chan: Option<Queue<WsEvent>>)
    requires StrOk(w) && DeliveredOk(w, chan)
    ensures StrOk(w.(evicted := true)) && DeliveredOk(w.(evicted := true), chan)
  {
  }

  lemma EvictAckSentLocal(x: Uuid, w: Str, h: WsHere, at: WsAt)
    requires WsLocal(x, w, h, at) && h.evict.EvictAck?
    ensures h.evict.tx == x && h.shot.Some?
    ensures WsLocal(x, w, h.(shot := Some(h.shot.value + [Acked(SharedState.DisconnectAck())]), evict := NoEvict), at)
  {
    hide TaskSide, StrOk, DeliveredOk, WsIntact, AllFrames;
  }

  function Closing(q: Queue<WsEvent>): Queue<WsEvent> {
    if q.open then q.(sent := q.sent + [SharedState.DisconnectClose()]) else q
  }

  lemma EvictCloseSentLocal(x: Uuid, w: Str, h: WsHere, at: WsAt)
    requires WsLocal(x, w, h, at) && h.evict.EvictStream?
    ensures h.evict.chan == x && h.chan.Some?
    ensures WsLocal(x, w, h.(chan := Some(Closing(h.chan.value)), evict := NoEvict), at)
  {
    hide TaskSide, StrOk, DeliveredOk;
    DeliveredGrows(w, h.chan, Some(Closing(h.chan.value)));
  }

  // ---- the agent ----

  lemma TaskSideChanges(x: Uuid, w: Str, h: WsHere, at: WsAt, at': WsAt)
    requires WsLocal(x, w, h, at) && TaskSide(x, at')
    requires at'.traffic.got == at.traffic.got && at'.traffic.todo == at.traffic.todo
             && at'.traffic.stage == at.traffic.stage
    requires at'.traffic.down == at.traffic.down && at'.over == at.over
    ensures WsLocal(x, w, h, at')
  {
    hide StrOk, EventsOk, ShotOk, DeliveredOk, TaskSide;
    EventsElsewhere(x, w, h, at, at');
    ShotOnLinks(x, w, h, at.traffic, at'.traffic);
  }

  lemma ShotOnLinks(x: Uuid, w: Str, h: WsHere, tr: Traffic, tr': Traffic)
    requires ShotOk(x, w, h, tr) && tr'.got == tr.got && tr'.todo == tr.todo && tr'.stage == tr.stage
    ensures ShotOk(x, w, h, tr')
  {
  }

  /** The task changes, with its input and its place in the session map, and `said` is what it says. */
  lemma TaskMoveLocal(x: Uuid, w: Str, h: WsHere, at: WsAt, at': WsAt, said: seq<UpEvent>)
    requires WsLocal(x, w, h, at) && at.task.Some? && at'.task.Some?
    requires at'.traffic == at.traffic.(up := at.traffic.up + said) && at'.over == at.over
    requires at'.task.value.asked == at.task.value.asked
    requires TaskOk(at'.task.value) && Replied(at'.task.value) == Replied(at.task.value) + said
    requires InputOk(at') && (at'.listed.Some? ==> at'.listed.value == x && at'.input.Some?)
    ensures WsLocal(x, w, h, at')
  {
    hide StrOk, EventsOk, ShotOk, DeliveredOk, TaskOk, InputOk, Replied;
    TaskSideChanges(x, w, h, at, at');
  }

  lemma DownWsSnoc(evs: seq<DownEvent>, ev: DownEvent)
    ensures DownWs(evs + [ev]) == DownWs(evs) + match ev case DWs(e) => [e] case _ => []
    ensures DownWs([]) == []
  {
    assert (evs + [ev])[..|evs|] == evs;
  }

  /** A stream's view after the agent's reader has handled `ev`. */
  function AfterCall(at: WsAt, ev: DownEvent, version: byte, ws: bool, upOpen: bool): WsAt {
    var at1 := at.(traffic := Handed(at.traffic, [ev]));
    match ev
    case DConnect(_, _, _) =>
      if ws then at1.(task := Some(WsTask(ev, version, Dialing, None, [], [], None, 0, [], None)))
      else if upOpen then at1.Spoke([UAck(Ack(false, None, Some(Agent.NO_WS_CAPABILITY)))])
      else at1
    case DWs(e) =>
      if at.listed.Some? && at.input.Some? && at.input.value.open
      then at1.(input := Some(at.input.value.(sent := at.input.value.sent + [e]))) else at1
    case _ => at1
  }

  /** The relay's words about a stream: the connect, and then frames and a close. */
  lemma NextCall(w: Str, got: seq<DownEvent>, ev: DownEvent)
    requires StrOk(w) && got + [ev] <= Called(w)
    ensures ev.DConnect? || ev.DWs?
    ensures ev.DConnect? <==> got == []
  {
    var called := Called(w);
    assert ev == called[|got|];
    assert forall i | 1 <= i < |called| :: called[i].DWs?;
  }

  lemma CallSide(x: Uuid, at: WsAt, ev: DownEvent, version: byte, ws: bool, upOpen: bool)
    requires TaskSide(x, at) && at.running && (ev.DConnect? || ev.DWs?)
    requires ev.DConnect? <==> at.traffic.downGot == []
    ensures TaskSide(x, AfterCall(at, ev, version, ws, upOpen))
  {
    DownWsSnoc(at.traffic.downGot, ev);
    var heard := DownWs(at.traffic.downGot);
    if at.task.Some? && at.input.Some? && ev.DWs? {
      var t := at.task.value;
      assert (heard + [ev.ws])[t.missed..] == heard[t.missed..] + [ev.ws];
      var q := at.input.value;
      assert (q.sent + [ev.ws])[..q.taken] == q.sent[..q.taken];
    }
  }

  lemma CallLocal(x: Uuid, w: Str, h: WsHere, at: WsAt, ev: DownEvent, version: byte, ws: bool, upOpen: bool)
    requires WsLocal(x, w, h, at) && at.running
    requires at.traffic.downGot + [ev] <= at.traffic.down
    ensures WsLocal(x, w, h, AfterCall(at, ev, version, ws, upOpen))
    ensures ev.DConnect? || ev.DWs?
    ensures ev.DConnect? ==> at.task.None?
    ensures at.listed.Some? ==> at.listed.value == x && at.input.Some?
  {
    hide StrOk, EventsOk, ShotOk, DeliveredOk, TaskOk, InputOk, Replied;
    NextCall(w, at.traffic.downGot, ev);
    CallSide(x, at, ev, version, ws, upOpen);
    TaskSideChanges(x, w, h, at, AfterCall(at, ev, version, ws, upOpen));
  }

  lemma StopSide(x: Uuid, at: WsAt)
    requires TaskSide(x, at)
    ensures TaskSide(x, at.(running := false)) && TaskSide(x, at.(running := false, listed := None))
    ensures at.traffic.downGot == [] ==> TaskSide(x, at.(running := true))
    ensures at.traffic.downGot == [] ==> forall evs :: TaskSide(x, at.(traffic := Handed(at.traffic, evs)))
  {
  }

  /** The agent's run ends, or begins, or a connection is given up before it begins. */
  lemma WsStopLocal(x: Uuid, w: Str, h: WsHere, at: WsAt, at': WsAt)
    requires WsLocal(x, w, h, at)
    requires
      || at' == at.(running := false) || at' == at.(running := false, listed := None)
      || (at.traffic.downGot == [] && at' == at.(running := true))
      || (at.traffic.downGot == [] && at' == at.(traffic := Handed(at.traffic, at'.traffic.downGot)))
    ensures WsLocal(x, w, h, at')
  {
    hide StrOk, EventsOk, ShotOk, DeliveredOk, TaskSide;
    StopSide(x, at);
    TaskSideChanges(x, w, h, at, at');
  }
}
