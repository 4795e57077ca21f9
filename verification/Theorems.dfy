/** What every run of the tunnel guarantees: any number of agents, reconnects, requests and streams, under
    every interleaving of their steps, with links that may stop anywhere. */
module Theorems {
  import opened Prelude
  import opened Messages
  import opened RelayState
  import opened System
  import opened Views
  import opened Invariants
  import opened Safety
  import RequestLocal
  import RequestSteps
  import StreamSteps
  import Demux
  import Ingress

  /** `s` is where the run `steps` ends. */
  ghost predicate Reaches(tokens: set<string>, steps: seq<Label>, s: Sys) { Run(tokens, steps) == Some(s) }

  lemma Reached(tokens: set<string>, steps: seq<Label>, s: Sys)
    requires Reaches(tokens, steps, s)
    ensures Inv(s) && WireInv(s) && RegInv(s) && HttpInv(s) && WsInv(s)
  {
    hide WireInv, RegInv, HttpInv, WsInv, Run;
    RunSafe(tokens, steps);
  }

  // ---- responses ----

  lemma {:induction false} NoStartNoAnswer(evs: seq<RelayEvent>)
    requires forall i | 0 <= i < |evs| :: !evs[i].Start?
    ensures !Ingress.Replay(evs).Started()
  {
    if evs != [] {
      NoStartNoAnswer(evs[..|evs| - 1]);
    }
  }

  /** The i-th thing a proxy task says. */
  lemma SaidAt(p: Proxy, i: nat)
    requires ProxyOk(p) && i < |Said(p)|
    ensures p.start.None? ==>
              i == 0 && p.last.Some? && HttpEvents(Said(p))[i] == p.last.value && p.last.value.IsTerminal()
    ensures p.start.Some? ==>
              var ev := HttpEvents(Said(p))[i];
              if i == 0 then ev == p.start.value && ev.Start?
              else if i <= |p.emitted| then ev == Body(p.emitted[i - 1])
              else i == |p.emitted| + 1 && p.last.Some? && ev == p.last.value && ev.IsTerminal()
  {
  }

  /** What the ingress loops make of the first `n` things a proxy task says. */
  function AnswerOf(p: Proxy, n: nat): Ingress.LoopState {
    if n == 0 then Ingress.Waiting([])
    else if p.start.None? || !p.start.value.Start? then Ingress.Refused
    else if n <= |p.emitted| + 1 then
      Ingress.Responding(p.start.value.status, p.start.value.headers, p.emitted[..n - 1])
    else Ingress.Shut(p.start.value.status, p.start.value.headers, p.emitted, p.last.Some? && p.last.value.End?)
  }

  lemma {:induction false} ReplaySaid(p: Proxy, n: nat)
    requires ProxyOk(p) && n <= |Said(p)|
    ensures Ingress.Replay(HttpEvents(Said(p))[..n]) == AnswerOf(p, n)
    ensures AnswerOf(p, n).Shut? ==> p.last.Some?
    decreases n
  {
    hide Ingress.Replay, Said, ProxyOk;
    var evs := HttpEvents(Said(p));
    if n > 0 {
      ReplaySaid(p, n - 1);
      assert evs[..n] == evs[..n - 1] + [evs[n - 1]];
      Ingress.ReplaySnoc(evs[..n - 1], evs[n - 1]);
      SaidAt(p, n - 1);
    } else {
      NothingReplayed(evs);
    }
  }

  lemma NothingReplayed(evs: seq<RelayEvent>)
    ensures Ingress.Replay(evs[..0]) == Ingress.Waiting([])
  {
  }

  lemma StartComesFirst(p: Proxy)
    requires ProxyOk(p)
    ensures forall i | 0 <= i < |Said(p)| :: Said(p)[i].UHttp? && (i > 0 ==> !Said(p)[i].ev.Start?)
  {
  }

  lemma ChanFacts(r: Uuid, q: Req, entry: Option<Uuid>, chan: Option<Queue<RelayEvent>>, at: HttpAt)
    requires HttpLocal(r, q, entry, chan, at) && at.traffic.got <= at.traffic.up && chan.Some? && q.loop.Started()
    ensures at.proxy.Some? && at.traffic.up == Said(at.proxy.value) && ProxyOk(at.proxy.value)
    ensures chan.value.taken <= |chan.value.sent| && q.loop == Ingress.Replay(chan.value.sent[..chan.value.taken])
    ensures q.missed <= |at.traffic.got| && chan.value.sent <= HttpEvents(at.traffic.got)[q.missed..]
  {
  }

  lemma ChanEvents(r: Uuid, q: Req, entry: Option<Uuid>, chan: Option<Queue<RelayEvent>>, at: HttpAt)
    requires HttpLocal(r, q, entry, chan, at) && at.traffic.got <= at.traffic.up && chan.Some?
    requires q.loop.Started()
    ensures at.proxy.Some? && q.missed == 0 && at.traffic.up == Said(at.proxy.value) && ProxyOk(at.proxy.value)
    ensures q.loop == Ingress.Replay(chan.value.sent[..chan.value.taken])
    ensures chan.value.taken <= |Said(at.proxy.value)|
    ensures chan.value.sent[..chan.value.taken] == HttpEvents(Said(at.proxy.value))[..chan.value.taken]
  {
    hide HttpLocal, Ingress.Replay, Said, ProxyOk;
    ChanFacts(r, q, entry, chan, at);
    var taken := chan.value.sent[..chan.value.taken];
    var said := Said(at.proxy.value);
    assert forall i | 0 <= i < |taken| :: taken[i] == HttpEvents(said)[q.missed + i];
    if q.missed > 0 {
      StartComesFirst(at.proxy.value);
      NoStartNoAnswer(taken);
    }
  }

  /** End to end, responses: a client that is answered is answered by the task that served its request,
      with that task's status and headers; the body chunks it has been given are the first of the
      non-empty chunks the local server produced for it, and all of them if the stream ends on End. */
  lemma ResponseFidelity(tokens: set<string>, steps: seq<Label>, s: Sys, r: Uuid)
    requires Reaches(tokens, steps, s) && r in s.reqs && s.reqs[r].loop.Started()
    ensures var q := s.reqs[r];
            && q.conn in s.conns && r in s.conns[q.conn].proxies
            && var p := s.conns[q.conn].proxies[r];
               && p.start == Some(Start(q.loop.status, q.loop.headers))
               && q.yielded <= |q.loop.body| && q.loop.body[..q.yielded] <= NonEmpty(p.produced)
               && (q.loop.Shut? && q.loop.clean ==>
                     q.yielded == |q.loop.body| && q.loop.body == NonEmpty(p.produced)
                       && p.last == Some(RelayEvent.End))
  {
    hide HttpLocal, WireInv, RegInv, HttpInv, WsInv, Inv, Reaches, Said, ProxyOk;
    Reached(tokens, steps, s);
    RequestSteps.Locally(s, r);
    var q := s.reqs[r];
    var k := s.conns[q.conn];
    RequestSteps.LinksAt(s, q.conn);
    TrafficPrefix(k, HttpId(r));
    var chan := RequestSteps.ChanOf(s, r);
    AnsweredHasChan(r, q, RequestSteps.EntryOf(s, r), chan, HttpOf(k, r));
    ChanEvents(r, q, RequestSteps.EntryOf(s, r), chan, HttpOf(k, r));
    var p := k.proxies[r];
    ReplaySaid(p, chan.value.taken);
    EmittedIsProduced(p);
  }

  lemma AnsweredHasChan(r: Uuid, q: Req, entry: Option<Uuid>, chan: Option<Queue<RelayEvent>>, at: HttpAt)
    requires HttpLocal(r, q, entry, chan, at) && q.loop.Started()
    ensures chan.Some?
    ensures q.yielded <= |q.loop.body| && (q.loop.Shut? ==> q.yielded == |q.loop.body|)
  {
  }

  lemma EmittedIsProduced(p: Proxy)
    requires ProxyOk(p)
    ensures p.emitted <= NonEmpty(p.produced)
    ensures p.last == Some(RelayEvent.End) ==> p.emitted == NonEmpty(p.produced)
  {
  }

  /** The start is sent before the entry is added, so the session may have handled and dropped events by
      then; such a request is never answered with the agent's status, whatever comes later. */
  lemma LostStartNeverAnswers(tokens: set<string>, steps: seq<Label>, s: Sys, r: Uuid)
    requires Reaches(tokens, steps, s) && r in s.reqs && s.reqs[r].missed > 0
    ensures !s.reqs[r].loop.Started() && s.reqs[r].yielded == 0
  {
    hide HttpLocal, WireInv, RegInv, HttpInv, WsInv, Inv, Reaches;
    Reached(tokens, steps, s);
    RequestSteps.Locally(s, r);
    var q := s.reqs[r];
    var k := s.conns[q.conn];
    RequestSteps.LinksAt(s, q.conn);
    TrafficPrefix(k, HttpId(r));
    if q.loop.Started() {
      AnsweredHasChan(r, q, RequestSteps.EntryOf(s, r), RequestSteps.ChanOf(s, r), HttpOf(k, r));
      ChanEvents(r, q, RequestSteps.EntryOf(s, r), RequestSteps.ChanOf(s, r), HttpOf(k, r));
    }
    YieldsNothing(r, q, RequestSteps.EntryOf(s, r), RequestSteps.ChanOf(s, r), HttpOf(k, r));
  }

  lemma YieldsNothing(r: Uuid, q: Req, entry: Option<Uuid>, chan: Option<Queue<RelayEvent>>, at: HttpAt)
    requires HttpLocal(r, q, entry, chan, at)
    ensures !q.loop.Started() ==> q.yielded == 0
  {
  }

  // ---- request bodies ----

  lemma {:induction false} ChunksOfAsked(q: Req, n: nat)
    requires q.start.Some? && q.start.value.DStart? && n <= |Asked(q)|
    ensures Chunks(Asked(q)[..n]) == if n <= 1 then [] else if n <= |q.sent| + 1 then q.sent[..n - 1] else q.sent
    decreases n
  {
    hide Chunks;
    var asked := Asked(q);
    if n == 0 {
      assert asked[..0] == [];
      RequestLocal.ChunksSnoc([], DEnd);
    } else {
      ChunksOfAsked(q, n - 1);
      assert asked[..n] == asked[..n - 1] + [asked[n - 1]];
      RequestLocal.ChunksSnoc(asked[..n - 1], asked[n - 1]);
      if 2 <= n <= |q.sent| + 1 {
        assert asked[n - 1] == DBody(q.sent[n - 2]);
      }
    }
  }

  lemma {:induction false} InProjection(t: Target, log: seq<Wire>, m: Wire, ev: DownEvent)
    requires m in log && TargetOf(m) == t && ev in DownOf(m)
    ensures ev in DownFor(t, log)
  {
    if log[|log| - 1] != m {
      InProjection(t, log[..|log| - 1], m, ev);
    }
  }

  lemma BodyFacts(r: Uuid, q: Req, entry: Option<Uuid>, chan: Option<Queue<RelayEvent>>, at: HttpAt)
    requires HttpLocal(r, q, entry, chan, at) && at.proxy.Some?
    ensures at.body.Some? && BodyOk(at.body.value, Chunks(at.traffic.downGot)) && at.traffic.down == Asked(q)
    ensures q.start.None? ==> Asked(q) == []
    ensures q.start.Some? ==> q.start.value.DStart?
    ensures at.traffic.downGot != [] && q.sent <= NonEmpty(q.upload) && (q.ended ==> q.sent == NonEmpty(q.upload))
  {
    hide ChanOk, LoopOk;
  }

  lemma BodyOfUpload(r: Uuid, q: Req, entry: Option<Uuid>, chan: Option<Queue<RelayEvent>>, at: HttpAt)
    requires HttpLocal(r, q, entry, chan, at) && at.traffic.downGot <= at.traffic.down && at.proxy.Some?
    ensures at.body.Some? && at.body.value.taken <= |at.body.value.sent| && at.body.value.sent <= NonEmpty(q.upload)
    ensures DEnd in at.traffic.downGot ==> q.ended && (at.body.value.open ==> at.body.value.sent == NonEmpty(q.upload))
  {
    hide HttpLocal, Chunks, Asked;
    BodyFacts(r, q, entry, chan, at);
    var n := |at.traffic.downGot|;
    assert at.traffic.downGot == Asked(q)[..n];
    ChunksOfAsked(q, n);
    EndIsLast(q, n);
  }

  lemma EndIsLast(q: Req, n: nat)
    requires n <= |Asked(q)| && (q.start.Some? ==> q.start.value.DStart?)
    ensures DEnd in Asked(q)[..n] ==> q.ended && n == |Asked(q)| > |q.sent| + 1
  {
    var asked := Asked(q);
    assert forall i | 0 <= i < |asked| - 1 :: asked[i] != DEnd;
    assert !q.ended ==> forall i | 0 <= i < |asked| :: asked[i] != DEnd;
  }

  /** End to end, request bodies: what the local server has read of a request's body is at every moment a
      prefix of the client's upload, from its first byte; once the reader has handled the request's end
      with the local server still reading and the channel drained, it is the whole upload. */
  lemma RequestBodyFidelity(tokens: set<string>, steps: seq<Label>, s: Sys, c: nat, r: Uuid)
    requires Reaches(tokens, steps, s) && ProxyAt(s, c, r)
    ensures r in s.reqs && s.reqs[r].conn == c && r in s.conns[c].board.bodies
    ensures var b, q := s.conns[c].board.bodies[r], s.reqs[r];
            && b.taken <= |b.sent|
            && Concat(b.sent[..b.taken]) <= Concat(q.upload)
            && (Text(HttpRequestEnd(r)) in s.conns[c].down.Read() && b.open && b.taken == |b.sent| ==>
                  Concat(b.sent[..b.taken]) == Concat(q.upload) && q.ended)
  {
    hide HttpLocal, WireInv, RegInv, HttpInv, WsInv, Inv, Reaches, UpFor, DownFor, ProxyOk;
    Reached(tokens, steps, s);
    RequestSteps.ProxyHere(s, c, r);
    RequestSteps.Locally(s, r);
    var k, q := s.conns[c], s.reqs[r];
    TrafficPrefix(k, HttpId(r));
    BodyOfUpload(r, q, RequestSteps.EntryOf(s, r), RequestSteps.ChanOf(s, r), HttpOf(k, r));
    var b := k.board.bodies[r];
    ConcatNonEmpty(q.upload);
    ConcatPrefix(b.sent[..b.taken], NonEmpty(q.upload));
    if Text(HttpRequestEnd(r)) in k.down.Read() {
      InProjection(HttpId(r), k.down.Read(), Text(HttpRequestEnd(r)), DEnd);
      assert b.sent[..|b.sent|] == b.sent;
    }
  }

  // ---- what agents and channels may say about a request ----

  /** A prefix of `Start Body* (End | Error)`, or of `Error`. */
  predicate ResponseShape(evs: seq<UpEvent>) {
    && (forall i | 0 <= i < |evs| :: evs[i].UHttp?)
    && (forall i | 0 <= i < |evs| - 1 :: !evs[i].ev.IsTerminal())
    && (forall i | 1 <= i < |evs| :: !evs[i].ev.Start?)
    && (evs != [] && !evs[0].ev.Start? ==> |evs| == 1 && evs[0].ev.Error?)
  }

  /** Emission language: all that is ever put on a link about a request is of this shape, and it is on the
      link of the one connection that delivered the request's start to its agent. */
  lemma AgentEmissions(tokens: set<string>, steps: seq<Label>, s: Sys, c: nat, r: Uuid)
    requires Reaches(tokens, steps, s) && c in s.conns
    ensures ResponseShape(UpFor(HttpId(r), s.conns[c].up.sent))
    ensures UpFor(HttpId(r), s.conns[c].up.sent) != [] ==>
              && r in s.reqs && s.reqs[r].conn == c
              && DownFor(HttpId(r), s.conns[c].down.Read()) != []
                 && DownFor(HttpId(r), s.conns[c].down.Read())[0].DStart?
  {
    hide HttpLocal, WireInv, RegInv, WsInv, Inv, Reaches, UpFor, DownFor, Run;
    Reached(tokens, steps, s);
    assert HttpOk(s, r, c);
    if r in s.reqs && s.reqs[r].conn == c {
      var k := s.conns[c];
      RequestSteps.LinksAt(s, c);
      TrafficPrefix(k, HttpId(r));
      SaidShape(r, s.reqs[r], RequestSteps.EntryOf(s, r), RequestSteps.ChanOf(s, r), HttpOf(k, r));
    }
  }

  lemma SaidShape(r: Uuid, q: Req, entry: Option<Uuid>, chan: Option<Queue<RelayEvent>>, at: HttpAt)
    requires HttpLocal(r, q, entry, chan, at) && at.traffic.downGot <= at.traffic.down
    ensures ResponseShape(at.traffic.up)
    ensures at.traffic.up != [] ==> at.traffic.downGot != [] && at.traffic.downGot[0].DStart?
  {
    hide ChanOk, LoopOk;
  }

  /** Channel shapes: a request's channel holds one terminal event at most, and it comes last; a stream's
      holds frames and then one close at most, whether the agent or the disconnect clean-up sent it. */
  lemma ChannelShapes(tokens: set<string>, steps: seq<Label>, s: Sys)
    requires Reaches(tokens, steps, s)
    ensures forall r <- s.relay.http.queues, i: nat | i < |s.relay.http.queues[r].sent| - 1 ::
              !s.relay.http.queues[r].sent[i].IsTerminal()
    ensures forall x <- s.relay.ws.queues, i: nat | i < |s.relay.ws.queues[x].sent| - 1 ::
              s.relay.ws.queues[x].sent[i].WsFrame?
  {
    hide HttpLocal, WsLocal, WireInv, RegInv, Inv, Reaches, UpFor, DownFor, HttpOf, WsOf, Run;
    Reached(tokens, steps, s);
    forall r <- s.relay.http.queues, i: nat | i < |s.relay.http.queues[r].sent| - 1
      ensures !s.relay.http.queues[r].sent[i].IsTerminal()
    {
      RequestSteps.Locally(s, r);
      RequestSteps.LinksAt(s, s.reqs[r].conn);
      GotIsSent(s.conns[s.reqs[r].conn], r);
      QueueShape(r, s.reqs[r], RequestSteps.EntryOf(s, r), RequestSteps.ChanOf(s, r),
                 HttpOf(s.conns[s.reqs[r].conn], r), i);
    }
    forall x <- s.relay.ws.queues, i: nat | i < |s.relay.ws.queues[x].sent| - 1
      ensures s.relay.ws.queues[x].sent[i].WsFrame?
    {
      StreamSteps.StreamNow(s, x);
      WsQueueShape(x, s.strs[x], HereOf(s, x), WsOf(s.conns[s.strs[x].conn], x));
    }
  }

  lemma GotIsSent(k: Conn, r: Uuid)
    requires LinksOk(k)
    ensures HttpOf(k, r).traffic.got <= HttpOf(k, r).traffic.up
  {
    TrafficPrefix(k, HttpId(r));
  }

  lemma QueueShape(r: Uuid, q: Req, entry: Option<Uuid>, chan: Option<Queue<RelayEvent>>, at: HttpAt, i: nat)
    requires HttpLocal(r, q, entry, chan, at) && at.traffic.got <= at.traffic.up
    requires chan.Some? && i < |chan.value.sent| - 1
    ensures !chan.value.sent[i].IsTerminal()
  {
    hide LoopOk;
    assert chan.value.sent[i] == HttpEvents(at.traffic.got)[q.missed + i];
    assert at.traffic.got[q.missed + i] == at.traffic.up[q.missed + i];
  }

  lemma WsQueueShape(x: Uuid, w: Str, h: WsHere, at: WsAt)
    requires WsLocal(x, w, h, at) && h.chan.Some?
    ensures forall i | 0 <= i < |h.chan.value.sent| - 1 :: h.chan.value.sent[i].WsFrame?
  {
  }

  /** Inflight lifecycle: an entry belongs to a request whose task still wants its events, or whose client
      went away and whose channel is closed; it is gone once the task has ended, however it ended. */
  lemma InflightLifecycle(tokens: set<string>, steps: seq<Label>, s: Sys, r: Uuid)
    requires Reaches(tokens, steps, s)
    ensures r in s.relay.http.entries ==>
              && r in s.reqs
              && (Holding(s.reqs[r].pc)
                  || (s.reqs[r].pc.Abandoned? && !s.relay.http.Open(s.relay.http.entries[r])))
    ensures r in s.reqs && (s.reqs[r].pc.Dropping? || s.reqs[r].pc.ReqDone?) ==> r !in s.relay.http.entries
  {
    hide HttpLocal, WireInv, RegInv, WsInv, Inv, Reaches, UpFor, DownFor, HttpOf, Run;
    Reached(tokens, steps, s);
    if r in s.reqs {
      RequestSteps.Locally(s, r);
      EntryLife(r, s.reqs[r], RequestSteps.EntryOf(s, r), RequestSteps.ChanOf(s, r),
                HttpOf(s.conns[s.reqs[r].conn], r));
    }
  }

  lemma EntryLife(r: Uuid, q: Req, entry: Option<Uuid>, chan: Option<Queue<RelayEvent>>, at: HttpAt)
    requires HttpLocal(r, q, entry, chan, at)
    ensures entry.Some? ==> entry.value == r && chan.Some? && (Holding(q.pc) || (q.pc.Abandoned? && !chan.value.open))
    ensures q.pc.Dropping? || q.pc.ReqDone? ==> entry.None?
  {
  }

  /** A request whose client went away is forgotten with the next event the session comes to the end of: the
      step that finishes handling an event of it, whatever other steps came between the operations of that
      event, leaves its entry gone. */
  lemma AbandonedIsForgotten(tokens: set<string>, steps: seq<Label>, s: Sys, c: nat, r: Uuid, s': Sys)
    requires Reaches(tokens, steps, s) && SessionStep(s, c) == Some(s')
    requires s.conns[c].job.t == HttpId(r) && s'.conns[c].job.NoJob?
    requires r in s.reqs && s.reqs[r].pc.Abandoned?
    ensures r !in s'.relay.http.entries
  {
    hide HttpLocal, WireInv, RegInv, HttpInv, WsInv, Inv, Reaches, UpFor, DownFor, Demux.Fits;
    Reached(tokens, steps, s);
    RequestSteps.EventFits(s, c);
    OwnJob(s, c, r);
    RequestSteps.Locally(s, r);
    LastOperation(r, s.reqs[r], s.relay.http, HttpOf(s.conns[c], r));
  }

  lemma OwnJob(s: Sys, c: nat, r: Uuid)
    requires HttpInv(s) && c in s.conns && r in s.reqs
    requires TodoFor(s.conns[c], HttpId(r)) != []
    ensures s.reqs[r].conn == c
  {
    assert HttpOk(s, r, c);
  }

  lemma LastOperation(r: Uuid, q: Req, b: HttpBoard, at: HttpAt)
    requires HttpLocal(r, q, Get(b.entries, r), Get(b.queues, r), at) && q.pc.Abandoned?
    requires at.traffic.todo != [] && at.traffic.todo[0].UHttp?
    ensures var (b', stage) := b.Step(r, at.traffic.todo[0].ev, at.traffic.stage); stage.Over? ==> r !in b'.entries
  {
    hide AgentOk, LoopOk, ReqOk, Intact;
  }

  /** The channel of a request never gives out for want of a sender: while its task waits for the start the
      wait ends with an event or the deadline, and while it streams with an event or its client. */
  lemma NeverWithoutSender(tokens: set<string>, steps: seq<Label>, s: Sys, r: Uuid)
    requires Reaches(tokens, steps, s) && r in s.reqs
    ensures ReceiveFails(s, r, false).None?
    ensures s.reqs[r].pc.Streaming? ==> ReceiveFails(s, r, true).None?
  {
    hide HttpLocal, WireInv, RegInv, HttpInv, WsInv, Inv, Reaches, UpFor, DownFor;
    Reached(tokens, steps, s);
    RequestSteps.Locally(s, r);
    var q := s.reqs[r];
    var k := s.conns[q.conn];
    if q.pc.Awaiting? || q.pc.Streaming? {
      SenderOrEvent(r, q, RequestSteps.EntryOf(s, r), RequestSteps.ChanOf(s, r), HttpOf(k, r));
      if HttpOf(k, r).traffic.stage == HaveSender(r) {
        assert k.job.Job? && k.job.stage == HaveSender(r);
      }
    }
  }

  lemma SenderOrEvent(r: Uuid, q: Req, entry: Option<Uuid>, chan: Option<Queue<RelayEvent>>, at: HttpAt)
    requires HttpLocal(r, q, entry, chan, at) && (q.pc.Awaiting? || q.pc.Streaming?)
    ensures chan.Some?
    ensures entry.Some? || at.traffic.stage == HaveSender(r) || chan.value.taken < |chan.value.sent|
  {
    hide HttpLocal, Ingress.Replay;
    Listens(r, q, entry, chan, at);
    var sent := chan.value.sent;
    if entry.None? && !at.traffic.stage.HaveSender? && chan.value.taken == |sent| {
      assert sent[..|sent|] == sent && sent == sent[..|sent| - 1] + [sent[|sent| - 1]];
      Ingress.ReplaySnoc(sent[..|sent| - 1], sent[|sent| - 1]);
    }
  }

  lemma Listens(r: Uuid, q: Req, entry: Option<Uuid>, chan: Option<Queue<RelayEvent>>, at: HttpAt)
    requires HttpLocal(r, q, entry, chan, at) && (q.pc.Awaiting? || q.pc.Streaming?)
    ensures chan.Some? && q.loop.Listening() && chan.value.taken <= |chan.value.sent|
    ensures q.loop == Ingress.Replay(chan.value.sent[..chan.value.taken])
    ensures at.traffic.stage.HaveSender? ==> at.traffic.stage.chan == r
    ensures entry.None? && !at.traffic.stage.HaveSender? ==>
              chan.value.sent != [] && chan.value.sent[|chan.value.sent| - 1].IsTerminal()
  {
    hide AgentOk, ReqOk, Ingress.Replay;
    assert HttpEvents([]) == [];
  }

  /** The request an agent's task makes of its local server is the client's: the method, path and headers that
      the relay's task for it sent. */
  lemma LocalRequestIsTheClients(tokens: set<string>, steps: seq<Label>, s: Sys, c: nat, r: Uuid)
    requires Reaches(tokens, steps, s) && ProxyAt(s, c, r)
    ensures r in s.reqs && s.reqs[r].conn == c && s.reqs[r].start == Some(s.conns[c].proxies[r].asked)
  {
    hide HttpLocal, WireInv, RegInv, HttpInv, WsInv, Inv, Reaches, UpFor, DownFor, ProxyOk;
    Reached(tokens, steps, s);
    RequestSteps.ProxyHere(s, c, r);
    RequestSteps.Locally(s, r);
    TrafficPrefix(s.conns[c], HttpId(r));
    AskedFirst(r, s.reqs[r], RequestSteps.EntryOf(s, r), RequestSteps.ChanOf(s, r), HttpOf(s.conns[c], r));
  }

  lemma AskedFirst(r: Uuid, q: Req, entry: Option<Uuid>, chan: Option<Queue<RelayEvent>>, at: HttpAt)
    requires HttpLocal(r, q, entry, chan, at) && at.traffic.downGot <= at.traffic.down && at.proxy.Some?
    ensures q.start == Some(at.proxy.value.asked)
  {
    hide ChanOk, LoopOk;
  }
}
