/** Disconnect clean-up over whole runs: what was in the maps when the session that cleans up took the lock is
    gone from them when it gives the lock back. */
module Cleanup {
  import opened Prelude
  import opened Messages
  import opened WsTunnel
  import opened RelayState
  import opened System
  import opened Views
  import opened Invariants
  import opened Safety
  import Session
  import Frames
  import RegistrySteps
  import StreamSteps

  /** How much of the clean-up is done. */
  ghost predicate Swept(sweep: Sweep, pending: set<Uuid>, streams: set<Uuid>) {
    match sweep.phase
    case FindPending(_) => true
    case FailPending(ids) => forall x <- sweep.pending :: x in ids || x !in pending
    case FindStreams(_, due) =>
      && (forall x <- sweep.pending :: x !in pending)
      && (forall x <- sweep.streams :: x in due || x !in streams)
    case CloseStreams(ids) =>
      && (forall x <- sweep.pending :: x !in pending)
      && (forall x <- sweep.streams :: x in ids || x !in streams)
  }

  /** What was there at the start is known: its one-shots and channels, and its tunnel. */
  ghost predicate Known(s: Sys, sweep: Sweep) {
    && sweep.pending <= s.relay.acks.shots.Keys
    && sweep.streams <= s.relay.ws.queues.Keys
    && forall x <- sweep.streams :: x in s.strs && s.strs[x].tunnel == sweep.tunnelId
  }

  ghost predicate CleanInv(s: Sys) {
    s.lock.Held? ==>
      && Known(s, s.lock.sweep)
      && Swept(s.lock.sweep, s.relay.acks.entries.Keys, s.relay.ws.entries.Keys)
  }

  // ---- steps that leave the clean-up where it is ----

  /** No entry is new but of a stream that is. */
  ghost predicate Tidy(s: Sys, s': Sys) {
    && s'.lock == s.lock
    && (forall x <- s'.relay.acks.entries :: x in s.relay.acks.entries || x !in s.relay.acks.shots)
    && (forall x <- s'.relay.ws.entries :: x in s.relay.ws.entries || x !in s.relay.ws.queues)
    && s.relay.acks.shots.Keys <= s'.relay.acks.shots.Keys && s.relay.ws.queues.Keys <= s'.relay.ws.queues.Keys
    && (forall x <- s.strs :: x in s'.strs && s'.strs[x].tunnel == s.strs[x].tunnel)
  }

  lemma TidyKeeps(s: Sys, s': Sys)
    requires CleanInv(s) && Tidy(s, s')
    ensures CleanInv(s')
  {
    hide Known, Swept, Tidy;
    if s.lock.Held? {
      KnownStays(s, s', s.lock.sweep);
      SweptStays(s, s', s.lock.sweep);
    }
    TidyLock(s, s');
  }

  lemma TidyLock(s: Sys, s': Sys)
    requires Tidy(s, s')
    ensures s'.lock == s.lock
  {
  }

  lemma KnownStays(s: Sys, s': Sys, sweep: Sweep)
    requires Known(s, sweep) && Tidy(s, s')
    ensures Known(s', sweep)
  {
  }

  lemma SweptStays(s: Sys, s': Sys, sweep: Sweep)
    requires Known(s, sweep) && Tidy(s, s')
    requires Swept(sweep, s.relay.acks.entries.Keys, s.relay.ws.entries.Keys)
    ensures Swept(sweep, s'.relay.acks.entries.Keys, s'.relay.ws.entries.Keys)
  {
    assert forall x <- sweep.pending :: x in s.relay.acks.shots.Keys;
    assert forall x <- sweep.streams :: x in s.relay.ws.queues.Keys;
  }

  /** The lock and all that streams have at the relay are as they were. */
  predicate SameMaps(s: Sys, s': Sys) {
    s'.lock == s.lock && s'.relay.acks == s.relay.acks && s'.relay.ws == s.relay.ws && s'.strs == s.strs
  }

  lemma SameMapsTidy(s: Sys, s': Sys)
    requires SameMaps(s, s')
    ensures Tidy(s, s')
  {
  }

  // ---- sessions ----

  lemma EventTidy(s: Sys, c: nat, s': Sys)
    requires SessionStep(s, c) == Some(s')
    ensures Tidy(s, s')
  {
    hide HttpBoard.Step;
  }

  lemma LeaveClean(s: Sys, c: nat, s': Sys)
    requires Inv(s) && SessionLeave(s, c) == Some(s')
    ensures CleanInv(s')
  {
    hide Inv, WireInv, RegInv, HttpInv, WsInv, Known, SweepOf;
    InvParts(s);
    StartKnown(s, s.conns[c].tunnel);
    SameKnown(s, s', SweepOf(s, s.conns[c].tunnel));
  }

  lemma SameKnown(s: Sys, s': Sys, sweep: Sweep)
    requires Known(s, sweep) && s'.strs == s.strs
    requires s'.relay.acks == s.relay.acks && s'.relay.ws == s.relay.ws
    ensures Known(s', sweep)
  {
  }

  lemma StartKnown(s: Sys, t: string)
    requires WsInv(s)
    ensures Known(s, SweepOf(s, t)) && SweepOf(s, t).phase.FindPending?
  {
    hide WsInv, MatchingPending, MatchingStreams;
    var sweep := SweepOf(s, t);
    forall x <- sweep.pending ensures x in s.relay.acks.shots.Keys {
      Traced(s, t, x);
    }
    forall x <- sweep.streams ensures x in s.relay.ws.queues.Keys && x in s.strs && s.strs[x].tunnel == t {
      Traced(s, t, x);
    }
  }

  /** An entry of the tunnel has its one-shot, or its channel, and its stream. */
  lemma Traced(s: Sys, t: string, x: Uuid)
    requires WsInv(s)
    requires x in MatchingPending(s.relay.acks, t) || x in MatchingStreams(s.relay.ws, t)
    ensures x in s.strs && s.strs[x].tunnel == t
    ensures x in MatchingPending(s.relay.acks, t) ==> x in s.relay.acks.shots
    ensures x in MatchingStreams(s.relay.ws, t) ==> x in s.relay.ws.queues
  {
    hide WsInv, WsLocal, WsOf;
    StreamSteps.MatchIsOwn(s, t, x);
    StreamSteps.StreamNow(s, x);
    Slots(x, s.strs[x], HereOf(s, x), WsOf(s.conns[s.strs[x].conn], x));
  }

  lemma Slots(x: Uuid, w: Str, h: WsHere, at: WsAt)
    requires WsLocal(x, w, h, at)
    ensures h.pend.Some? ==> h.shot.Some?
    ensures h.entry.Some? ==> h.chan.Some? && h.entry.value == WsStreamHandle(w.tunnel, x)
    ensures w.pc.Beginning? ==> h.shot.None?
    ensures w.pc.Upgrading? ==> h.chan.None?
  {
  }

  lemma NextPhaseClean(s: Sys, c: nat, s': Sys)
    requires Inv(s) && CleanInv(s) && NextPhase(s, c) == Some(s')
    ensures CleanInv(s')
  {
    hide Inv, WsInv, Known, Swept, NextPhase, MatchingStreams;
    InvParts(s);
    PhaseOnly(s, c, s');
    StreamsDue(s, s.lock.sweep);
    NextSwept(s, c, s');
    EvictKnown(s, s');
  }

  lemma PhaseOnly(s: Sys, c: nat, s': Sys)
    requires NextPhase(s, c) == Some(s')
    ensures s.lock.Held? && s'.lock.Held? && s' == s.(lock := s'.lock)
    ensures s'.lock.sweep == s.lock.sweep.(phase := s'.lock.sweep.phase)
  {
    hide MatchingStreams;
  }

  lemma NextSwept(s: Sys, c: nat, s': Sys)
    requires NextPhase(s, c) == Some(s')
    requires Swept(s.lock.sweep, s.relay.acks.entries.Keys, s.relay.ws.entries.Keys)
    requires forall x <- s.lock.sweep.streams ::
               x in MatchingStreams(s.relay.ws, s.lock.sweep.tunnelId) || x !in s.relay.ws.entries
    ensures Swept(s'.lock.sweep, s.relay.acks.entries.Keys, s.relay.ws.entries.Keys)
  {
    hide MatchingStreams;
    match s.lock.sweep.phase
    case FindPending(ids) =>
    case FailPending(ids) =>
    case FindStreams(ids, due) =>
    case CloseStreams(ids) =>
  }

  /** The streams of the start that are still there are found by a search that begins now. */
  lemma StreamsDue(s: Sys, sweep: Sweep)
    requires WsInv(s) && Known(s, sweep)
    ensures forall x <- sweep.streams :: x in MatchingStreams(s.relay.ws, sweep.tunnelId) || x !in s.relay.ws.entries
  {
    hide WsInv;
    forall x <- sweep.streams
      ensures x in MatchingStreams(s.relay.ws, sweep.tunnelId) || x !in s.relay.ws.entries
    {
      if x in s.relay.ws.entries {
        OwnHandle(s, x);
      }
    }
  }

  lemma OwnHandle(s: Sys, x: Uuid)
    requires WsInv(s) && x in s.relay.ws.entries && x in s.strs
    ensures s.relay.ws.entries[x].tunnelId == s.strs[x].tunnel
  {
    hide WsInv, WsLocal, WsOf;
    StreamSteps.StreamNow(s, x);
    Slots(x, s.strs[x], HereOf(s, x), WsOf(s.conns[s.strs[x].conn], x));
  }

  lemma FindEntryClean(s: Sys, c: nat, x: Uuid, s': Sys)
    requires CleanInv(s) && FindEntry(s, c, x) == Some(s')
    ensures CleanInv(s')
  {
    hide MatchingPending, MatchingStreams;
  }

  lemma EvictPendingClean(s: Sys, c: nat, x: Uuid, s': Sys)
    requires CleanInv(s) && EvictPending(s, c, x) == Some(s')
    ensures CleanInv(s')
  {
    hide Known;
    EvictKnown(s, s');
  }

  lemma EvictStreamClean(s: Sys, c: nat, x: Uuid, s': Sys)
    requires CleanInv(s) && EvictStreamEntry(s, c, x) == Some(s')
    ensures CleanInv(s')
  {
    hide Known;
    EvictKnown(s, s');
  }

  lemma EvictKnown(s: Sys, s': Sys)
    requires s.lock.Held? && s'.lock.Held? && Known(s, s.lock.sweep)
    requires s'.lock.sweep == s.lock.sweep.(phase := s'.lock.sweep.phase)
    requires s'.relay.acks.shots == s.relay.acks.shots && s'.relay.ws.queues == s.relay.ws.queues
    requires forall x <- s.strs :: x in s'.strs && s'.strs[x].tunnel == s.strs[x].tunnel
    ensures Known(s', s'.lock.sweep)
  {
  }

  lemma EvictSendClean(s: Sys, c: nat, s': Sys)
    requires CleanInv(s) && EvictSend(s, c) == Some(s')
    ensures CleanInv(s')
  {
  }

  lemma SessionClean(s: Sys, c: nat, move: SessionMove, s': Sys)
    requires Inv(s) && CleanInv(s) && SessionNext(s, c, move) == Some(s')
    ensures CleanInv(s')
  {
    hide Inv, CleanInv, SessionStep, SessionLeave, FindEntry, NextPhase, EvictPending, EvictStreamEntry, EvictSend,
         SessionEnd, OpenConn, SessionRegister, SessionGiveUp, SessionAck, SessionRead, CloseLink;
    match move
    case HandleEvent => EventTidy(s, c, s'); TidyKeeps(s, s');
    case Leave => LeaveClean(s, c, s');
    case FindsEntry(x) => FindEntryClean(s, c, x, s');
    case GoesOn => NextPhaseClean(s, c, s');
    case TakePending(x) => EvictPendingClean(s, c, x, s');
    case TakeStream(x) => EvictStreamClean(s, c, x, s');
    case UseSender => EvictSendClean(s, c, s');
    case FinishCleanup => EndClean(s, c, s');
    case _ => QuietSession(s, c, move, s'); SameMapsTidy(s, s'); TidyKeeps(s, s');
  }

  lemma EndClean(s: Sys, c: nat, s': Sys)
    requires SessionEnd(s, c) == Some(s')
    ensures CleanInv(s')
  {
  }

  lemma QuietSession(s: Sys, c: nat, move: SessionMove, s': Sys)
    requires SessionNext(s, c, move) == Some(s')
    requires
      || move.Connect? || move.Register? || move.GiveUp? || move.Acknowledge?
      || move.ReadMessage? || move.CloseWriter?
    ensures SameMaps(s, s')
  {
    hide Session.Gate, Session.AckFor, JobOf, Link.Put;
  }

  // ---- agents, and requests at either end ----

  lemma AgentMaps(s: Sys, c: nat, move: AgentMove, s': Sys)
    requires AgentNext(s, c, move) == Some(s')
    ensures SameMaps(s, s')
  {
    hide Handled;
  }

  lemma RequestMaps(s: Sys, r: Uuid, move: RequestMove, s': Sys)
    requires RequestNext(s, r, move) == Some(s')
    ensures SameMaps(s, s')
  {
    hide SendDown, BodyFrame, UpFor, TodoFor, Less, HttpBoard.Drop, NoSenderLeft;
  }

  lemma LocalMaps(s: Sys, c: nat, r: Uuid, move: LocalMove, s': Sys)
    requires LocalNext(s, c, r, move) == Some(s')
    ensures SameMaps(s, s')
  {
    hide SendUp, SetProxy, BodyFrame;
  }

  lemma TaskMaps(s: Sys, c: nat, x: Uuid, move: TaskMove, s': Sys)
    requires TaskNext(s, c, x, move) == Some(s')
    ensures SameMaps(s, s')
  {
    hide SendUp, SetTask, WireFor, DownFor, DownWs, InputReady, Hear, AfterEvent, TakeTurn, EmittedEvent;
  }

  // ---- streams ----

  lemma StreamTidy(s: Sys, x: Uuid, move: StreamMove, s': Sys)
    requires Inv(s) && StreamNext(s, x, move) == Some(s')
    ensures Tidy(s, s')
  {
    hide Inv, Tidy;
    OneStreamMoves(s, x, move, s');
    NewSlots(s, x, move, s');
  }

  /** The stream has no slot yet where its task adds one. */
  lemma NewSlots(s: Sys, x: Uuid, move: StreamMove, s': Sys)
    requires Inv(s) && StreamNext(s, x, move) == Some(s') && OnlyAt(s, s', x)
    requires move.AddsPending? ==> x in s.strs && s.strs[x].pc.Beginning?
    requires move.AddsStream? ==> x in s.strs && s.strs[x].pc.Upgrading?
    requires !move.AddsPending? ==> (x in s'.relay.acks.entries ==> x in s.relay.acks.entries)
    requires !move.AddsStream? ==> (x in s'.relay.ws.entries ==> x in s.relay.ws.entries)
    ensures Tidy(s, s')
  {
    hide Inv, WsInv, WsLocal, WsOf, StreamNext, TrafficOf;
    InvParts(s);
    if x in s.strs {
      StreamSteps.StreamNow(s, x);
      Slots(x, s.strs[x], HereOf(s, x), WsOf(s.conns[s.strs[x].conn], x));
    }
  }

  /** Of the maps of streams only what `x` has there changes, and no channel or one-shot goes. */
  ghost predicate OnlyAt(s: Sys, s': Sys, x: Uuid) {
    && s'.lock == s.lock
    && (forall y <- s'.relay.acks.entries :: y == x || y in s.relay.acks.entries)
    && (forall y <- s'.relay.ws.entries :: y == x || y in s.relay.ws.entries)
    && s.relay.acks.shots.Keys <= s'.relay.acks.shots.Keys && s.relay.ws.queues.Keys <= s'.relay.ws.queues.Keys
    && (forall y <- s.strs :: y in s'.strs && s'.strs[y].tunnel == s.strs[y].tunnel)
  }

  lemma EarlyMoves(s: Sys, x: Uuid, move: StreamMove, s': Sys)
    requires StreamNext(s, x, move) == Some(s')
    requires
      || move.Opens? || move.AddsPending? || move.SendsConnect? || move.LosesUpgrade?
      || move.AddsStream? || move.GetsAck?
    ensures OnlyAt(s, s', x)
    ensures move.AddsPending? ==> x in s.strs && s.strs[x].pc.Beginning?
    ensures move.AddsStream? ==> x in s.strs && s.strs[x].pc.Upgrading?
    ensures !move.AddsPending? ==> (x in s'.relay.acks.entries ==> x in s.relay.acks.entries)
    ensures !move.AddsStream? ==> (x in s'.relay.ws.entries ==> x in s.relay.ws.entries)
  {
    hide SendDown, WireFor, UpFor, TodoFor, Less, WsEvents, WsSenderLeft, InputReady, Hear, TakeTurn, EmittedEvent,
         AfterEvent;
  }

  lemma LateMoves(s: Sys, x: Uuid, move: StreamMove, s': Sys)
    requires StreamNext(s, x, move) == Some(s')
    requires
      || move.TimesOut? || move.Rejects? || move.RemovesStream? || move.RemovesPending? || move.Departs?
    ensures OnlyAt(s, s', x)
    ensures x in s'.relay.acks.entries ==> x in s.relay.acks.entries
    ensures x in s'.relay.ws.entries ==> x in s.relay.ws.entries
  {
  }

  lemma TurnMoves(s: Sys, x: Uuid, input: Input, delivers: bool, s': Sys)
    requires ClientTurn(s, x, input, delivers) == Some(s')
    ensures OnlyAt(s, s', x)
    ensures s'.relay.acks.entries == s.relay.acks.entries && s'.relay.ws.entries == s.relay.ws.entries
  {
    hide SendDown, WireFor, WsSenderLeft, InputReady, Hear, TakeTurn, EmittedEvent, AfterEvent, OnlyAt;
    TurnsAlone(s, s', x, s'.strs[x]);
  }

  lemma TurnsAlone(s: Sys, s': Sys, x: Uuid, w: Str)
    requires x in s.strs && x in s.relay.ws.queues && x in s'.relay.ws.queues && s'.lock == s.lock
    requires s'.strs == s.strs[x := w] && w.tunnel == s.strs[x].tunnel && s'.relay.acks == s.relay.acks
    requires s'.relay.ws == s.relay.ws.(queues := s.relay.ws.queues[x := s'.relay.ws.queues[x]])
    ensures OnlyAt(s, s', x)
  {
  }

  lemma OneStreamMoves(s: Sys, x: Uuid, move: StreamMove, s': Sys)
    requires StreamNext(s, x, move) == Some(s')
    ensures OnlyAt(s, s', x)
    ensures move.AddsPending? ==> x in s.strs && s.strs[x].pc.Beginning?
    ensures move.AddsStream? ==> x in s.strs && s.strs[x].pc.Upgrading?
    ensures !move.AddsPending? ==> (x in s'.relay.acks.entries ==> x in s.relay.acks.entries)
    ensures !move.AddsStream? ==> (x in s'.relay.ws.entries ==> x in s.relay.ws.entries)
  {
    hide OnlyAt, WsArrive, AddWsPending, SendConnect, UpgradeLost, AddWsStream, AckArrives, AckTimeout, RejectClient,
         ClientTurn, RemoveWsStream, RemoveWsPending, LeaveStream;
    if move.Opens? || move.AddsPending? || move.SendsConnect? || move.LosesUpgrade? || move.AddsStream?
       || move.GetsAck? {
      EarlyMoves(s, x, move, s');
    } else if move.TakesTurn? {
      TurnMoves(s, x, move.input, move.delivers, s');
    } else {
      LateMoves(s, x, move, s');
    }
  }

  lemma StepClean(s: Sys, l: Label, s': Sys)
    requires Inv(s) && CleanInv(s) && Next(s, l) == Some(s')
    ensures CleanInv(s')
  {
    hide Inv, CleanInv, Tidy, SameMaps, SessionNext, AgentNext, RequestNext, LocalNext, StreamNext, TaskNext;
    match l {
      case OfSession(c, move) => SessionClean(s, c, move, s');
      case OfStream(x, move) => StreamTidy(s, x, move, s'); TidyKeeps(s, s');
      case OfAgent(c, move) => AgentMaps(s, c, move, s'); SameMapsTidy(s, s'); TidyKeeps(s, s');
      case OfRequest(r, move) => RequestMaps(s, r, move, s'); SameMapsTidy(s, s'); TidyKeeps(s, s');
      case OfLocal(c, r, move) => LocalMaps(s, c, r, move, s'); SameMapsTidy(s, s'); TidyKeeps(s, s');
      case OfTask(c, x, move) => TaskMaps(s, c, x, move, s'); SameMapsTidy(s, s'); TidyKeeps(s, s');
    }
  }

  lemma {:induction false} RunClean(tokens: set<string>, steps: seq<Label>)
    ensures Run(tokens, steps).Some? ==> CleanInv(Run(tokens, steps).value)
  {
    hide Inv, CleanInv, Next;
    if steps == [] {
      FreeIsClean(Init(tokens));
    } else {
      var init, last := steps[..|steps| - 1], steps[|steps| - 1];
      RunClean(tokens, init);
      if Run(tokens, init).Some? && Next(Run(tokens, init).value, last).Some? {
        RunSafe(tokens, init);
        StepClean(Run(tokens, init).value, last, Next(Run(tokens, init).value, last).value);
      }
    }
  }

  lemma FreeIsClean(s: Sys)
    requires s.lock.Free?
    ensures CleanInv(s)
  {
  }

  /** When a session that cleans up gives the lock back, every entry of its tunnel that either map held when it
      took the lock is gone, whatever other tasks did meanwhile. */
  lemma CleanupIsComplete(tokens: set<string>, before: seq<Label>, s: Sys, c: nat, later: seq<Label>, s2: Sys)
    requires Run(tokens, before) == Some(s) && SessionLeave(s, c).Some?
    requires Run(tokens, before + [OfSession(c, Leave)] + later) == Some(s2) && SessionEnd(s2, c).Some?
    ensures forall x <- s.relay.acks.entries ::
              s.relay.acks.entries[x].tunnelId == s.conns[c].tunnel ==> x !in s2.relay.acks.entries
    ensures forall x <- s.relay.ws.entries ::
              s.relay.ws.entries[x].tunnelId == s.conns[c].tunnel ==> x !in s2.relay.ws.entries
  {
    hide Run, Known, Inv;
    var before1 := before + [OfSession(c, Leave)];
    RunClean(tokens, before1 + later);
    LeaveTakes(tokens, before, s, c);
    Frames.RunGrows(tokens, before1, later, c);
    assert s2.lock.sweep.pending == MatchingPending(s.relay.acks, s.conns[c].tunnel);
    assert s2.lock.sweep.streams == MatchingStreams(s.relay.ws, s.conns[c].tunnel);
  }

  lemma LeaveTakes(tokens: set<string>, before: seq<Label>, s: Sys, c: nat)
    requires Run(tokens, before) == Some(s) && SessionLeave(s, c).Some?
    ensures Run(tokens, before + [OfSession(c, Leave)]) == SessionLeave(s, c)
    ensures SessionLeave(s, c).value.lock == Held(c, SweepOf(s, s.conns[c].tunnel), NoEvict)
    ensures c in SessionLeave(s, c).value.conns && HasLeft(SessionLeave(s, c).value.conns[c])
  {
    hide Inv, WireInv, HttpInv, WsInv, RegInv, SweepOf;
    assert (before + [OfSession(c, Leave)])[..|before|] == before;
    RunSafe(tokens, before);
    InvParts(s);
    RegistrySteps.GuardHolds(s, c);
  }
}
