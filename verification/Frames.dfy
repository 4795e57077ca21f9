/** What no step takes back: the tokens the relay was started with, what a link has accepted, and what a
    clean-up has to remove. */
module Frames {
  import opened Prelude
  import opened Messages
  import opened RelayState
  import opened WsTunnel
  import opened System
  import opened Views
  import Agent
  import Ingress
  import Session

  /** A link forgets nothing it accepted. */
  predicate LinkGrows(s: Sys, s': Sys, d: nat) {
    d in s.conns ==>
      && d in s'.conns
      && s.conns[d].down.sent <= s'.conns[d].down.sent && s.conns[d].up.sent <= s'.conns[d].up.sent
  }

  /** The agent's first message is a registration that the gate passes. */
  ghost predicate Admitted(tokens: set<string>, k: Conn) {
    k.up.sent != [] && k.up.sent[0].Text? && Session.Gate(tokens, Some(k.up.sent[0].msg)).Passed?
  }

  /** Whoever is newly registered has passed the gate. */
  ghost predicate NewlyAdmitted(s: Sys, s': Sys, d: nat) {
    d in s'.conns && s'.conns[d].epoch > 0 ==>
      (d in s.conns && s.conns[d].epoch > 0) || Admitted(s.tokens, s'.conns[d])
  }

  /** A session whose loop has ended does not come back, and while it cleans up it remembers what it found. */
  predicate SweepStays(s: Sys, s': Sys, d: nat) {
    d in s.conns && HasLeft(s.conns[d]) ==>
      && d in s'.conns && HasLeft(s'.conns[d])
      && (s'.lock.Held? && s'.lock.conn == d ==>
            && s.lock.Held? && s.lock.conn == d
            && s'.lock.sweep.(phase := s.lock.sweep.phase) == s.lock.sweep)
  }

  /** A link that does not accept any more never does again. */
  predicate StaysShut(s: Sys, s': Sys, d: nat) {
    d in s.conns ==>
      && d in s'.conns
      && (s'.conns[d].down.open ==> s.conns[d].down.open) && (s'.conns[d].up.open ==> s.conns[d].up.open)
  }

  ghost predicate Onward(s: Sys, s': Sys, d: nat) {
    LinkGrows(s, s', d) && SweepStays(s, s', d) && NewlyAdmitted(s, s', d) && StaysShut(s, s', d)
  }

  lemma PutGrows()
    ensures forall l: Link, m: Wire :: l.sent <= l.Put(m).sent && l.Put(m).open == l.open
  {
  }

  /** A step of one connection, or of none, that leaves its registration alone. */
  lemma OneConnOnward(s: Sys, s': Sys, c: nat, d: nat)
    requires s'.lock == s.lock
    requires
      || s'.conns == s.conns
      || (&& c in s.conns && c in s'.conns && s'.conns == s.conns[c := s'.conns[c]]
          && s'.conns[c].session == s.conns[c].session && s'.conns[c].epoch == s.conns[c].epoch
          && s.conns[c].down.sent <= s'.conns[c].down.sent && s.conns[c].up.sent <= s'.conns[c].up.sent
          && s'.conns[c].down.open == s.conns[c].down.open && s'.conns[c].up.open == s.conns[c].up.open)
    ensures Onward(s, s', d)
  {
  }

  lemma RegisterGrows(s: Sys, c: nat, id: Uuid, s': Sys, d: nat)
    requires SessionRegister(s, c, id) == Some(s')
    ensures s'.tokens == s.tokens && Onward(s, s', d)
  {
    hide Session.Gate, Session.AckFor, JobOf, Link.Put;
    var k := s.conns[c].down;
    var refused := Text(Session.AckFor(false, Some(Session.IN_USE)));
    match Session.Gate(s.tokens, Some(s.conns[c].up.sent[0].msg))
    case Silent => assert s'.conns[c].down == k;
    case Rejected(reason) =>
      OnePut(k, Text(Session.AckFor(false, Some(reason))));
      assert s'.conns[c].down == k.Put(Text(Session.AckFor(false, Some(reason))));
    case Passed(_, _, _) =>
      OnePut(k, refused);
      assert s'.conns[c].down == k || s'.conns[c].down == k.Put(refused);
  }

  lemma OnePut(l: Link, m: Wire)
    ensures l.sent <= l.Put(m).sent && l.Put(m).open == l.open
  {
  }

  lemma JoiningGrows(s: Sys, c: nat, move: SessionMove, s': Sys, d: nat)
    requires SessionNext(s, c, move) == Some(s')
    requires move.Connect? || move.GiveUp? || move.Acknowledge?
    ensures s'.tokens == s.tokens && Onward(s, s', d)
  {
    hide Link.Put, Relay.Step, Session.Gate, Session.AckFor, JobOf, MatchingPending, MatchingStreams,
         AckBoard.Resolve, WsBoard.Send;
    PutGrows();
  }

  lemma HandlingGrows(s: Sys, c: nat, move: SessionMove, s': Sys, d: nat)
    requires SessionNext(s, c, move) == Some(s') && (move.ReadMessage? || move.HandleEvent?)
    ensures s'.tokens == s.tokens && Onward(s, s', d)
  {
    hide Link.Put, Relay.Step, JobOf, Onward;
    PutGrows();
    OneConnOnward(s, s', c, d);
  }

  lemma LeavingGrows(s: Sys, c: nat, move: SessionMove, s': Sys, d: nat)
    requires SessionNext(s, c, move) == Some(s') && (move.Leave? || move.CloseWriter?)
    ensures s'.tokens == s.tokens && Onward(s, s', d)
  {
    hide MatchingPending, MatchingStreams;
  }

  lemma FindingGrows(s: Sys, c: nat, move: SessionMove, s': Sys, d: nat)
    requires SessionNext(s, c, move) == Some(s') && (move.FindsEntry? || move.GoesOn?)
    ensures s'.tokens == s.tokens && Onward(s, s', d)
  {
    hide MatchingPending, MatchingStreams;
  }

  lemma CleaningGrows(s: Sys, c: nat, move: SessionMove, s': Sys, d: nat)
    requires SessionNext(s, c, move) == Some(s')
    requires move.TakePending? || move.TakeStream? || move.UseSender? || move.FinishCleanup?
    ensures s'.tokens == s.tokens && Onward(s, s', d)
  {
    hide AckBoard.Resolve, WsBoard.Send, AckBoard.Drop, WsBoard.Drop;
  }

  lemma SessionGrows(s: Sys, c: nat, move: SessionMove, s': Sys, d: nat)
    requires SessionNext(s, c, move) == Some(s')
    ensures s'.tokens == s.tokens && Onward(s, s', d)
  {
    hide OpenConn, SessionRegister, SessionGiveUp, SessionAck, SessionRead, SessionStep, SessionLeave,
         FindEntry, NextPhase, EvictPending, EvictStreamEntry, EvictSend, SessionEnd, CloseLink;
    if move.Register? {
      RegisterGrows(s, c, move.id, s', d);
    } else if move.Connect? || move.GiveUp? || move.Acknowledge? {
      JoiningGrows(s, c, move, s', d);
    } else if move.ReadMessage? || move.HandleEvent? {
      HandlingGrows(s, c, move, s', d);
    } else if move.Leave? || move.CloseWriter? {
      LeavingGrows(s, c, move, s', d);
    } else if move.FindsEntry? || move.GoesOn? {
      FindingGrows(s, c, move, s', d);
    } else {
      CleaningGrows(s, c, move, s', d);
    }
  }

  lemma AgentGrows(s: Sys, c: nat, move: AgentMove, s': Sys, d: nat)
    requires AgentNext(s, c, move) == Some(s')
    ensures s'.tokens == s.tokens && Onward(s, s', d)
  {
    hide TargetOf, Agent.ActionOn, Link.Put, Agent.AgentBoard.Read, DownOf, Onward;
    PutGrows();
    OneConnOnward(s, s', c, d);
  }

  lemma RequestGrows(s: Sys, r: Uuid, move: RequestMove, s': Sys, d: nat)
    requires RequestNext(s, r, move) == Some(s')
    ensures s'.tokens == s.tokens && Onward(s, s', d)
  {
    hide Link.Put, BodyFrame, UpFor, TodoFor, Less, Ingress.LoopState.OnEvent, CloseEvents, TakeEvent,
         NoSenderLeft, HttpBoard.Drop, Onward;
    PutGrows();
    OneConnOnward(s, s', if r in s.reqs then s.reqs[r].conn else 0, d);
  }

  lemma StartingGrows(s: Sys, c: nat, r: Uuid, move: LocalMove, s': Sys, d: nat)
    requires LocalNext(s, c, r, move) == Some(s')
    requires move.TakesBody? || move.Answers? || move.Fails?
    ensures s'.tokens == s.tokens && Onward(s, s', d)
  {
    hide Link.Put, BodyFrame, Onward;
    PutGrows();
    OneConnOnward(s, s', c, d);
  }

  lemma ChunkGrows(s: Sys, c: nat, r: Uuid, move: LocalMove, s': Sys, d: nat)
    requires LocalNext(s, c, r, move) == Some(s') && move.Produces?
    ensures s'.tokens == s.tokens && Onward(s, s', d)
  {
    hide Link.Put, BodyFrame, Onward;
    PutGrows();
    OneConnOnward(s, s', c, d);
  }

  lemma FinishingGrows(s: Sys, c: nat, r: Uuid, move: LocalMove, s': Sys, d: nat)
    requires LocalNext(s, c, r, move) == Some(s')
    requires move.Finishes? || move.Reports?
    ensures s'.tokens == s.tokens && Onward(s, s', d)
  {
    hide Link.Put, BodyFrame, Onward;
    PutGrows();
    OneConnOnward(s, s', c, d);
  }

  lemma LocalGrows(s: Sys, c: nat, r: Uuid, move: LocalMove, s': Sys, d: nat)
    requires LocalNext(s, c, r, move) == Some(s')
    ensures s'.tokens == s.tokens && Onward(s, s', d)
  {
    hide LocalNext;
    if move.TakesBody? || move.Answers? || move.Fails? {
      StartingGrows(s, c, r, move, s', d);
    } else if move.Produces? {
      ChunkGrows(s, c, r, move, s', d);
    } else {
      FinishingGrows(s, c, r, move, s', d);
    }
  }

  lemma StreamGrows(s: Sys, x: Uuid, move: StreamMove, s': Sys, d: nat)
    requires StreamNext(s, x, move) == Some(s')
    ensures s'.tokens == s.tokens && Onward(s, s', d)
  {
    hide Link.Put, WireFor, UpFor, TodoFor, Less, WsEvents, WsSenderLeft, InputReady, Hear, AckBoard.Remove,
         WsBoard.Drop, AfterEvent, Onward;
    PutGrows();
    OneConnOnward(s, s', if x in s.strs then s.strs[x].conn else 0, d);
  }

  lemma AnsweringGrows(s: Sys, c: nat, x: Uuid, move: TaskMove, s': Sys, d: nat)
    requires TaskNext(s, c, x, move) == Some(s')
    requires move.Acks? || move.DialFails? || move.Refuses?
    ensures s'.tokens == s.tokens && Onward(s, s', d)
  {
    hide Link.Put, WireFor, DownFor, DownWs, InputReady, Hear, AfterEvent, TakeTurn, EmittedEvent, Onward;
    PutGrows();
    OneConnOnward(s, s', c, d);
  }

  lemma TurnGrows(s: Sys, c: nat, x: Uuid, move: TaskMove, s': Sys, d: nat)
    requires TaskNext(s, c, x, move) == Some(s') && move.Turns?
    ensures s'.tokens == s.tokens && Onward(s, s', d)
  {
    hide Link.Put, WireFor, DownFor, DownWs, InputReady, Hear, AfterEvent, TakeTurn, EmittedEvent, HangupOf, Onward;
    var turn := TakeTurn(LocalSide, s.conns[c].tasks[x].version, x, move.input);
    if turn.emit.Some? {
      OnePut(s.conns[c].up, turn.emit.value);
    }
    OneConnOnward(s, s', c, d);
  }

  lemma ListeningGrows(s: Sys, c: nat, x: Uuid, move: TaskMove, s': Sys, d: nat)
    requires TaskNext(s, c, x, move) == Some(s')
    requires move.Listens? || move.DropsInput? || move.Unlists?
    ensures s'.tokens == s.tokens && Onward(s, s', d)
  {
    hide Link.Put, DownFor, DownWs, UpFor, Onward;
    PutGrows();
    OneConnOnward(s, s', c, d);
  }

  lemma TaskGrows(s: Sys, c: nat, x: Uuid, move: TaskMove, s': Sys, d: nat)
    requires TaskNext(s, c, x, move) == Some(s')
    ensures s'.tokens == s.tokens && Onward(s, s', d)
  {
    hide TaskNext;
    if move.Acks? || move.DialFails? || move.Refuses? {
      AnsweringGrows(s, c, x, move, s', d);
    } else if move.Turns? {
      TurnGrows(s, c, x, move, s', d);
    } else {
      ListeningGrows(s, c, x, move, s', d);
    }
  }

  lemma StepGrows(s: Sys, l: Label, s': Sys, d: nat)
    requires Next(s, l) == Some(s')
    ensures s'.tokens == s.tokens && Onward(s, s', d)
  {
    hide Onward, SessionNext, AgentNext, RequestNext, LocalNext, StreamNext, TaskNext;
    match l
    case OfSession(c, move) => SessionGrows(s, c, move, s', d);
    case OfAgent(c, move) => AgentGrows(s, c, move, s', d);
    case OfRequest(r, move) => RequestGrows(s, r, move, s', d);
    case OfLocal(c, r, move) => LocalGrows(s, c, r, move, s', d);
    case OfStream(x, move) => StreamGrows(s, x, move, s', d);
    case OfTask(c, x, move) => TaskGrows(s, c, x, move, s', d);
  }

  lemma {:induction false} RunTokens(tokens: set<string>, steps: seq<Label>)
    ensures Run(tokens, steps).Some? ==> Run(tokens, steps).value.tokens == tokens
  {
    hide Next;
    if steps != [] {
      var init, last := steps[..|steps| - 1], steps[|steps| - 1];
      RunTokens(tokens, init);
      if Run(tokens, init).Some? && Next(Run(tokens, init).value, last).Some? {
        StepGrows(Run(tokens, init).value, last, Next(Run(tokens, init).value, last).value, 0);
      }
    }
  }

  /** Whoever was ever registered had passed the gate. */
  lemma {:induction false} RunAdmits(tokens: set<string>, steps: seq<Label>, d: nat)
    ensures Run(tokens, steps).Some? ==>
              var s := Run(tokens, steps).value;
              d in s.conns && s.conns[d].epoch > 0 ==> Admitted(tokens, s.conns[d])
  {
    hide Next, Session.Gate;
    if steps != [] {
      var init, last := steps[..|steps| - 1], steps[|steps| - 1];
      RunAdmits(tokens, init, d);
      RunTokens(tokens, init);
      if Run(tokens, init).Some? && Next(Run(tokens, init).value, last).Some? {
        StepGrows(Run(tokens, init).value, last, Next(Run(tokens, init).value, last).value, d);
      }
    }
  }

  /** What a link has accepted stays through the rest of the run, first message first, and a session that has
      left does not come back. */
  lemma {:induction false} RunGrows(tokens: set<string>, before: seq<Label>, after: seq<Label>, d: nat)
    requires Run(tokens, before + after).Some?
    ensures Run(tokens, before).Some?
    ensures LinkGrows(Run(tokens, before).value, Run(tokens, before + after).value, d)
    ensures SweepStays(Run(tokens, before).value, Run(tokens, before + after).value, d)
    decreases |after|
  {
    hide Next;
    if after == [] {
      assert before + after == before;
    } else {
      var init, last := after[..|after| - 1], after[|after| - 1];
      assert (before + after)[..|before + after| - 1] == before + init;
      RunGrows(tokens, before, init, d);
      StepGrows(Run(tokens, before + init).value, last, Run(tokens, before + after).value, d);
    }
  }
}
