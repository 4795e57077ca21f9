/** Every step keeps `Invariants.WireInv`: what goes on a link is what the other end expects, in a version
    both ends support. */
module WireSteps {
  import opened Prelude
  import opened Frame
  import opened Messages
  import opened WsTunnel
  import opened System
  import opened Views
  import opened Invariants
  import Session
  import Agent
  import Demux

  lemma BodyFrameHonest(kind: StreamKind, version: byte, r: Uuid, seqNo: u32, chunk: Bytes)
    requires IsSupported(version)
    ensures Versioned(BodyFrame(kind, version, r, seqNo, chunk), version)
    ensures kind.ResponseBody? && version == PROTOCOL_VERSION ==> HonestUp(BodyFrame(kind, version, r, seqNo, chunk))
    ensures kind.RequestBody? ==> HonestDown(BodyFrame(kind, version, r, seqNo, chunk))
  {
    FrameRoundTrip(version, ChunkHeader(kind, r, seqNo, false), chunk);
  }

  lemma WireForHonest(side: Side, version: byte, x: Uuid, ev: WsEvent)
    requires IsSupported(version)
    ensures Versioned(WireFor(side, version, x, ev), version)
    ensures side.LocalSide? && version == PROTOCOL_VERSION ==> HonestUp(WireFor(side, version, x, ev))
    ensures side.ClientSide? ==> HonestDown(WireFor(side, version, x, ev))
  {
    if ev.WsFrame? {
      FrameRoundTrip(version, ChunkHeader(FrameKind(side), x, 0, true), EncodeWsPayload(ev.opcode, ev.payload));
      WsPayloadInverse(ev.opcode, ev.payload, EncodeWsPayload(ev.opcode, ev.payload));
    }
  }

  lemma SendUpOk(k: Conn, m: Wire)
    requires ConnOk(k) && HonestUp(m)
    ensures ConnOk(SendUp(k, m))
  {
    hide HonestUp, HonestDown;
  }

  lemma SendDownOk(k: Conn, m: Wire)
    requires ConnOk(k) && HonestDown(m) && Sendable(k, m)
    ensures ConnOk(SendDown(k, m))
  {
    hide HonestUp, HonestDown;
  }

  lemma SendAckOk(k: Conn, m: Wire)
    requires ConnOk(k) && HonestDown(m) && IsAck(m) && NoAck(k.down.sent)
    requires !k.session.Opened? && !k.session.Registered? && !k.agent.Running? && (m.msg.ok <==> k.epoch > 0)
    ensures ConnOk(SendDown(k, m))
  {
    hide HonestUp, HonestDown;
  }

  /** Before its session has acked, a connection has no ack on it, and its agent does not run. */
  lemma NotAckedYet(k: Conn)
    requires ConnOk(k) && (k.session.Opened? || k.session.Registered?)
    ensures NoAck(k.down.sent) && !k.agent.Running? && (k.session.Registered? <==> k.epoch > 0)
  {
  }

  lemma TakeUpOk(k: Conn)
    requires ConnOk(k) && k.up.got < |k.up.sent| && (k.session.Live? || k.session.Opened?) && k.job.NoJob?
    requires k.session.Opened? ==> k.up.got == 0
    ensures k.session.Live? ==> ConnOk(TakeUp(k))
    ensures k.session.Opened? ==>
              && TakeUp(k).job.NoJob?
              && forall pc: SessionPc ::
                   !pc.Live? && !pc.Opened? && !pc.Registered? ==> ConnOk(TakeUp(k).(session := pc))
  {
    hide HonestUp, HonestDown;
    Demux.UpOfFits(k.up.sent[k.up.got]);
  }

  /** What a step makes of connection `c`, when it leaves the others alone. */
  lemma OneConn(s: Sys, s': Sys, c: nat, k': Conn)
    requires WireInv(s) && s'.conns == s.conns[c := k'] && ConnOk(k')
    ensures WireInv(s')
  {
    hide ConnOk;
  }

  // ---- sessions ----

  lemma OpenConnOk(s: Sys, c: nat, tunnelId: string, token: string, version: Option<byte>, caps: seq<string>)
    requires WireInv(s) && OpenConn(s, c, tunnelId, token, version, caps).Some?
    ensures WireInv(OpenConn(s, c, tunnelId, token, version, caps).value)
  {
  }

  lemma SessionRegisterOk(s: Sys, c: nat, id: Uuid)
    requires WireInv(s) && SessionRegister(s, c, id).Some? && s.nextEpoch > 0
    ensures WireInv(SessionRegister(s, c, id).value)
  {
    hide ConnOk, Session.Gate;
    var s' := SessionRegister(s, c, id).value;
    var k := s.conns[c];
    IdleUnlessLive(k);
    NotAckedYet(k);
    TakeUpOk(k);
    var k1 := TakeUp(k).(session := Closed);
    AckHonest(false, Some(Session.IN_USE));
    match Session.Gate(s.tokens, Some(k.up.sent[0].msg)) {
      case Silent =>
      case Rejected(reason) =>
        AckHonest(false, Some(reason));
        SendAckOk(k1, Text(Session.AckFor(false, Some(reason))));
      case Passed(tunnelId, _, _) =>
        if tunnelId in s.relay.agents {
          SendAckOk(k1, Text(Session.AckFor(false, Some(Session.IN_USE))));
        } else {
          NewRegistrationOk(k1, s'.conns[c]);
        }
    }
    OneConn(s, s', c, s'.conns[c]);
  }

  lemma IdleUnlessLive(k: Conn)
    requires ConnOk(k)
    ensures !k.session.Live? ==> k.job.NoJob?
    ensures LinksOk(k)
  {
  }

  lemma NewRegistrationOk(k: Conn, k': Conn)
    requires ConnOk(k) && k.session.Closed? && !k.agent.Running? && NoAck(k.down.sent) && k.up.got > 0 && k'.epoch > 0
    requires k' == k.(session := Registered, tunnel := k'.tunnel, id := k'.id, epoch := k'.epoch)
    ensures ConnOk(k')
  {
  }

  lemma AckHonest(ok: bool, reason: Option<string>)
    ensures HonestDown(Text(Session.AckFor(ok, reason)))
  {
  }

  lemma SessionAckOk(s: Sys, c: nat)
    requires WireInv(s) && SessionAck(s, c).Some?
    ensures WireInv(SessionAck(s, c).value)
  {
    hide HonestUp, HonestDown;
    AckHonest(true, None);
    NotAckedYet(s.conns[c]);
    assert ConnOk(s.conns[c].(session := Live));
    SendAckOk(s.conns[c].(session := Live), Text(Session.AckFor(true, None)));
  }

  lemma SessionReadOk(s: Sys, c: nat)
    requires WireInv(s) && SessionRead(s, c).Some?
    ensures WireInv(SessionRead(s, c).value)
  {
    hide ConnOk, UpOf, TargetOf;
    var s' := SessionRead(s, c).value;
    var k := s.conns[c];
    TakeUpOk(k);
    var m := k.up.sent[k.up.got];
    if m.Text? && m.msg.Ping? {
      SendDownOk(TakeUp(k), Text(Pong(m.msg.ts)));
    }
    OneConn(s, s', c, s'.conns[c]);
  }

  lemma SessionStepOk(s: Sys, c: nat)
    requires WireInv(s) && SessionStep(s, c).Some?
    ensures WireInv(SessionStep(s, c).value)
  {
    hide HonestUp, HonestDown, Demux.Fits, UpHonest, DownHonest;
    var s' := SessionStep(s, c).value;
    OneConn(s, s', c, s'.conns[c]);
  }

  // ---- agents ----

  lemma SameDown(k: Conn, k': Conn)
    requires DownVersioned(k) && k'.down.sent == k.down.sent && k'.up.sent == k.up.sent
    ensures DownVersioned(k')
  {
  }

  /** The agent joins in the version the relay acks. */
  lemma JoinVersion(k: Conn)
    requires ConnOk(k) && k.down.got < |k.down.sent|
    ensures var join := Agent.JoinFrom(Some(k.down.sent[k.down.got]));
            join.Some? ==>
              && join.value.relayProtocolVersion == PROTOCOL_VERSION
              && IsAck(k.down.sent[k.down.got]) && k.down.sent[k.down.got].msg.ok
  {
    assert HonestDown(k.down.sent[k.down.got]);
  }

  lemma AgentJoinOk(s: Sys, c: nat)
    requires WireInv(s) && AgentJoin(s, c).Some?
    ensures WireInv(AgentJoin(s, c).value)
  {
    hide UpHonest, DownHonest, JobFits, DownVersioned, Agent.JoinFrom;
    JoinVersion(s.conns[c]);
    SameDown(s.conns[c], AgentJoin(s, c).value.conns[c]);
    var s' := AgentJoin(s, c).value;
    OneConn(s, s', c, s'.conns[c]);
  }

  lemma AgentReadOk(s: Sys, c: nat)
    requires WireInv(s) && AgentRead(s, c).Some?
    ensures WireInv(AgentRead(s, c).value)
  {
    hide UpHonest, DownHonest, JobFits, TargetOf, DownOf;
    var s' := AgentRead(s, c).value;
    var k := s.conns[c];
    var m := k.down.sent[k.down.got];
    var k1 := TakeDown(k).(board := Handled(k).board);
    assert ConnOk(k1);
    match Agent.ActionOn(m, k.agent.ws) {
      case Reply(msg) => SendUpOk(k1, Text(msg));
      case _ =>
    }
    OneConn(s, s', c, s'.conns[c]);
  }

  /** A task of connection `c` changes, or only its queues do, and says `m` if anything. */
  lemma TaskSpeaks(s: Sys, s': Sys, c: nat, k1: Conn, m: Option<Wire>)
    requires WireInv(s) && c in s.conns && s'.conns == s.conns[c := if m.Some? then SendUp(k1, m.value) else k1]
    requires m.Some? ==> HonestUp(m.value)
    requires var k := s.conns[c];
             && k1 == k.(proxies := k1.proxies, tasks := k1.tasks, board := k1.board)
             && (forall r <- k1.proxies :: k1.proxies[r].version == PROTOCOL_VERSION)
             && (forall x <- k1.tasks :: k1.tasks[x].version == PROTOCOL_VERSION)
    ensures WireInv(s')
  {
    hide HonestUp, HonestDown;
    assert ConnOk(k1);
    if m.Some? {
      SendUpOk(k1, m.value);
    }
    OneConn(s, s', c, s'.conns[c]);
  }

  lemma RelaySpeaks(s: Sys, s': Sys, c: nat, m: Wire)
    requires WireInv(s) && c in s.conns && s'.conns == s.conns[c := SendDown(s.conns[c], m)]
    requires HonestDown(m) && Sendable(s.conns[c], m)
    ensures WireInv(s')
  {
    hide ConnOk, HonestDown;
    SendDownOk(s.conns[c], m);
    OneConn(s, s', c, s'.conns[c]);
  }

  /** Steps that leave the links' logs and the agent alone. */
  lemma QuietOk(s: Sys, s': Sys, c: nat)
    requires WireInv(s)
    requires s'.conns == s.conns || (c in s.conns && c in s'.conns && s'.conns == s.conns[c := s'.conns[c]])
    requires c in s.conns && c in s'.conns ==>
               var k, k' := s.conns[c], s'.conns[c];
               && k'.up.sent == k.up.sent && k'.up.got == k.up.got && k'.down.sent == k.down.sent
               && k'.down.got == k.down.got
               && k'.job == k.job && k'.proxies == k.proxies && k'.tasks == k.tasks
               && (k'.agent == k.agent || k'.agent.Stopped?)
               && (k'.session == k.session || k'.session.Closed? || k'.session.Cleaning?)
               && (k'.session.Cleaning? ==> k.session.Cleaning? || k.session.Live?)
               && (k'.session == k.session || k.job.NoJob?) && k'.epoch == k.epoch
    ensures WireInv(s')
  {
    hide HonestUp, HonestDown;
    if s'.conns != s.conns {
      OneConn(s, s', c, s'.conns[c]);
    }
  }
}
