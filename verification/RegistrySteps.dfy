/** Every step keeps `Invariants.RegInv`: who owns which tunnel, and who is cleaning up. */
module RegistrySteps {
  import opened Prelude
  import opened Frame
  import opened Messages
  import opened RelayState
  import opened System
  import opened Invariants
  import SharedState
  import Session

  /** The parts of a connection the registry depends on. */
  predicate SameRole(k: Conn, k': Conn) {
    && k'.tunnel == k.tunnel && k'.id == k.id && k'.epoch == k.epoch
    && Owning(k') == Owning(k) && k'.session.Cleaning? == k.session.Cleaning?
    && k.up.sent <= k'.up.sent
  }

  /** Every request and stream is an old one, and goes where it went. */
  ghost predicate SameRoutes(s: Sys, s': Sys) {
    && s.strs.Keys <= s'.strs.Keys
    && (forall r <- s'.reqs :: r in s.reqs && SameRoute(s.reqs[r].conn, s.reqs[r].tunnel, s.reqs[r].version,
                                                        s'.reqs[r].conn, s'.reqs[r].tunnel, s'.reqs[r].version))
    && (forall x <- s'.strs :: x in s.strs && SameRoute(s.strs[x].conn, s.strs[x].tunnel, s.strs[x].version,
                                                        s'.strs[x].conn, s'.strs[x].tunnel, s'.strs[x].version))
  }

  predicate SameRoute(c: nat, t: string, v: byte, c': nat, t': string, v': byte) { c' == c && t' == t && v' == v }

  lemma RoleKeepsRoute(k: Conn, k': Conn)
    requires SameRole(k, k')
    ensures forall t, v :: Routed(k, t, v) ==> Routed(k', t, v)
  {
  }

  /** The same session cleans up, if any. */
  predicate SameHolder(lock: Lock, lock': Lock) {
    && lock'.Held? == lock.Held?
    && (lock.Held? ==> lock'.conn == lock.conn && lock'.sweep.tunnelId == lock.sweep.tunnelId)
  }

  function Found(lock: Lock): set<Uuid> { if lock.Held? then lock.sweep.phase.ids else {} }

  /** The same, and it has found nothing new. */
  predicate SameLock(lock: Lock, lock': Lock) { SameHolder(lock, lock') && Found(lock') <= Found(lock) }

  ghost predicate SameRegistry(s: Sys, s': Sys) {
    && s'.tokens == s.tokens && s'.nextEpoch == s.nextEpoch && s'.relay.agents == s.relay.agents
    && SameHolder(s.lock, s'.lock)
    && s'.conns.Keys == s.conns.Keys
    && (forall c <- s.conns :: SameRole(s.conns[c], s'.conns[c]))
    && SameRoutes(s, s')
  }

  lemma SameEntries(s: Sys, s': Sys)
    requires EntriesInv(s) && OwnersInv(s) && LockInv(s) && SameRegistry(s, s')
    ensures EntriesInv(s') && OwnersInv(s') && LockInv(s')
  {
  }

  lemma SameEpochs(s: Sys, s': Sys)
    requires EpochsInv(s) && LatestInv(s) && SameRegistry(s, s')
    ensures EpochsInv(s') && LatestInv(s')
  {
    hide SameRoutes;
  }

  lemma SameRoutesKeep(s: Sys, s': Sys)
    requires RoutesInv(s) && SameRegistry(s, s')
    ensures RoutesInv(s')
  {
    hide SameRole, Routed;
    forall c <- s.conns ensures forall t, v :: Routed(s.conns[c], t, v) ==> Routed(s'.conns[c], t, v) {
      RoleKeepsRoute(s.conns[c], s'.conns[c]);
    }
  }

  lemma SameIds(s: Sys, s': Sys)
    requires IdsInv(s) && LockInv(s) && SameRegistry(s, s') && Found(s'.lock) <= Found(s.lock)
    ensures IdsInv(s')
  {
    if s'.lock.Held? {
      assert SameRole(s.conns[s.lock.conn], s'.conns[s.lock.conn]);
      assert forall x <- s'.lock.sweep.phase.ids :: x in Found(s.lock);
      forall x <- s'.lock.sweep.phase.ids
        ensures x in s'.strs && s'.strs[x].tunnel == s'.conns[s.lock.conn].tunnel
      {
        assert x in s.strs.Keys;
      }
    }
  }

  lemma SameRegistryKeeps(s: Sys, s': Sys)
    requires RegInv(s) && SameRegistry(s, s') && Found(s'.lock) <= Found(s.lock)
    ensures RegInv(s')
  {
    hide EntriesInv, OwnersInv, LockInv, IdsInv, EpochsInv, LatestInv, RoutesInv, SameRegistry;
    SameIds(s, s');
    SameEntries(s, s');
    SameEpochs(s, s');
    SameRoutesKeep(s, s');
  }

  lemma OpenConnReg(s: Sys, c: nat, tunnelId: string, token: string, version: Option<byte>, caps: seq<string>)
    requires RegInv(s) && OpenConn(s, c, tunnelId, token, version, caps).Some?
    ensures RegInv(OpenConn(s, c, tunnelId, token, version, caps).value)
  {
    var s' := OpenConn(s, c, tunnelId, token, version, caps).value;
    OpenConnEntries(s, s', c);
    OpenConnEpochs(s, s', c);
    OpenConnRoutes(s, s', c);
    OpenConnLatest(s, s', c);
  }

  ghost predicate ConnAdded(s: Sys, s': Sys, c: nat) {
    && c !in s.conns && c in s'.conns && s' == s.(conns := s.conns[c := s'.conns[c]])
    && s'.conns[c].epoch == 0 && s'.conns[c].session.Opened?
  }

  lemma OpenConnEntries(s: Sys, s': Sys, c: nat)
    requires EntriesInv(s) && OwnersInv(s) && LockInv(s) && ConnAdded(s, s', c)
    ensures EntriesInv(s') && OwnersInv(s') && LockInv(s')
  {
  }

  lemma OpenConnEpochs(s: Sys, s': Sys, c: nat)
    requires EpochsInv(s) && ConnAdded(s, s', c)
    ensures EpochsInv(s')
  {
  }

  lemma OpenConnRoutes(s: Sys, s': Sys, c: nat)
    requires RoutesInv(s) && ConnAdded(s, s', c)
    ensures RoutesInv(s')
  {
  }

  lemma OpenConnLatest(s: Sys, s': Sys, c: nat)
    requires LatestInv(s) && ConnAdded(s, s', c)
    ensures LatestInv(s')
  {
  }

  /** A registration that is refused changes no role; one that passes adds an entry. */
  lemma RegisterReg(s: Sys, c: nat, id: Uuid)
    requires RegInv(s) && WireInv(s) && SessionRegister(s, c, id).Some?
    ensures RegInv(SessionRegister(s, c, id).value)
  {
    hide RegInv, WireInv, Session.Gate, EntryAdded, SameRegistry;
    var s' := SessionRegister(s, c, id).value;
    var gate := Session.Gate(s.tokens, Some(s.conns[c].up.sent[0].msg));
    if gate.Passed? && gate.tunnelId !in s.relay.agents {
      EpochPositive(s);
      RegisterAdds(s, c, id);
      NewEntry(s, s', c, gate.tunnelId);
    } else {
      RegisterRefused(s, c, id);
      SameRegistryKeeps(s, s');
    }
  }

  lemma EpochPositive(s: Sys)
    requires RegInv(s)
    ensures s.nextEpoch > 0
  {
  }

  lemma RegisterRefused(s: Sys, c: nat, id: Uuid)
    requires SessionRegister(s, c, id).Some?
    requires var gate := Session.Gate(s.tokens, Some(s.conns[c].up.sent[0].msg));
             !gate.Passed? || gate.tunnelId in s.relay.agents
    ensures SameRegistry(s, SessionRegister(s, c, id).value)
  {
    hide Session.Gate;
  }

  lemma RegisterAdds(s: Sys, c: nat, id: Uuid)
    requires WireInv(s) && SessionRegister(s, c, id).Some?
    requires s.nextEpoch > 0
    requires var gate := Session.Gate(s.tokens, Some(s.conns[c].up.sent[0].msg));
             gate.Passed? && gate.tunnelId !in s.relay.agents
    ensures EntryAdded(s, SessionRegister(s, c, id).value, c,
                       Session.Gate(s.tokens, Some(s.conns[c].up.sent[0].msg)).tunnelId)
  {
    hide WireInv, Session.Gate, SharedState.IsValidTunnelId, JobOf, GoodRegistration;
    RegistrationAt(s, c);
    GateChecks(s.tokens, s.conns[c].up.sent[0].msg);
    ChecksPassed(s, SessionRegister(s, c, id).value, c);
  }

  lemma RegistrationAt(s: Sys, c: nat)
    requires WireInv(s) && c in s.conns && s.conns[c].session.Opened?
    ensures s.conns[c].epoch == 0
  {
  }

  /** What the gate has checked of a registration it passes. */
  predicate GoodRegistration(tokens: set<string>, reg: ControlMessage, gate: Session.Verdict) {
    && reg.RegisterAgent? && gate.Passed? && gate.tunnelId == reg.tunnelId && reg.token in tokens
    && SharedState.IsValidTunnelId(reg.tunnelId) && IsSupported(gate.version)
    && gate.version == reg.protocolVersion.GetOr(LEGACY_PROTOCOL_VERSION)
    && gate.capabilities == set cap | cap in reg.capabilities
  }

  lemma GateChecks(tokens: set<string>, msg: ControlMessage)
    requires Session.Gate(tokens, Some(msg)).Passed?
    ensures GoodRegistration(tokens, msg, Session.Gate(tokens, Some(msg)))
  {
    Session.GateMeaning(tokens, Some(msg));
  }

  lemma ChecksPassed(s: Sys, s': Sys, c: nat)
    requires c in s'.conns && s'.conns[c].up.sent != [] && s'.conns[c].up.sent[0].Text? && s'.tokens == s.tokens
    requires var gate := Session.Gate(s.tokens, Some(s'.conns[c].up.sent[0].msg));
             && GoodRegistration(s.tokens, s'.conns[c].up.sent[0].msg, gate)
             && Owning(s'.conns[c]) && s'.conns[c].tunnel == gate.tunnelId && s'.conns[c].epoch > 0
    ensures var gate := Session.Gate(s.tokens, Some(s'.conns[c].up.sent[0].msg));
            forall sender :: RegisteredAs(s', s'.conns[c], gate.tunnelId,
                                          AgentHandle(s'.conns[c].id, sender, gate.capabilities, gate.version))
  {
  }

  ghost predicate EntryAdded(s: Sys, s': Sys, c: nat, t: string) {
    && c in s.conns && s.lock.Free? && t !in s.relay.agents
    && s'.tokens == s.tokens && s'.lock == s.lock && s'.reqs == s.reqs && s'.strs == s.strs
    && s'.conns.Keys == s.conns.Keys && (forall d <- s.conns :: d != c ==> s'.conns[d] == s.conns[d])
    && s.conns[c].epoch == 0 && s'.conns[c].epoch == s.nextEpoch && s'.nextEpoch == s.nextEpoch + 1
    && (forall d <- s.conns :: s.conns[d].id != s'.conns[c].id)
    && s'.conns[c].session.Registered? && s'.conns[c].tunnel == t
    && s'.relay.agents.Keys == s.relay.agents.Keys + {t}
    && (forall u <- s.relay.agents :: s'.relay.agents[u] == s.relay.agents[u])
    && s'.relay.agents[t].sender == c && RegisteredAs(s', s'.conns[c], t, s'.relay.agents[t])
  }

  lemma NewEntry(s: Sys, s': Sys, c: nat, t: string)
    requires RegInv(s) && EntryAdded(s, s', c, t)
    ensures RegInv(s')
  {
    NewEntryEntries(s, s', c, t);
    NewEntryEpochs(s, s', c, t);
    NewEntryRoutes(s, s', c, t);
    NewEntryLatest(s, s', c, t);
  }

  lemma NewEntryEntries(s: Sys, s': Sys, c: nat, t: string)
    requires EntriesInv(s) && OwnersInv(s) && LockInv(s) && EntryAdded(s, s', c, t)
    ensures EntriesInv(s') && OwnersInv(s') && LockInv(s')
  {
    hide SharedState.IsValidTunnelId;
    assert !s.conns[c].session.Cleaning?;
  }

  lemma NewEntryEpochs(s: Sys, s': Sys, c: nat, t: string)
    requires EpochsInv(s) && EntryAdded(s, s', c, t)
    ensures EpochsInv(s')
  {
    hide RegisteredAs;
  }

  lemma NewEntryRoutes(s: Sys, s': Sys, c: nat, t: string)
    requires RoutesInv(s) && EntryAdded(s, s', c, t)
    ensures RoutesInv(s')
  {
    hide RegisteredAs;
  }

  lemma NewEntryLatest(s: Sys, s': Sys, c: nat, t: string)
    requires EpochsInv(s) && LatestInv(s) && LockInv(s) && OwnersInv(s) && EntryAdded(s, s', c, t)
    ensures LatestInv(s')
  {
    hide RegisteredAs;
    forall d, e | d in s'.conns && e in s'.conns && Current(s'.conns[d]) && s'.conns[e].epoch > 0
                  && s'.conns[e].tunnel == s'.conns[d].tunnel
      ensures s'.conns[e].epoch <= s'.conns[d].epoch
    {
      assert s.conns[e].epoch < s.nextEpoch;
      if d != c {
        assert Current(s.conns[d]);
        if e == c {
          assert false;
        }
      }
    }
  }

  /** The guard on the connection id never fails for a live session. */
  lemma GuardHolds(s: Sys, c: nat)
    requires RegInv(s) && c in s.conns && Owning(s.conns[c])
    ensures var k := s.conns[c]; k.tunnel in s.relay.agents && s.relay.agents[k.tunnel].connectionId == k.id
  {
  }

  lemma LeaveReg(s: Sys, c: nat)
    requires RegInv(s) && SessionLeave(s, c).Some?
    ensures RegInv(SessionLeave(s, c).value)
  {
    var s' := SessionLeave(s, c).value;
    GuardHolds(s, c);
    LeaveEntries(s, s', c);
    LeaveEpochs(s, s', c);
    LeaveRoutes(s, s', c);
    LeaveLatest(s, s', c);
  }

  ghost predicate EntryTaken(s: Sys, s': Sys, c: nat) {
    && c in s.conns && s.conns[c].session.Live? && s.lock.Free?
    && s'.lock.Held? && s'.lock.conn == c && s'.lock.evicting.NoEvict? && s'.lock.sweep.phase == FindPending({})
    && s'.lock.sweep.tunnelId == s.conns[c].tunnel
    && s'.tokens == s.tokens && s'.nextEpoch == s.nextEpoch && s'.reqs == s.reqs && s'.strs == s.strs
    && s'.conns == s.conns[c := s.conns[c].(session := Cleaning)]
    && s'.relay.agents == s.relay.agents - {s.conns[c].tunnel}
  }

  lemma LeaveEntries(s: Sys, s': Sys, c: nat)
    requires EntriesInv(s) && OwnersInv(s) && LockInv(s) && EntryTaken(s, s', c)
    ensures EntriesInv(s') && OwnersInv(s') && LockInv(s')
  {
    hide SharedState.IsValidTunnelId;
    assert s.conns[c].tunnel in s.relay.agents;
  }

  lemma LeaveEpochs(s: Sys, s': Sys, c: nat)
    requires EpochsInv(s) && EntryTaken(s, s', c)
    ensures EpochsInv(s')
  {
  }

  lemma LeaveRoutes(s: Sys, s': Sys, c: nat)
    requires RoutesInv(s) && EntryTaken(s, s', c)
    ensures RoutesInv(s')
  {
  }

  lemma LeaveLatest(s: Sys, s': Sys, c: nat)
    requires LatestInv(s) && EntryTaken(s, s', c)
    ensures LatestInv(s')
  {
  }

  lemma EndReg(s: Sys, c: nat)
    requires RegInv(s) && SessionEnd(s, c).Some?
    ensures RegInv(SessionEnd(s, c).value)
  {
    hide SharedState.IsValidTunnelId;
    var s' := SessionEnd(s, c).value;
    EndEntries(s, s', c);
    EndEpochs(s, s', c);
    EndRoutes(s, s', c);
    EndLatest(s, s', c);
  }

  lemma EndEntries(s: Sys, s': Sys, c: nat)
    requires EntriesInv(s) && OwnersInv(s) && LockInv(s) && SessionEnd(s, c) == Some(s')
    ensures EntriesInv(s') && OwnersInv(s') && LockInv(s')
  {
  }

  lemma EndEpochs(s: Sys, s': Sys, c: nat)
    requires EpochsInv(s) && SessionEnd(s, c) == Some(s')
    ensures EpochsInv(s')
  {
  }

  lemma EndRoutes(s: Sys, s': Sys, c: nat)
    requires RoutesInv(s) && SessionEnd(s, c) == Some(s')
    ensures RoutesInv(s')
  {
  }

  lemma EndLatest(s: Sys, s': Sys, c: nat)
    requires LatestInv(s) && SessionEnd(s, c) == Some(s')
    ensures LatestInv(s')
  {
  }

  /** Clean-up comes to an entry of its own tunnel. */
  lemma FindReg(s: Sys, c: nat, x: Uuid)
    requires RegInv(s) && FindEntry(s, c, x).Some?
    requires x in s.strs && s.strs[x].tunnel == s.conns[c].tunnel
    ensures RegInv(FindEntry(s, c, x).value)
  {
    hide EntriesInv, OwnersInv, LockInv, EpochsInv, LatestInv, RoutesInv;
    FoundReg(s, FindEntry(s, c, x).value);
  }

  lemma FoundReg(s: Sys, s': Sys)
    requires LockInv(s) && EntriesInv(s) && OwnersInv(s) && EpochsInv(s) && LatestInv(s) && RoutesInv(s)
    requires s' == s.(lock := s'.lock) && SameHolder(s.lock, s'.lock)
    ensures LockInv(s') && EntriesInv(s') && OwnersInv(s') && EpochsInv(s') && LatestInv(s') && RoutesInv(s')
  {
    hide EntriesInv, OwnersInv, LockInv, EpochsInv, LatestInv, RoutesInv;
    SameEntries(s, s');
    SameEpochs(s, s');
    SameRoutesKeep(s, s');
  }

  /** The owner of a tunnel is where its requests and streams go. */
  lemma OwnerRouted(s: Sys, t: string)
    requires EntriesInv(s) && t in s.relay.agents
    ensures s.relay.agents[t].sender in s.conns
    ensures Routed(s.conns[s.relay.agents[t].sender], t, s.relay.agents[t].protocolVersion)
  {
  }

  lemma ArriveReg(s: Sys, r: Uuid, t: string)
    requires RegInv(s) && Arrive(s, r, t).Some?
    ensures RegInv(Arrive(s, r, t).value)
  {
    hide EpochsInv, LatestInv, OwnersInv, LockInv, EntriesInv, Routed;
    OwnerRouted(s, t);
    ArriveOthers(s, Arrive(s, r, t).value);
  }

  lemma WsArriveReg(s: Sys, x: Uuid, t: string)
    requires RegInv(s) && WsArrive(s, x, t).Some?
    ensures RegInv(WsArrive(s, x, t).value)
  {
    hide EpochsInv, LatestInv, OwnersInv, LockInv, EntriesInv, Routed;
    OwnerRouted(s, t);
    ArriveOthers(s, WsArrive(s, x, t).value);
    NewStreamIds(s, WsArrive(s, x, t).value, x);
  }

  lemma NewStreamIds(s: Sys, s': Sys, x: Uuid)
    requires IdsInv(s) && s'.conns == s.conns && s'.lock == s.lock
    requires x !in s.strs && x in s'.strs && s'.strs == s.strs[x := s'.strs[x]]
    ensures IdsInv(s')
  {
  }

  lemma ArriveOthers(s: Sys, s': Sys)
    requires EpochsInv(s) && LatestInv(s) && OwnersInv(s) && LockInv(s) && EntriesInv(s)
    requires s'.conns == s.conns && s'.relay.agents == s.relay.agents && s'.lock == s.lock
    requires s'.nextEpoch == s.nextEpoch && s'.tokens == s.tokens
    ensures EpochsInv(s') && LatestInv(s') && OwnersInv(s') && LockInv(s') && EntriesInv(s')
  {
  }
}
