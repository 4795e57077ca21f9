/** The object behind `RelayState.Relay`: the methods of crates/relay-server/src/state.rs. */
module SharedState {
  import opened Prelude
  import opened Frame
  import opened Messages
  import opened RelayState

  const DISCONNECTED: string := "agent disconnected"

  function DisconnectAck(): Ack { Ack(false, None, Some(DISCONNECTED)) }

  function DisconnectClose(): WsEvent { WsEnd(Some(1011), Some(DISCONNECTED)) }

  predicate IsTunnelIdChar(c: char) {
    'a' <= c <= 'z' || 'A' <= c <= 'Z' || '0' <= c <= '9' || c == '-' || c == '_'
  }

  predicate IsValidTunnelId(tunnelId: string) {
    tunnelId != "" && |tunnelId| <= 64 && forall i | 0 <= i < |tunnelId| :: IsTunnelIdChar(tunnelId[i])
  }

  /** One to sixty-four of the ASCII letters, digits, `-` and `_`, by their codes. */
  lemma ValidTunnelIds(id: string)
    ensures IsValidTunnelId(id) <==>
            && 1 <= |id| <= 64
            && forall i | 0 <= i < |id| ::
                 var n := id[i] as int; 48 <= n <= 57 || 65 <= n <= 90 || 97 <= n <= 122 || n == 45 || n == 95
  {
  }

  predicate ValidToken(authTokens: set<string>, token: string) {
    authTokens != {} && token in authTokens
  }

  class AppState {
    const authTokens: set<string>
    var agents: map<string, AgentHandle>
    var inflight: map<Uuid, Uuid>
    var wsPending: map<Uuid, WsPending>
    var wsStreams: map<Uuid, WsStreamHandle>
    // The channels and one-shots that senders lead to, by identity.
    var httpQueues: map<Uuid, Queue<RelayEvent>>
    var wsQueues: map<Uuid, Queue<WsEvent>>
    var shots: map<Uuid, seq<Resolution>>

    function View(): Relay
      reads this
    {
      Relay(agents, HttpBoard(inflight, httpQueues), AckBoard(wsPending, shots), WsBoard(wsStreams, wsQueues))
    }

    ghost predicate Valid()
      reads this
    {
      View().Sound()
    }

    constructor (authTokens: set<string>)
      ensures this.authTokens == authTokens
      ensures View() == Relay(map[], HttpBoard(map[], map[]), AckBoard(map[], map[]), WsBoard(map[], map[])) && Valid()
    {
      this.authTokens := authTokens;
      agents, inflight, wsPending, wsStreams := map[], map[], map[], map[];
      httpQueues, wsQueues, shots := map[], map[], map[];
    }

    // ---- the registry ----

    method InsertAgentIfAbsent(tunnelId: string, handle: AgentHandle) returns (inserted: bool)
      modifies this`agents
      ensures inserted == (tunnelId !in old(agents))
      ensures agents == if inserted then old(agents)[tunnelId := handle] else old(agents)
    {
      if tunnelId in agents {
        return false;
      }
      agents := agents[tunnelId := handle];
      return true;
    }

    method GetAgent(tunnelId: string) returns (handle: Option<AgentHandle>)
      ensures handle == Get(agents, tunnelId)
    {
      handle := Get(agents, tunnelId);
    }

    /** With no other task in between: the registration and this tunnel's WebSocket entries go, each
        of their senders being used once; a connection that is not the registered one changes nothing. */
    method RemoveAgentIf(tunnelId: string, connectionId: Uuid)
      requires Valid()
      modifies this
      ensures Valid()
      ensures
        if tunnelId in old(agents) && old(agents)[tunnelId].connectionId == connectionId then
          View() == old(View()).(agents := old(agents) - {tunnelId})
                    .Evict(tunnelId, Ack(false, None, Some("agent disconnected")),
                           WsEnd(Some(1011), Some("agent disconnected")))
        else View() == old(View())
    {
      var existing := Get(agents, tunnelId);
      var shouldRemove := existing.Some? && existing.value.connectionId == connectionId;
      if shouldRemove {
        agents := agents - {tunnelId};
        FailWsPendingForTunnel(tunnelId, DISCONNECTED);
        CloseWsForTunnel(tunnelId, Some(1011), DISCONNECTED);
      }
    }

    method FailWsPendingForTunnel(tunnelId: string, reason: string)
      requires Valid()
      modifies this`wsPending, this`shots
      ensures Valid()
      ensures AckBoard(wsPending, shots) ==
              ResolveAll(old(View().acks), MatchingPending(old(View().acks), tunnelId), Ack(false, None, Some(reason)))
    {
      hide ResolveAll, AckBoard.Sound;
      ghost var before, done := View().acks, {};
      var ids := MatchingPending(View().acks, tunnelId);
      ghost var all := ids;
      ResolveNone(before, Ack(false, None, Some(reason)));
      while ids != {}
        invariant done + ids == all && done !! ids
        invariant View().acks == ResolveAll(before, done, Ack(false, None, Some(reason))) && Valid()
        decreases ids
      {
        var id :| id in ids;
        ids := ids - {id};
        ResolveOneMore(before, done, id, Ack(false, None, Some(reason)));
        AckApplySound(View().acks, id, Ack(false, None, Some(reason)));
        NotifyWsConnectAck(id, false, None, Some(reason));
        done := done + {id};
      }
    }

    method CloseWsForTunnel(tunnelId: string, code: Option<nat>, reason: string)
      requires Valid()
      modifies this`wsStreams, this`wsQueues
      ensures Valid()
      ensures WsBoard(wsStreams, wsQueues) ==
              CloseAll(old(View().ws), MatchingStreams(old(View().ws), tunnelId), WsEnd(code, Some(reason)))
    {
      hide CloseAll, WsBoard.Sound;
      ghost var before, done := View().ws, {};
      var ids := MatchingStreams(View().ws, tunnelId);
      ghost var all := ids;
      CloseNone(before, WsEnd(code, Some(reason)));
      while ids != {}
        invariant done + ids == all && done !! ids
        invariant View().ws == CloseAll(before, done, WsEnd(code, Some(reason))) && Valid()
        decreases ids
      {
        var id :| id in ids;
        ids := ids - {id};
        CloseOneMore(before, done, id, WsEnd(code, Some(reason)));
        WsApplySound(View().ws, id, WsEnd(code, Some(reason)));
        NotifyWsClose(id, code, Some(reason));
        done := done + {id};
      }
    }

    // ---- HTTP requests ----

    /** `mpsc::channel(128)` */
    method NewHttpChannel(ch: Uuid)
      requires Valid() && ch !in httpQueues
      modifies this`httpQueues
      ensures Valid() && httpQueues == old(httpQueues)[ch := NewQueue()]
      ensures forall r <- inflight :: inflight[r] != ch
    {
      httpQueues := httpQueues[ch := NewQueue()];
    }

    /** The sender is that of the channel the caller has just created. */
    method AddInflight(requestId: Uuid, sender: Uuid)
      requires Valid() && sender in httpQueues && forall r <- inflight :: inflight[r] != sender
      modifies this`inflight
      ensures Valid() && inflight == old(inflight)[requestId := sender]
    {
      inflight := inflight[requestId := sender];
    }

    method RemoveInflight(requestId: Uuid)
      requires Valid()
      modifies this`inflight
      ensures Valid() && inflight == old(inflight) - {requestId}
    {
      inflight := inflight - {requestId};
    }

    /** `sender.send(..).await`: false when the receiver is gone. */
    method SendRelayEvent(sender: Uuid, ev: RelayEvent) returns (ok: bool)
      modifies this`httpQueues
      ensures ok == old(View().http.Open(sender))
      ensures View() == old(View()).(http := old(View()).http.Send(sender, ev))
    {
      ok := sender in httpQueues && httpQueues[sender].open;
      if ok {
        var q := httpQueues[sender];
        httpQueues := httpQueues[sender := q.(sent := q.sent + [ev])];
      }
    }

    method NotifyStart(requestId: Uuid, status: nat, headers: Headers)
      requires Valid()
      modifies this`inflight, this`httpQueues
      ensures Valid() && View() == old(View()).Apply(requestId, UHttp(Start(status, headers)))
    {
      ApplySound(View(), requestId, UHttp(Start(status, headers)));
      if requestId in inflight {
        var ok := SendRelayEvent(inflight[requestId], Start(status, headers));
        if !ok {
          inflight := inflight - {requestId};
        }
      }
    }

    method NotifyBody(requestId: Uuid, bytes: Bytes)
      requires Valid()
      modifies this`inflight, this`httpQueues
      ensures Valid() && View() == old(View()).Apply(requestId, UHttp(Body(bytes)))
    {
      ApplySound(View(), requestId, UHttp(Body(bytes)));
      if requestId in inflight {
        var ok := SendRelayEvent(inflight[requestId], Body(bytes));
        if !ok {
          inflight := inflight - {requestId};
        }
      }
    }

    method NotifyEnd(requestId: Uuid)
      requires Valid()
      modifies this`inflight, this`httpQueues
      ensures Valid() && View() == old(View()).Apply(requestId, UHttp(End))
    {
      ApplySound(View(), requestId, UHttp(End));
      if requestId in inflight {
        var sender := inflight[requestId];
        inflight := inflight - {requestId};
        var _ := SendRelayEvent(sender, End);
      }
    }

    method NotifyError(requestId: Uuid, code: string, message: string)
      requires Valid()
      modifies this`inflight, this`httpQueues
      ensures Valid() && View() == old(View()).Apply(requestId, UHttp(Error(code, message)))
    {
      ApplySound(View(), requestId, UHttp(Error(code, message)));
      if requestId in inflight {
        var sender := inflight[requestId];
        inflight := inflight - {requestId};
        var _ := SendRelayEvent(sender, Error(code, message));
      }
    }

    // ---- WebSocket streams ----

    /** `oneshot::channel()` */
    method NewShot(tx: Uuid)
      requires Valid() && tx !in shots
      modifies this`shots
      ensures Valid() && shots == old(shots)[tx := []]
      ensures forall x <- wsPending :: wsPending[x].tx != tx
    {
      shots := shots[tx := []];
    }

    /** `mpsc::unbounded_channel()` */
    method NewWsChannel(ch: Uuid)
      requires Valid() && ch !in wsQueues
      modifies this`wsQueues
      ensures Valid() && wsQueues == old(wsQueues)[ch := NewQueue()]
      ensures forall x <- wsStreams :: wsStreams[x].sender != ch
    {
      wsQueues := wsQueues[ch := NewQueue()];
    }

    method AddWsPending(streamId: Uuid, tunnelId: string, tx: Uuid)
      requires Valid() && tx in shots && forall x <- wsPending :: wsPending[x].tx != tx
      modifies this`wsPending
      ensures Valid() && View() == old(View()).(acks := old(View()).acks.Add(streamId, tunnelId, tx))
    {
      wsPending := wsPending[streamId := WsPending(tunnelId, tx)];
    }

    method RemoveWsPending(streamId: Uuid)
      requires Valid()
      modifies this`wsPending, this`shots
      ensures Valid() && View() == old(View()).(acks := old(View()).acks.Remove(streamId))
    {
      AckApplySound(View().acks, streamId, DisconnectAck());
      if streamId in wsPending {
        var tx := wsPending[streamId].tx;
        wsPending := wsPending - {streamId};
        shots := shots[tx := shots[tx] + [Dropped]];
      }
    }

    method NotifyWsConnectAck(streamId: Uuid, ok: bool, selectedSubprotocol: Option<string>, reason: Option<string>)
      requires Valid()
      modifies this`wsPending, this`shots
      ensures Valid() && View() == old(View()).Apply(streamId, UAck(Ack(ok, selectedSubprotocol, reason)))
    {
      AckApplySound(View().acks, streamId, Ack(ok, selectedSubprotocol, reason));
      if streamId in wsPending {
        var tx := wsPending[streamId].tx;
        wsPending := wsPending - {streamId};
        shots := shots[tx := shots[tx] + [Acked(Ack(ok, selectedSubprotocol, reason))]];
      }
    }

    method AddWsStream(streamId: Uuid, tunnelId: string, sender: Uuid)
      requires Valid() && sender in wsQueues && forall x <- wsStreams :: wsStreams[x].sender != sender
      modifies this`wsStreams
      ensures Valid() && View() == old(View()).(ws := old(View()).ws.Add(streamId, tunnelId, sender))
    {
      wsStreams := wsStreams[streamId := WsStreamHandle(tunnelId, sender)];
    }

    method RemoveWsStream(streamId: Uuid)
      requires Valid()
      modifies this`wsStreams
      ensures Valid() && View() == old(View()).(ws := old(View()).ws.Drop(streamId))
    {
      wsStreams := wsStreams - {streamId};
    }

    method SendWsEvent(sender: Uuid, ev: WsEvent) returns (ok: bool)
      modifies this`wsQueues
      ensures ok == old(View().ws.Open(sender))
      ensures View() == old(View()).(ws := old(View()).ws.Send(sender, ev))
    {
      ok := sender in wsQueues && wsQueues[sender].open;
      if ok {
        var q := wsQueues[sender];
        wsQueues := wsQueues[sender := q.(sent := q.sent + [ev])];
      }
    }

    method NotifyWsFrame(streamId: Uuid, opcode: WsOpcode, payload: Bytes)
      requires Valid()
      modifies this`wsStreams, this`wsQueues
      ensures Valid() && View() == old(View()).Apply(streamId, UWs(WsFrame(opcode, payload)))
    {
      WsApplySound(View().ws, streamId, WsFrame(opcode, payload));
      if streamId in wsStreams {
        var ok := SendWsEvent(wsStreams[streamId].sender, WsFrame(opcode, payload));
        if !ok {
          wsStreams := wsStreams - {streamId};
        }
      }
    }

    method NotifyWsClose(streamId: Uuid, code: Option<nat>, reason: Option<string>)
      requires Valid()
      modifies this`wsStreams, this`wsQueues
      ensures Valid() && View() == old(View()).Apply(streamId, UWs(WsEnd(code, reason)))
    {
      WsApplySound(View().ws, streamId, WsEnd(code, reason));
      if streamId in wsStreams {
        var sender := wsStreams[streamId].sender;
        wsStreams := wsStreams - {streamId};
        var _ := SendWsEvent(sender, WsEnd(code, reason));
      }
    }
  }
}
