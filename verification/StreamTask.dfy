/** upgrade_client_ws and handle_client_socket from beginning to end, each run on its own: what the agent is
    sent, what the client gets, and what is left in the relay's state. */
module StreamTask {
  import opened Prelude
  import opened Messages
  import opened RelayState
  import opened SharedState
  import opened WsTunnel
  import Subprotocols

  datatype UpgradeReply = Refused(status: nat) | Upgraded(version: byte, subprotocols: seq<string>)

  /** `protocolHeader` is the client's `Sec-WebSocket-Protocol`; the link accepts the message or not. */
  method UpgradeClientWs(state: AppState, tunnelId: string, streamId: Uuid, path: string, headers: Headers,
                         protocolHeader: Option<string>, accepts: bool)
    returns (reply: UpgradeReply, sent: seq<Wire>)
    requires state.Valid() && streamId !in state.wsPending && streamId !in state.shots
    modifies state`wsPending, state`shots
    ensures state.Valid()
    ensures tunnelId !in state.agents ==> reply == Refused(502) && sent == []
    ensures tunnelId in state.agents && CAP_WS_TUNNEL_V1 !in state.agents[tunnelId].capabilities ==>
              reply == Refused(501) && sent == []
    ensures tunnelId in state.agents && CAP_WS_TUNNEL_V1 in state.agents[tunnelId].capabilities ==>
              if accepts then
                && reply.Upgraded? && reply.version == state.agents[tunnelId].protocolVersion
                && sent == [Text(WsConnect(streamId, path, headers, reply.subprotocols))]
                && Subprotocols.Parse(Subprotocols.Join(reply.subprotocols)) == reply.subprotocols
              else reply == Refused(502) && sent == []
    ensures reply.Upgraded? ==>
              reply.subprotocols == if protocolHeader.Some? then Subprotocols.Parse(protocolHeader.value) else []
    ensures reply.Refused? ==> state.wsPending == old(state.wsPending)
    ensures reply.Upgraded? ==> state.wsPending == old(state.wsPending)[streamId := WsPending(tunnelId, streamId)]
    ensures forall tx | tx in old(state.shots) :: tx in state.shots && state.shots[tx] == old(state.shots)[tx]
  {
    sent := [];
    var agent := state.GetAgent(tunnelId);
    if agent.None? {
      return Refused(502), [];
    }
    if CAP_WS_TUNNEL_V1 !in agent.value.capabilities {
      return Refused(501), [];
    }
    var subprotocols := if protocolHeader.Some? then Subprotocols.Parse(protocolHeader.value) else [];
    Subprotocols.ParseJoinParse(if protocolHeader.Some? then protocolHeader.value else "");
    assert Subprotocols.Parse("") == [];
    state.NewShot(streamId);
    state.AddWsPending(streamId, tunnelId, streamId);
    if !accepts {
      state.RemoveWsPending(streamId);
      AddThenRemove(old(state.wsPending), streamId, WsPending(tunnelId, streamId));
      return Refused(502), [];
    }
    return Upgraded(agent.value.protocolVersion, subprotocols),
           [Text(WsConnect(streamId, path, headers, subprotocols))];
  }

  /** What waiting ten seconds for the one-shot gives. */
  datatype AckWait = Got(ack: Ack) | SenderGone | TimedOut

  /** Whatever the agent and the client do, the stream is gone from both maps when the task ends, the ack
      sender of an unanswered entry is dropped, and every other entry is as it was. Nothing is sent to an
      agent that did not ack `ok`, and its client gets one close, which says why. */
  method HandleClientSocket(state: AppState, tunnelId: string, streamId: Uuid, version: byte, wait: AckWait,
                            schedule: seq<Input>, accepts: nat, delivers: nat)
    returns (emitted: seq<Wire>, delivered: seq<WsMessage>)
    requires state.Valid() && streamId !in state.wsStreams && streamId !in state.wsQueues
    modifies state`wsStreams, state`wsQueues, state`wsPending, state`shots
    ensures state.Valid() && state.wsStreams == old(state.wsStreams)
    ensures state.View().acks == old(state.View().acks).Remove(streamId)
    ensures !(wait.Got? && wait.ack.ok) ==> emitted == [] && (delivers == 0 ==> delivered == [])
    ensures wait.Got? && !wait.ack.ok && delivers > 0 ==>
              var reason := if wait.ack.reason.Some? then wait.ack.reason.value else "agent rejected ws connect";
              delivered == [MClose(Some(1011), reason)]
    ensures wait.SenderGone? && delivers > 0 ==>
              delivered == [MClose(Some(1011), "agent ws connect ack channel closed")]
    ensures wait.TimedOut? && delivers > 0 ==> delivered == [MClose(Some(1011), "agent ws connect timeout")]
    ensures wait.Got? && wait.ack.ok ==>
              var run := RunLoop(ClientSide, version, streamId, schedule, accepts, delivers);
              emitted == run.emitted && delivered == run.delivered
  {
    state.NewWsChannel(streamId);
    state.AddWsStream(streamId, tunnelId, streamId);
    AddThenRemove(old(state.wsStreams), streamId, WsStreamHandle(tunnelId, streamId));
    var ack := match wait
               case Got(a) => a
               case SenderGone => Ack(false, None, Some("agent ws connect ack channel closed"))
               case TimedOut => Ack(false, None, Some("agent ws connect timeout"));
    if !ack.ok {
      var reason := ack.reason.GetOr("agent rejected ws connect");
      emitted := [];
      delivered := if delivers > 0 then [MClose(Some(1011), reason)] else [];
      state.RemoveWsStream(streamId);
      state.RemoveWsPending(streamId);
      return;
    }
    var stopped;
    emitted, delivered, stopped := ClientLoop(version, streamId, schedule, accepts, delivers);
    state.RemoveWsStream(streamId);
    state.RemoveWsPending(streamId);
  }
}
