/** handle_ingress from beginning to end, run on its own: what the agent is sent, what the client is
    answered, and what is left in the relay's state. */
module IngressTask {
  import opened Prelude
  import opened Frame
  import opened Messages
  import opened SharedState
  import opened Framing
  import opened Ingress

  /** A plain answer, or a response that streams: the agent's headers, the chunks it has given, and whether it
      has `ended` or still waits for more. */
  datatype HttpReply = Simple(status: nat) | Streamed(status: nat, headers: Headers, body: seq<Bytes>, ended: bool)

  /** All that is ever sent to the agent for a request. */
  function RequestWires(version: byte, requestId: Uuid, verb: string, path: string, headers: Headers,
                        chunks: seq<Bytes>): seq<Wire> {
    [Text(HttpRequestStart(requestId, verb, path, headers))]
      + BodyFrames(RequestBody, version, requestId, NonEmpty(chunks))
      + [Text(HttpRequestEnd(requestId))]
  }

  /** The wait for the start is over before the deadline: every event read while it lasts comes in time, and
      if the start never comes, the channel closes in time. What comes after the start has no deadline. */
  ghost predicate DecidedInTime(deadline: nat, arrivals: seq<Arrival>, stays: bool) {
    && (forall i | 0 <= i < |arrivals| && LoopAfter(arrivals, i).Waiting? :: InTime(deadline, arrivals, i))
    && (LoopAfter(arrivals, |arrivals|).Waiting? ==> !stays && ClockAt(arrivals, |arrivals|) < deadline)
  }

  /** A loop that waits has waited since it began. */
  lemma {:induction false} WaitedBefore(arrivals: seq<Arrival>, i: nat, j: nat)
    requires i <= j <= |arrivals| && LoopAfter(arrivals, j).Waiting?
    ensures LoopAfter(arrivals, i).Waiting?
    decreases j
  {
    if i < j {
      WaitedBefore(arrivals, i, j - 1);
    }
  }

  /** `body` is the client's upload, with None for a read error; the link to the agent accepts `accepts`
      more messages; `arrivals` is all that the event channel gives. A sender stays with it all the while:
      the entry holds one until a terminal event, or the handler itself, takes it out. */
  method HandleIngress(state: AppState, tunnelId: string, requestId: Uuid, verb: string, path: string,
                       headers: Headers, body: seq<Option<Bytes>>, accepts: nat, deadline: nat,
                       arrivals: seq<Arrival>)
    returns (reply: HttpReply, sent: seq<Wire>)
    requires state.Valid()
    requires requestId !in state.inflight && requestId !in state.httpQueues
    modifies state`inflight, state`httpQueues
    ensures state.Valid()
    ensures state.inflight ==
            if reply.Streamed? && !reply.ended then old(state.inflight)[requestId := requestId] else old(state.inflight)
    ensures tunnelId !in state.agents ==> reply == Simple(502) && sent == []
    ensures tunnelId in state.agents ==>
              sent <= RequestWires(state.agents[tunnelId].protocolVersion, requestId, verb, path, headers, ReadOk(body))
    ensures reply.Streamed? ==>
              var end := Replay(Events(arrivals));
              && end.Started() && reply.headers == end.headers && reply.body == end.body && (reply.ended <==> end.Shut?)
              && (100 <= end.status < 1000 ==> reply.status == end.status)
              && (!(100 <= end.status < 1000) ==> reply.status == 502)
    ensures reply.Simple? ==> reply.status == 502 || reply.status == 504
    ensures reply.Streamed? ==>
              && tunnelId in state.agents
              && sent == RequestWires(state.agents[tunnelId].protocolVersion, requestId, verb, path, headers,
                                      ReadOk(body))
    ensures tunnelId in state.agents && IsSupported(state.agents[tunnelId].protocolVersion) ==>
              var asked := [DStart(verb, path, headers)] + BodyDowns(NonEmpty(ReadOk(body))) + [DEnd];
              && Asks(sent, HttpId(requestId), asked)
              && ((forall i | 0 <= i < |body| :: body[i].Some?) && |NonEmpty(ReadOk(body))| + 2 <= accepts ==>
                    DownFor(HttpId(requestId), sent) == asked)
    ensures var delivered := tunnelId in state.agents && (forall i | 0 <= i < |body| :: body[i].Some?)
                             && |NonEmpty(ReadOk(body))| + 2 <= accepts;
            && (!delivered ==> reply == Simple(502))
            && (delivered && DecidedInTime(deadline, arrivals, true) ==>
                  && (reply.Streamed? <==> Replay(Events(arrivals)).Started())
                  && (!reply.Streamed? ==> reply == Simple(502)))
            && (delivered && !DecidedInTime(deadline, arrivals, true) ==> reply == Simple(504))
  {
    var agent := state.GetAgent(tunnelId);
    if agent.None? {
      return Simple(502), [];
    }
    var version := agent.value.protocolVersion;
    hide RequestWires, BodyFrames, NonEmpty, ReadOk, Replay, DownFor, TargetOf, DecidedInTime, BodyDowns, Asks;
    NothingSent(requestId);
    var start := Text(HttpRequestStart(requestId, verb, path, headers));
    if accepts == 0 {
      return Simple(502), [];
    }
    state.NewHttpChannel(requestId);
    state.AddInflight(requestId, requestId);
    AddThenRemove(old(state.inflight), requestId, requestId);
    var upload, ok := StreamBody(RequestBody, version, requestId, body, accepts - 1);
    PartOfWires(version, requestId, verb, path, headers, ReadOk(body), upload);
    sent := [start] + upload;
    RequestMeaning(version, requestId, verb, path, headers, ReadOk(body), sent);
    if !ok {
      state.RemoveInflight(requestId);
      return Simple(502), sent;
    }
    if |sent| == accepts {
      state.RemoveInflight(requestId);
      return Simple(502), sent;
    }
    sent := [start] + upload + [Text(HttpRequestEnd(requestId))];
    RequestMeaning(version, requestId, verb, path, headers, ReadOk(body), sent);

    reply := AnswerFrom(deadline, arrivals, true);
    if reply.Simple? || reply.ended {
      state.RemoveInflight(requestId);
    }
  }

  lemma PartOfWires(version: byte, requestId: Uuid, verb: string, path: string, headers: Headers,
                    chunks: seq<Bytes>, upload: seq<Wire>)
    requires upload <= BodyFrames(RequestBody, version, requestId, NonEmpty(chunks))
    ensures var wires := RequestWires(version, requestId, verb, path, headers, chunks);
            var begun := [Text(HttpRequestStart(requestId, verb, path, headers))] + upload;
            && begun <= wires
            && (upload == BodyFrames(RequestBody, version, requestId, NonEmpty(chunks)) ==>
                  begun + [Text(HttpRequestEnd(requestId))] == wires)
  {
  }

  /** What the agent reads in each prefix of it. */
  lemma RequestMeaning(version: byte, requestId: Uuid, verb: string, path: string, headers: Headers,
                       chunks: seq<Bytes>, sent: seq<Wire>)
    requires sent <= RequestWires(version, requestId, verb, path, headers, chunks)
    ensures IsSupported(version) ==>
              var asked := [DStart(verb, path, headers)] + BodyDowns(NonEmpty(chunks)) + [DEnd];
              Asks(sent, HttpId(requestId), asked)
              && (|sent| == |NonEmpty(chunks)| + 2 ==> DownFor(HttpId(requestId), sent) == asked)
    ensures |sent| == |NonEmpty(chunks)| + 2 ==>
              sent == RequestWires(version, requestId, verb, path, headers, chunks)
  {
    hide NonEmpty, BodyFrame, TargetOf, DownOf, DownFor;
    var wires := RequestWires(version, requestId, verb, path, headers, chunks);
    var asked := [DStart(verb, path, headers)] + BodyDowns(NonEmpty(chunks)) + [DEnd];
    if IsSupported(version) {
      forall i | 0 <= i < |wires| ensures TargetOf(wires[i]) == HttpId(requestId) && DownOf(wires[i]) == [asked[i]] {
        EndsMeaning(requestId, verb, path, headers);
        if 1 <= i < |wires| - 1 {
          BodyFrameMeaning(RequestBody, version, requestId, SeqNo(i - 1), NonEmpty(chunks)[i - 1]);
        }
      }
      DownForEach(HttpId(requestId), sent, asked[..|sent|]);
    }
  }

  lemma NothingSent(requestId: Uuid)
    ensures forall asked :: Asks([], HttpId(requestId), asked)
  {
  }

  lemma EndsMeaning(requestId: Uuid, verb: string, path: string, headers: Headers)
    ensures var m := Text(HttpRequestStart(requestId, verb, path, headers));
            TargetOf(m) == HttpId(requestId) && DownOf(m) == [DStart(verb, path, headers)]
    ensures var m := Text(HttpRequestEnd(requestId)); TargetOf(m) == HttpId(requestId) && DownOf(m) == [DEnd]
  {
  }

  /** The two event loops one after the other; `stays` says whether the channel stays open when it has given
      all its events. */
  method AnswerFrom(deadline: nat, arrivals: seq<Arrival>, stays: bool) returns (reply: HttpReply)
    ensures reply.Streamed? ==>
              var end := Replay(Events(arrivals));
              && end.Started() && reply.headers == end.headers && reply.body == end.body
              && (reply.ended <==> end.Shut? || !stays)
              && (100 <= end.status < 1000 ==> reply.status == end.status)
              && (!(100 <= end.status < 1000) ==> reply.status == 502)
    ensures reply.Simple? ==> reply.status == 502 || reply.status == 504
    ensures DecidedInTime(deadline, arrivals, stays) ==>
              && (reply.Streamed? <==> Replay(Events(arrivals)).Started())
              && (!reply.Streamed? ==> reply == Simple(502))
    ensures !DecidedInTime(deadline, arrivals, stays) ==> reply == Simple(504)
  {
    var decision, early, used, _ := WaitForStart(deadline, arrivals, stays);
    forall i | used <= i <= |arrivals| && LoopAfter(arrivals, i).Waiting? ensures LoopAfter(arrivals, used).Waiting? {
      WaitedBefore(arrivals, used, i);
    }
    ghost var evs := Events(arrivals);
    LoopAfterIsReplay(arrivals, used);
    assert evs[..used] + evs[used..] == evs;
    match decision {
      case GatewayTimeout =>
        return Simple(504);
      case BadGateway =>
        if Replay(evs[..used]).Refused? {
          ShutStays(evs[..used], evs[used..]);
        } else {
          assert evs[..used] == evs;
        }
        return Simple(502);
      case Started(status, headers) =>
        var yielded, taken, ended := DrainBody(early, evs[..used], Events(arrivals)[used..], stays);
        StatusKept(evs[..used], evs[used..]);
        return Streamed(if 100 <= status < 1000 then status else 502, headers, yielded, ended);
    }
  }

  /** A response keeps the status and headers it started with. */
  lemma {:induction false} StatusKept(before: seq<RelayEvent>, after: seq<RelayEvent>)
    requires Replay(before).Started()
    ensures Replay(before + after).Started() && Replay(before + after).status == Replay(before).status
    ensures Replay(before + after).headers == Replay(before).headers
  {
    if after == [] {
      assert before + after == before;
    } else {
      var init, last := after[..|after| - 1], after[|after| - 1];
      StatusKept(before, init);
      assert before + after == before + init + [last];
      ReplaySnoc(before + init, last);
    }
  }
}
