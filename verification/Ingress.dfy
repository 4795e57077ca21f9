/** An HTTP request at the relay, crates/relay-server/src/http_ingress.rs: the upload loop, the loop that
    waits for the agent's start, and the loop that drains the body. */
module Ingress {
  import opened Prelude
  import opened Frame
  import opened Messages
  import opened Framing

  // ---- what the two event loops make of a list of events ----

  datatype LoopState =
    | Waiting(early: seq<Bytes>)
    | Responding(status: nat, headers: Headers, body: seq<Bytes>)
    | Refused
    | Shut(status: nat, headers: Headers, body: seq<Bytes>, clean: bool)
  {
    predicate Started() { Responding? || Shut? }

    predicate Listening() { Waiting? || Responding? }

    function OnEvent(ev: RelayEvent): LoopState {
      match this
      case Waiting(early) =>
        (match ev
         case Start(status, headers) => Responding(status, headers, early)
         case Body(chunk) => Waiting(early + [chunk])
         case _ => Refused)
      case Responding(status, headers, body) =>
        (match ev
         case Start(_, _) => this
         case Body(chunk) => Responding(status, headers, body + [chunk])
         case End => Shut(status, headers, body, true)
         case Error(_, _) => Shut(status, headers, body, false))
      case _ => this
    }
  }

  function Replay(evs: seq<RelayEvent>): LoopState {
    if evs == [] then Waiting([]) else Replay(evs[..|evs| - 1]).OnEvent(evs[|evs| - 1])
  }

  lemma ReplaySnoc(evs: seq<RelayEvent>, ev: RelayEvent)
    ensures Replay(evs + [ev]) == Replay(evs).OnEvent(ev)
  {
    assert (evs + [ev])[..|evs|] == evs;
  }

  function Bodies(evs: seq<RelayEvent>): seq<Bytes> {
    if evs == [] then [] else
      Bodies(evs[..|evs| - 1]) + match evs[|evs| - 1] case Body(chunk) => [chunk] case _ => []
  }

  lemma BodiesSnoc(evs: seq<RelayEvent>, ev: RelayEvent)
    ensures Bodies(evs + [ev]) == Bodies(evs) + match ev case Body(chunk) => [chunk] case _ => []
    ensures Bodies([]) == []
  {
    assert (evs + [ev])[..|evs|] == evs;
  }

  /** `n` is where the first terminal event is, or the end of the list. */
  ghost predicate FirstTerminal(evs: seq<RelayEvent>, n: nat) {
    && n <= |evs|
    && (forall i | 0 <= i < n :: !evs[i].IsTerminal())
    && (n < |evs| ==> evs[n].IsTerminal())
  }

  ghost predicate FirstStart(evs: seq<RelayEvent>, n: nat) {
    n < |evs| && evs[n].Start? && forall i | 0 <= i < n :: !evs[i].Start?
  }

  /** The plain reading of an event list whose first terminal event is number `n` and whose first start is
      number `k`, or neither is there when `n`, or `k`, is as far as it can be. */
  function Reading(evs: seq<RelayEvent>, n: nat, k: nat): LoopState
    requires k <= n <= |evs| && (k < n ==> evs[k].Start?)
  {
    if k < n then
      if n == |evs| then Responding(evs[k].status, evs[k].headers, Bodies(evs[..n]))
      else Shut(evs[k].status, evs[k].headers, Bodies(evs[..n]), evs[n].End?)
    else if n == |evs| then Waiting(Bodies(evs[..n]))
    else Refused
  }

  /** One more event, read plainly. */
  lemma ReadingSnoc(init: seq<RelayEvent>, last: RelayEvent, n: nat, k: nat)
    requires k <= n <= |init| && (k < n ==> init[k].Start?)
    requires n == |init| ==> !last.IsTerminal()
    requires n == |init| && k == n ==> !last.Start?
    ensures var evs, n' := init + [last], if n == |init| then n + 1 else n;
            var k' := if k == n then n' else k;
            Reading(init, n, k).OnEvent(last) == Reading(evs, n', k')
  {
    hide Bodies;
    var evs := init + [last];
    assert evs[..|init|] == init && evs[..|init| + 1] == evs && init[..|init|] == init;
    assert evs[..n] == init[..n];
    BodiesSnoc(init, last);
  }

  /** The loops refine a plain reading of the event list: a start before the first terminal event
      answers with that start's status and headers and every body chunk before the terminal event,
      wherever among them the start is; no such start, no answer. */
  lemma {:induction false} ReplayMeaning(evs: seq<RelayEvent>, n: nat, k: nat)
    requires FirstTerminal(evs, n) && k <= n
    requires if k < n then FirstStart(evs, k) else forall i | 0 <= i < n :: !evs[i].Start?
    ensures Replay(evs) == Reading(evs, n, k)
    decreases |evs|
  {
    hide Replay, Reading;
    if evs == [] {
      NothingRead();
    } else {
      var init, last := evs[..|evs| - 1], evs[|evs| - 1];
      assert evs == init + [last];
      ReplaySnoc(init, last);
      if n < |init| {
        ReplayMeaning(init, n, k);
        ReadingSnoc(init, last, n, k);
      } else if n == |init| {
        ReplayMeaning(init, n, k);
        EndsReading(init, last, k);
      } else if k == |init| {
        ReplayMeaning(init, |init|, |init|);
        StartsReading(init, last);
      } else {
        ReplayMeaning(init, |init|, if k == n then |init| else k);
        ReadingSnoc(init, last, |init|, if k == n then |init| else k);
      }
    }
  }

  lemma NothingRead()
    ensures Replay([]) == Reading([], 0, 0)
  {
  }

  lemma EndsReading(init: seq<RelayEvent>, last: RelayEvent, k: nat)
    requires k <= |init| && (k < |init| ==> init[k].Start?) && last.IsTerminal()
    ensures Reading(init, |init|, k).OnEvent(last) == Reading(init + [last], |init|, k)
  {
    hide Bodies;
    assert init[..|init|] == init && (init + [last])[..|init|] == init;
  }

  lemma StartsReading(init: seq<RelayEvent>, last: RelayEvent)
    requires last.Start?
    ensures Reading(init, |init|, |init|).OnEvent(last) == Reading(init + [last], |init| + 1, |init|)
  {
    hide Bodies;
    assert init[..|init|] == init && (init + [last])[..|init| + 1] == init + [last];
    BodiesSnoc(init, last);
  }

  // ---- the wait-for-start loop and its deadline ----

  /** An event on the channel: how long the loop waits for it, and how long the loop then takes before
      it reads the clock again. */
  datatype Arrival = Arrival(ev: RelayEvent, delay: nat, lag: nat)

  function Events(arrivals: seq<Arrival>): (evs: seq<RelayEvent>)
    ensures |evs| == |arrivals|
    ensures forall i | 0 <= i < |evs| :: evs[i] == arrivals[i].ev
  {
    seq(|arrivals|, i requires 0 <= i < |arrivals| => arrivals[i].ev)
  }

  /** What the clock reads when the loop comes to wait for event number `i`. */
  function ClockAt(arrivals: seq<Arrival>, i: nat): nat
    requires i <= |arrivals|
  {
    if i == 0 then 0 else ClockAt(arrivals, i - 1) + arrivals[i - 1].delay + arrivals[i - 1].lag
  }

  function TotalDelay(arrivals: seq<Arrival>, i: nat): nat
    requires i <= |arrivals|
  {
    if i == 0 then 0 else TotalDelay(arrivals, i - 1) + arrivals[i - 1].delay
  }

  lemma {:induction false} DelaysWithinClock(arrivals: seq<Arrival>, i: nat)
    requires i <= |arrivals|
    ensures TotalDelay(arrivals, i) <= ClockAt(arrivals, i)
  {
    if i > 0 {
      DelaysWithinClock(arrivals, i - 1);
    }
  }

  /** The loop's state after the first `i` events. */
  function LoopAfter(arrivals: seq<Arrival>, i: nat): LoopState
    requires i <= |arrivals|
  {
    if i == 0 then Waiting([]) else LoopAfter(arrivals, i - 1).OnEvent(arrivals[i - 1].ev)
  }

  lemma {:induction false} LoopAfterIsReplay(arrivals: seq<Arrival>, i: nat)
    requires i <= |arrivals|
    ensures LoopAfter(arrivals, i) == Replay(Events(arrivals)[..i])
  {
    if i > 0 {
      LoopAfterIsReplay(arrivals, i - 1);
      assert Events(arrivals)[..i] == Events(arrivals)[..i - 1] + [arrivals[i - 1].ev];
      ReplaySnoc(Events(arrivals)[..i - 1], arrivals[i - 1].ev);
    }
  }

  /** Event `i` is in time if the loop still waits when its turn comes, and long enough. */
  predicate InTime(deadline: nat, arrivals: seq<Arrival>, i: nat)
    requires i < |arrivals|
  {
    ClockAt(arrivals, i) < deadline && ClockAt(arrivals, i) + arrivals[i].delay <= deadline
  }

  datatype Decision =
    | Started(status: nat, headers: Headers)
    | BadGateway
    | GatewayTimeout

  /** Waits in all for no longer than the deadline, however many body events come first; takes every
      event that is in time until the decision, and decides as `LoopAfter` says. When the channel has given
      all its events, the loop waits the rest of the time if a sender `stays`, and sees the end if not. */
  method WaitForStart(deadline: nat, arrivals: seq<Arrival>, stays: bool)
    returns (decision: Decision, early: seq<Bytes>, used: nat, waited: nat)
    ensures used <= |arrivals| && waited <= deadline
    ensures forall i | 0 <= i < used :: InTime(deadline, arrivals, i)
    ensures forall i | 0 <= i < used :: LoopAfter(arrivals, i).Waiting?
    ensures TotalDelay(arrivals, used) <= waited
    ensures match decision
            case Started(status, headers) => LoopAfter(arrivals, used) == Responding(status, headers, early)
            case BadGateway =>
              LoopAfter(arrivals, used).Refused?
              || (used == |arrivals| && !stays && ClockAt(arrivals, used) < deadline
                  && LoopAfter(arrivals, used).Waiting?)
            case GatewayTimeout =>
              && LoopAfter(arrivals, used).Waiting?
              && (if used < |arrivals| then
                    deadline <= ClockAt(arrivals, used) || deadline < ClockAt(arrivals, used) + arrivals[used].delay
                  else stays || deadline <= ClockAt(arrivals, used))
              && (used == |arrivals| && stays && ClockAt(arrivals, used) < deadline ==>
                    waited == TotalDelay(arrivals, used) + deadline - ClockAt(arrivals, used))
  {
    var elapsed := 0;
    early, used, waited := [], 0, 0;
    while true
      invariant used <= |arrivals| && elapsed == ClockAt(arrivals, used)
      invariant forall i | 0 <= i < used :: InTime(deadline, arrivals, i)
      invariant forall i | 0 <= i < used :: LoopAfter(arrivals, i).Waiting?
      invariant LoopAfter(arrivals, used) == Waiting(early)
      invariant waited == TotalDelay(arrivals, used) && waited <= deadline
      decreases |arrivals| - used
    {
      var remaining := if elapsed < deadline then deadline - elapsed else 0;
      if remaining == 0 {
        return GatewayTimeout, early, used, waited;
      }
      DelaysWithinClock(arrivals, used);
      if used == |arrivals| {
        if stays {
          waited := waited + remaining;
          return GatewayTimeout, early, used, waited;
        }
        return BadGateway, early, used, waited;
      }
      var a := arrivals[used];
      if remaining < a.delay {
        waited := waited + remaining;
        return GatewayTimeout, early, used, waited;
      }
      waited := waited + a.delay;
      elapsed := elapsed + a.delay + a.lag;
      used := used + 1;
      match a.ev {
        case Start(status, headers) => return Started(status, headers), early, used, waited;
        case Body(chunk) => early := early + [chunk];
        case End => return BadGateway, early, used, waited;
        case Error(_, _) => return BadGateway, early, used, waited;
      }
    }
  }

  /** The body stream, polled until it ends or has to wait: early chunks first, then the channel. `events` is
      what the channel has still to give; after it, the stream waits if a sender `stays`, and ends if not. */
  method DrainBody(early: seq<Bytes>, ghost before: seq<RelayEvent>, events: seq<RelayEvent>, stays: bool)
    returns (yielded: seq<Bytes>, used: nat, ended: bool)
    requires Replay(before).Responding? && Replay(before).body == early
    ensures used <= |events|
    ensures var end := Replay(before + events[..used]); end.Started() && end.body == yielded
    ensures Replay(before + events[..used]).Shut? || used == |events|
    ensures ended <==> Replay(before + events[..used]).Shut? || !stays
    ensures Replay(before + events) == Replay(before + events[..used])
  {
    hide Replay;
    var queue := early;
    yielded := [];
    while queue != []
      invariant yielded + queue == early
      decreases |queue|
    {
      yielded := yielded + [queue[0]];
      queue := queue[1..];
    }
    used := 0;
    assert before + events[..0] == before;
    while used < |events|
      invariant used <= |events|
      invariant var st := Replay(before + events[..used]); st.Responding? && st.body == yielded
    {
      var event := events[used];
      used := used + 1;
      assert before + events[..used] == before + events[..used - 1] + [event];
      ReplaySnoc(before + events[..used - 1], event);
      match event {
        case Body(chunk) => yielded := yielded + [chunk];
        case End => ShutStays(before + events[..used], events[used..]);
                    assert before + events[..used] + events[used..] == before + events;
                    return yielded, used, true;
        case Error(_, _) => ShutStays(before + events[..used], events[used..]);
                            assert before + events[..used] + events[used..] == before + events;
                            return yielded, used, true;
        case Start(_, _) =>
      }
    }
    assert events[..used] == events;
    ended := !stays;
  }

  lemma {:induction false} ShutStays(before: seq<RelayEvent>, after: seq<RelayEvent>)
    requires !Replay(before).Listening()
    ensures Replay(before + after) == Replay(before)
  {
    if after == [] {
      assert before + after == before;
    } else {
      var init, last := after[..|after| - 1], after[|after| - 1];
      ShutStays(before, init);
      assert before + after == before + init + [last];
      ReplaySnoc(before + init, last);
    }
  }

  // ---- the loop that sends a body, in the same form at both ends ----

  /** The chunks read before the body stream first fails. */
  function ReadOk(body: seq<Option<Bytes>>): seq<Bytes> {
    if body == [] || body[0].None? then [] else [body[0].value] + ReadOk(body[1..])
  }

  /** They are the chunks before the first failure, and all of them. */
  lemma {:induction false} ReadOkMeaning(body: seq<Option<Bytes>>)
    ensures |ReadOk(body)| <= |body| && (|ReadOk(body)| < |body| ==> body[|ReadOk(body)|].None?)
    ensures forall i | 0 <= i < |ReadOk(body)| :: body[i] == Some(ReadOk(body)[i])
  {
    if body != [] && body[0].Some? {
      ReadOkMeaning(body[1..]);
    }
  }

  lemma {:induction false} ReadOkSnoc(body: seq<Option<Bytes>>, i: nat)
    requires i < |body| && forall j | 0 <= j <= i :: body[j].Some?
    ensures ReadOk(body[..i + 1]) == ReadOk(body[..i]) + [body[i].value]
    decreases i
  {
    if i == 0 {
      assert body[..1][1..] == [];
    } else {
      ReadOkSnoc(body[1..], i - 1);
      assert body[..i + 1][1..] == body[1..][..i];
      assert body[..i][1..] == body[1..][..i - 1];
    }
  }

  /** stream_request_body, and with ResponseBody the chunk loop of the agent's proxy_one_request:
      sends the chunks until the body ends, the body fails, or the link, which accepts `accepts` more
      messages, is closed. */
  method StreamBody(kind: StreamKind, version: byte, requestId: Uuid, body: seq<Option<Bytes>>, accepts: nat)
    returns (sent: seq<Wire>, ok: bool)
    ensures |sent| <= accepts
    ensures sent <= BodyFrames(kind, version, requestId, NonEmpty(ReadOk(body)))
    ensures ok <==> (forall i | 0 <= i < |body| :: body[i].Some?) && |NonEmpty(ReadOk(body))| <= accepts
    ensures |sent| < accepts || ok ==> sent == BodyFrames(kind, version, requestId, NonEmpty(ReadOk(body)))
  {
    hide BodyFrame, BodyFrames, Bump;
    var seqNo: u32 := 0;
    sent := [];
    for i := 0 to |body|
      invariant forall j | 0 <= j < i :: body[j].Some?
      invariant sent == BodyFrames(kind, version, requestId, NonEmpty(ReadOk(body[..i])))
      invariant |sent| <= accepts && seqNo == SeqNo(|sent|)
    {
      ReadOkExtends(body, i);
      if body[i].None? {
        return sent, false;
      }
      var chunk := body[i].value;
      ReadOkSnoc(body, i);
      NonEmptySnoc(ReadOk(body[..i]), chunk);
      if chunk == [] {
        assert NonEmpty(ReadOk(body[..i + 1])) == NonEmpty(ReadOk(body[..i]));
        continue;
      }
      var frame := BodyFrame(kind, version, requestId, seqNo, chunk);
      BumpCounts(|sent|);
      seqNo := Bump(seqNo);
      BodyFramesSnoc(kind, version, requestId, NonEmpty(ReadOk(body[..i])), chunk);
      ReadOkExtends(body, i + 1);
      if |sent| == accepts {
        return sent, false;
      }
      sent := sent + [frame];
    }
    assert body[..|body|] == body;
    ok := true;
  }

  /** What was read of a body so far is a prefix of what will have been read. */
  lemma {:induction false} ReadOkExtends(body: seq<Option<Bytes>>, i: nat)
    requires i <= |body| && forall j | 0 <= j < i :: body[j].Some?
    ensures ReadOk(body[..i]) <= ReadOk(body) && NonEmpty(ReadOk(body[..i])) <= NonEmpty(ReadOk(body))
    ensures forall kind, version, id ::
              BodyFrames(kind, version, id, NonEmpty(ReadOk(body[..i])))
              <= BodyFrames(kind, version, id, NonEmpty(ReadOk(body)))
    ensures i < |body| && body[i].None? ==> ReadOk(body) == ReadOk(body[..i])
  {
    ReadOkPrefix(body, i);
    NonEmptyPrefix(ReadOk(body[..i]), ReadOk(body));
  }

  lemma {:induction false} ReadOkPrefix(body: seq<Option<Bytes>>, i: nat)
    requires i <= |body| && forall j | 0 <= j < i :: body[j].Some?
    ensures ReadOk(body[..i]) <= ReadOk(body)
    ensures i < |body| && body[i].None? ==> ReadOk(body) == ReadOk(body[..i])
    decreases i
  {
    if i > 0 {
      ReadOkPrefix(body[1..], i - 1);
      assert body[..i][1..] == body[1..][..i - 1];
    }
  }

  lemma {:induction false} NonEmptyPrefix(short: seq<Bytes>, long: seq<Bytes>)
    requires short <= long
    ensures NonEmpty(short) <= NonEmpty(long)
    decreases |long|
  {
    if short != long {
      NonEmptyPrefix(short, long[..|long| - 1]);
    }
  }
}
