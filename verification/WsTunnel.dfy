/** The two ends of a tunnelled WebSocket: the relay's client loop (crates/relay-server/src/ws_tunnel.rs) and the
    agent's local loop (crates/agent/src/relay_client.rs). */
module WsTunnel {
  import opened Prelude
  import opened Frame
  import opened Messages
  import opened Utf8

  /** A message of the client's or the local server's socket. */
  datatype WsMessage =
    | MText(bytes: Bytes)
    | MBinary(bytes: Bytes)
    | MPing(bytes: Bytes)
    | MPong(bytes: Bytes)
    | MClose(code: Option<nat>, reason: string)

  /** Text messages are valid UTF-8 by type. */
  predicate IsData(m: WsMessage) { !m.MClose? && (m.MText? ==> IsUtf8(m.bytes)) }

  function OpcodeFor(m: WsMessage): WsOpcode {
    match m
    case MText(_) => OpText
    case MBinary(_) => OpBinary
    case MPing(_) => OpPing
    case MPong(_) => OpPong
    case MClose(_, _) => OpClose
  }

  /** The event a socket's message becomes on the link. */
  function EventFor(m: WsMessage): WsEvent {
    match m
    case MClose(code, reason) => if code.Some? then WsEnd(code, Some(reason)) else WsEnd(Some(1000), None)
    case _ => WsFrame(OpcodeFor(m), m.bytes)
  }

  function EventsFor(ms: seq<WsMessage>): (evs: seq<WsEvent>)
    ensures |evs| == |ms|
  {
    seq(|ms|, i requires 0 <= i < |ms| => EventFor(ms[i]))
  }

  /** What the relay sends the client for an event. */
  function ToClient(ev: WsEvent): WsMessage {
    match ev
    case WsFrame(OpText, payload) =>
      if IsUtf8(payload) then MText(payload) else MClose(Some(1007), "invalid utf8 payload")
    case WsFrame(OpBinary, payload) => MBinary(payload)
    case WsFrame(OpPing, payload) => MPing(payload)
    case WsFrame(OpPong, payload) => MPong(payload)
    case WsFrame(OpClose, _) => MClose(Some(1000), "closed by agent")
    case WsEnd(code, reason) => MClose(Some(code.GetOr(1000)), reason.GetOr("closed"))
  }

  /** What the agent sends the local server for an event. */
  function ToLocal(ev: WsEvent): WsMessage {
    match ev
    case WsFrame(OpText, payload) => if IsUtf8(payload) then MText(payload) else MClose(None, "")
    case WsFrame(OpBinary, payload) => MBinary(payload)
    case WsFrame(OpPing, payload) => MPing(payload)
    case WsFrame(OpPong, payload) => MPong(payload)
    case WsFrame(OpClose, _) => MClose(None, "")
    case WsEnd(code, reason) => MClose(code, if code.Some? then reason.GetOr("") else "")
  }

  /** A data message comes out at the other end as it went in, in both directions, and travels under the
      opcode of its kind. */
  lemma DataUnaltered(m: WsMessage)
    requires IsData(m)
    ensures ToClient(EventFor(m)) == m && ToLocal(EventFor(m)) == m
    ensures EventFor(m).WsFrame? && EventFor(m).payload == m.bytes
    ensures EventFor(m).opcode ==
            if m.MText? then OpText else if m.MBinary? then OpBinary else if m.MPing? then OpPing else OpPong
  {
  }

  /** A close comes out with the code and reason it went in with, in both directions. One without a code comes
      out as a normal close, code 1000, and the client is always given a reason. */
  lemma CloseUnaltered(code: nat, reason: string)
    ensures ToClient(EventFor(MClose(Some(code), reason))) == MClose(Some(code), reason)
    ensures ToLocal(EventFor(MClose(Some(code), reason))) == MClose(Some(code), reason)
    ensures ToClient(EventFor(MClose(None, reason))) == MClose(Some(1000), "closed")
    ensures ToLocal(EventFor(MClose(None, reason))) == MClose(Some(1000), "")
  {
  }

  /** Whatever comes over the link closes the socket with the code and reason that came, as far as they came;
      a close frame, or a text that is none, closes it too. */
  lemma ClosesFor(code: Option<nat>, reason: Option<string>, payload: Bytes)
    ensures var m := ToClient(WsEnd(code, reason));
            && m.MClose? && m.code == Some(if code.Some? then code.value else 1000)
            && m.reason == if reason.Some? then reason.value else "closed"
    ensures var m := ToLocal(WsEnd(code, reason));
            && m.MClose? && m.code == code
            && m.reason == if code.Some? && reason.Some? then reason.value else ""
    ensures ToClient(WsFrame(OpClose, payload)) == MClose(Some(1000), "closed by agent")
    ensures ToLocal(WsFrame(OpClose, payload)) == MClose(None, "")
    ensures !IsUtf8(payload) ==>
              && ToClient(WsFrame(OpText, payload)) == MClose(Some(1007), "invalid utf8 payload")
              && ToLocal(WsFrame(OpText, payload)) == MClose(None, "")
  {
  }

  // ---- the select loops ----

  datatype Side = ClientSide | LocalSide

  /** What one turn of `select!` may yield: a message of the socket, its end or its failure; an event of
      the stream's channel, or the end of that channel. */
  datatype Input =
    | Peer(m: WsMessage)
    | PeerEnded
    | PeerFailed(error: string)
    | Event(ev: WsEvent)
    | EventsGone

  datatype Turn = Turn(emit: Option<Wire>, deliver: Option<WsMessage>, stop: bool)

  predicate ValidInput(input: Input) { input.Peer? && input.m.MText? ==> IsUtf8(input.m.bytes) }

  function FrameKind(side: Side): StreamKind { if side.ClientSide? then WsClientFrame else WsLocalFrame }

  function EndedReason(side: Side): string { if side.ClientSide? then "client socket ended" else "local ws ended" }

  function FailedReason(side: Side, error: string): string {
    (if side.ClientSide? then "client ws read error: " else "local ws read error: ") + error
  }

  /** How a socket ended: with its close, without one, or with an error. */
  datatype Hangup = ByClose(code: Option<nat>, reason: string) | ByEnd | ByError(error: string)

  function HangupOf(input: Input): Option<Hangup> {
    match input
    case Peer(MClose(code, reason)) => Some(ByClose(code, reason))
    case PeerEnded => Some(ByEnd)
    case PeerFailed(error) => Some(ByError(error))
    case _ => None
  }

  /** What is put on the link for it. */
  function HangupEvent(side: Side, hangup: Hangup): WsEvent {
    match hangup
    case ByClose(code, reason) => EventFor(MClose(code, reason))
    case ByEnd => WsEnd(Some(1000), Some(EndedReason(side)))
    case ByError(error) => WsEnd(Some(1011), Some(FailedReason(side, error)))
  }

  /** The event a turn puts on the link. */
  function EmittedEvent(side: Side, input: Input): Option<WsEvent> {
    match input
    case Peer(m) => Some(EventFor(m))
    case PeerEnded => Some(HangupEvent(side, ByEnd))
    case PeerFailed(error) => Some(HangupEvent(side, ByError(error)))
    case _ => None
  }

  lemma HangupTold(side: Side, input: Input)
    ensures HangupOf(input).Some? <==> EmittedEvent(side, input).Some? && EmittedEvent(side, input).value.WsEnd?
    ensures HangupOf(input).Some? ==> EmittedEvent(side, input) == Some(HangupEvent(side, HangupOf(input).value))
  {
  }

  function WireFor(side: Side, version: byte, x: Uuid, ev: WsEvent): Wire {
    match ev
    case WsFrame(opcode, payload) => WsFrameWire(FrameKind(side), version, x, opcode, payload)
    case WsEnd(code, reason) => Text(WsClose(x, code, reason))
  }

  function TakeTurn(side: Side, version: byte, x: Uuid, input: Input): Turn {
    match input
    case Event(ev) => Turn(None, Some(if side.ClientSide? then ToClient(ev) else ToLocal(ev)), ev.WsEnd?)
    case EventsGone => Turn(None, None, true)
    case _ =>
      var ev := EmittedEvent(side, input).value;
      Turn(Some(WireFor(side, version, x, ev)), None, ev.WsEnd?)
  }

  lemma WireForMeaning(side: Side, version: byte, x: Uuid, ev: WsEvent)
    requires IsSupported(version)
    ensures TargetOf(WireFor(side, version, x, ev)) == WsId(x)
    ensures side.ClientSide? ==> DownOf(WireFor(side, version, x, ev)) == [DWs(ev)]
    ensures side.LocalSide? ==> UpOf(WireFor(side, version, x, ev)) == [UWs(ev)]
  {
    if ev.WsFrame? {
      WsFrameMeaning(FrameKind(side), version, x, ev.opcode, ev.payload);
    }
  }

  /** A loop so far: what it put on the link and sent to its socket, and whether it still runs. */
  datatype LoopRun = LoopRun(emitted: seq<Wire>, delivered: seq<WsMessage>, running: bool)

  /** One turn, when the link accepts `accepts` messages in all and the socket `delivers`. */
  function Advance(run: LoopRun, turn: Turn, accepts: nat, delivers: nat): LoopRun {
    if !run.running then run
    else if turn.emit.Some? then
      if |run.emitted| < accepts then LoopRun(run.emitted + [turn.emit.value], run.delivered, !turn.stop)
      else run.(running := false)
    else if turn.deliver.Some? then
      if |run.delivered| < delivers then LoopRun(run.emitted, run.delivered + [turn.deliver.value], !turn.stop)
      else run.(running := false)
    else run.(running := !turn.stop)
  }

  function RunLoop(side: Side, version: byte, x: Uuid, schedule: seq<Input>, accepts: nat, delivers: nat): LoopRun {
    if schedule == [] then LoopRun([], [], true) else
      Advance(RunLoop(side, version, x, schedule[..|schedule| - 1], accepts, delivers),
              TakeTurn(side, version, x, schedule[|schedule| - 1]), accepts, delivers)
  }

  lemma {:induction false} StoppedStays(side: Side, version: byte, x: Uuid, schedule: seq<Input>, n: nat,
                                        accepts: nat, delivers: nat)
    requires n <= |schedule| && !RunLoop(side, version, x, schedule[..n], accepts, delivers).running
    ensures RunLoop(side, version, x, schedule, accepts, delivers)
            == RunLoop(side, version, x, schedule[..n], accepts, delivers)
    decreases |schedule|
  {
    if n == |schedule| {
      assert schedule[..n] == schedule;
    } else {
      var init := schedule[..|schedule| - 1];
      assert init[..n] == schedule[..n];
      StoppedStays(side, version, x, init, n, accepts, delivers);
    }
  }

  /** Everything a schedule would have the loop put on the link, and send to its socket. */
  function Emissions(side: Side, schedule: seq<Input>): seq<WsEvent> {
    if schedule == [] then [] else
      Emissions(side, schedule[..|schedule| - 1])
        + match EmittedEvent(side, schedule[|schedule| - 1]) case Some(ev) => [ev] case None => []
  }

  function Deliveries(side: Side, schedule: seq<Input>): seq<WsMessage> {
    if schedule == [] then [] else
      Deliveries(side, schedule[..|schedule| - 1])
        + match schedule[|schedule| - 1]
          case Event(ev) => [if side.ClientSide? then ToClient(ev) else ToLocal(ev)]
          case _ => []
  }

  /** What each turn adds. */
  lemma OneMoreTurn(side: Side, schedule: seq<Input>, input: Input)
    ensures Emissions(side, schedule + [input]) == Emissions(side, schedule) +
            match input
            case Peer(MText(b)) => [WsFrame(OpText, b)]
            case Peer(MBinary(b)) => [WsFrame(OpBinary, b)]
            case Peer(MPing(b)) => [WsFrame(OpPing, b)]
            case Peer(MPong(b)) => [WsFrame(OpPong, b)]
            case Peer(MClose(Some(code), reason)) => [WsEnd(Some(code), Some(reason))]
            case Peer(MClose(None, _)) => [WsEnd(Some(1000), None)]
            case PeerEnded =>
              [WsEnd(Some(1000), Some(if side.ClientSide? then "client socket ended" else "local ws ended"))]
            case PeerFailed(error) =>
              [WsEnd(Some(1011),
                     Some((if side.ClientSide? then "client ws read error: " else "local ws read error: ") + error))]
            case _ => []
    ensures Deliveries(side, schedule + [input]) == Deliveries(side, schedule) +
            match input
            case Event(ev) => [if side.ClientSide? then ToClient(ev) else ToLocal(ev)]
            case _ => []
    ensures Emissions(side, []) == [] && Deliveries(side, []) == []
  {
    assert (schedule + [input])[..|schedule|] == schedule;
  }

  /** The turns after which no loop goes on. */
  predicate Last(input: Input) {
    || input.PeerEnded? || input.PeerFailed? || input.EventsGone?
    || (input.Peer? && input.m.MClose?) || (input.Event? && input.ev.WsEnd?)
  }

  /** `run` is a loop whose socket said `all` and whose channel gave `given`; `over` if either has ended. */
  ghost predicate Speaks(run: LoopRun, side: Side, version: byte, x: Uuid, all: seq<WsEvent>, given: seq<WsMessage>,
                         over: bool, accepts: nat, delivers: nat) {
    && |run.emitted| <= |all|
    && (forall i | 0 <= i < |run.emitted| :: run.emitted[i] == WireFor(side, version, x, all[i]))
    && (forall i | 0 <= i < |run.emitted| - 1 :: all[i].WsFrame?)
    && run.delivered <= given
    && (run.running <==> !over && |all| <= accepts && |given| <= delivers)
    && (run.running ==>
          |run.emitted| == |all| && run.delivered == given && forall i | 0 <= i < |all| :: all[i].WsFrame?)
  }

  lemma OneTurnSpeaks(run: LoopRun, side: Side, version: byte, x: Uuid, all: seq<WsEvent>, given: seq<WsMessage>,
                      over: bool, input: Input, accepts: nat, delivers: nat)
    requires Speaks(run, side, version, x, all, given, over, accepts, delivers)
    ensures var run' := Advance(run, TakeTurn(side, version, x, input), accepts, delivers);
            var all' := all + match EmittedEvent(side, input) case Some(ev) => [ev] case None => [];
            var given' := given + match input
                                  case Event(ev) => [if side.ClientSide? then ToClient(ev) else ToLocal(ev)]
                                  case _ => [];
            && Speaks(run', side, version, x, all', given', over || Last(input), accepts, delivers)
            && (run.running ==>
                  && |run'.emitted| == (if |all'| <= accepts then |all'| else accepts)
                  && |run'.delivered| == (if |given'| <= delivers then |given'| else delivers))
  {
    hide ToClient, ToLocal, WireFor, EventFor, EndedReason, FailedReason;
    HangupTold(side, input);
    EventKind(input);
  }

  lemma EventKind(input: Input)
    ensures input.Peer? ==> (EventFor(input.m).WsEnd? <==> input.m.MClose?)
  {
  }

  /** A loop says, in order and from the first, what its socket said, one close at most and nothing
      after it; and hands its socket, in order and from the first, what its channel gave. It goes on exactly
      as long as neither end has ended and both the link and the socket have taken everything; and in the
      turn it stops with, it still says and hands on what they take. */
  lemma {:induction false} LoopLanguage(side: Side, version: byte, x: Uuid, schedule: seq<Input>, accepts: nat,
                                        delivers: nat)
    ensures var run := RunLoop(side, version, x, schedule, accepts, delivers);
            var all, given := Emissions(side, schedule), Deliveries(side, schedule);
            && Speaks(run, side, version, x, all, given, exists i | 0 <= i < |schedule| :: Last(schedule[i]), accepts,
                      delivers)
            && (schedule == []
                || RunLoop(side, version, x, schedule[..|schedule| - 1], accepts, delivers).running ==>
                  && |run.emitted| == (if |all| <= accepts then |all| else accepts)
                  && |run.delivered| == (if |given| <= delivers then |given| else delivers))
  {
    hide Advance, TakeTurn, Last, EmittedEvent;
    if schedule != [] {
      var init, last := schedule[..|schedule| - 1], schedule[|schedule| - 1];
      LoopLanguage(side, version, x, init, accepts, delivers);
      OneTurnSpeaks(RunLoop(side, version, x, init, accepts, delivers), side, version, x, Emissions(side, init),
                    Deliveries(side, init), exists i | 0 <= i < |init| :: Last(init[i]), last, accepts, delivers);
    }
  }

  /** The loop of handle_client_socket. */
  method ClientLoop(version: byte, x: Uuid, schedule: seq<Input>, accepts: nat, delivers: nat)
    returns (emitted: seq<Wire>, delivered: seq<WsMessage>, stopped: bool)
    ensures LoopRun(emitted, delivered, !stopped) == RunLoop(ClientSide, version, x, schedule, accepts, delivers)
  {
    emitted, delivered, stopped := [], [], false;
    var i := 0;
    while i < |schedule| && !stopped
      invariant i <= |schedule|
      invariant LoopRun(emitted, delivered, !stopped) ==
                RunLoop(ClientSide, version, x, schedule[..i], accepts, delivers)
    {
      assert schedule[..i + 1][..i] == schedule[..i];
      var out: Option<Wire> := None;
      match schedule[i] {
        case Peer(MText(b)) => out := Some(WsFrameWire(WsClientFrame, version, x, OpText, b));
        case Peer(MBinary(b)) => out := Some(WsFrameWire(WsClientFrame, version, x, OpBinary, b));
        case Peer(MPing(b)) => out := Some(WsFrameWire(WsClientFrame, version, x, OpPing, b));
        case Peer(MPong(b)) => out := Some(WsFrameWire(WsClientFrame, version, x, OpPong, b));
        case Peer(MClose(code, reason)) =>
          out := Some(Text(if code.Some? then WsClose(x, code, Some(reason)) else WsClose(x, Some(1000), None)));
          stopped := true;
        case PeerEnded =>
          out := Some(Text(WsClose(x, Some(1000), Some("client socket ended"))));
          stopped := true;
        case PeerFailed(error) =>
          out := Some(Text(WsClose(x, Some(1011), Some("client ws read error: " + error))));
          stopped := true;
        case Event(ev) =>
          if |delivered| < delivers {
            delivered := delivered + [ToClient(ev)];
            stopped := ev.WsEnd?;
          } else {
            stopped := true;
          }
        case EventsGone => stopped := true;
      }
      if out.Some? {
        if |emitted| < accepts {
          emitted := emitted + [out.value];
        } else {
          stopped := true;
        }
      }
      i := i + 1;
    }
    if stopped {
      StoppedStays(ClientSide, version, x, schedule, i, accepts, delivers);
    } else {
      assert schedule[..i] == schedule;
    }
  }

  /** The loop of run_one_ws_stream. */
  method LocalLoop(version: byte, x: Uuid, schedule: seq<Input>, accepts: nat, delivers: nat)
    returns (emitted: seq<Wire>, delivered: seq<WsMessage>, stopped: bool)
    ensures LoopRun(emitted, delivered, !stopped) == RunLoop(LocalSide, version, x, schedule, accepts, delivers)
  {
    emitted, delivered, stopped := [], [], false;
    var i := 0;
    while i < |schedule| && !stopped
      invariant i <= |schedule|
      invariant LoopRun(emitted, delivered, !stopped) ==
                RunLoop(LocalSide, version, x, schedule[..i], accepts, delivers)
    {
      assert schedule[..i + 1][..i] == schedule[..i];
      var out: Option<Wire> := None;
      match schedule[i] {
        case Event(WsFrame(opcode, payload)) =>
          if |delivered| < delivers {
            delivered := delivered + [ToLocal(WsFrame(opcode, payload))];
          } else {
            stopped := true;
          }
        case Event(WsEnd(code, reason)) =>
          if |delivered| < delivers {
            delivered := delivered + [ToLocal(WsEnd(code, reason))];
          }
          stopped := true;
        case EventsGone => stopped := true;
        case PeerEnded =>
          out := Some(Text(WsClose(x, Some(1000), Some("local ws ended"))));
          stopped := true;
        case Peer(MText(b)) => out := Some(WsFrameWire(WsLocalFrame, version, x, OpText, b));
        case Peer(MBinary(b)) => out := Some(WsFrameWire(WsLocalFrame, version, x, OpBinary, b));
        case Peer(MPing(b)) => out := Some(WsFrameWire(WsLocalFrame, version, x, OpPing, b));
        case Peer(MPong(b)) => out := Some(WsFrameWire(WsLocalFrame, version, x, OpPong, b));
        case Peer(MClose(code, reason)) =>
          out := Some(Text(if code.Some? then WsClose(x, code, Some(reason)) else WsClose(x, Some(1000), None)));
          stopped := true;
        case PeerFailed(error) =>
          out := Some(Text(WsClose(x, Some(1011), Some("local ws read error: " + error))));
          stopped := true;
      }
      if out.Some? {
        if |emitted| < accepts {
          emitted := emitted + [out.value];
        } else {
          stopped := true;
        }
      }
      i := i + 1;
    }
    if stopped {
      StoppedStays(LocalSide, version, x, schedule, i, accepts, delivers);
    } else {
      assert schedule[..i] == schedule;
    }
  }
}
