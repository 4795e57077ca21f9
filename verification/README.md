# The tunnel between relay and agent, verified

A relay accepts HTTP requests and WebSocket clients from the network and passes them to an agent behind a
firewall. Every request and stream of an agent shares one WebSocket link with all the others, in both
directions, and both ends take the link apart again by id, through maps that several tasks change at the same
time. This project models that protocol in Dafny and proves that bytes arrive unaltered, in order, and only at
the request or stream they belong to, under every interleaving of the tasks, any number of agents and
reconnects, and links that may stop delivering anywhere.

Verify it with `dafny verify dfyconfig.toml`.

## How it is built

| layer | modules |
|---|---|
| bytes, chunks, identifiers, text | `Prelude`, `Utf8` |
| the binary frame and what messages mean | `Frame`, `Messages`, `Framing` |
| the relay's shared maps, as values and as the object that updates them | `RelayState`, `SharedState`, `Demux` |
| the loops and tasks, each run on its own, as methods against specifications | `Ingress`, `IngressTask`, `Session`, `Agent`, `Subprotocols`, `WsTunnel`, `StreamTask` |
| the whole system as steps, one map or queue operation each | `System` |
| what one request or stream sees of a connection | `Views` |
| the inductive invariant | `Invariants` |
| every step keeps it | `RequestLocal`, `RequestSteps`, `StreamLocal`, `StreamSteps`, `WireSteps`, `RegistrySteps`, `Safety` |
| what no step takes back | `Frames` |
| what follows for every run | `Theorems`, `StreamTheorems`, `Cleanup`, `Records` |
| runs that show the statements are not empty | `Witness`, `StreamWitness` |

A link or channel is the log of all it ever accepted, with a mark for how far it has been read, so "what was
received" and "what was sent" are parts of one state and can be compared. `System` also records, for the
statements only, what a local server produced, what a client uploaded, and what each was given; `Records`
proves that these records are what the steps of the run say the outside did. Five facts the
source takes from its libraries are assumed by construction: links and channels deliver in order, new ids are
new, text messages are UTF-8, a message that was accepted for sending may still never arrive, and a task may be
dropped only where it waits. The clock, the random ids, the sockets and the local server are parameters of the
steps.

The invariant is local to an id. `Views` shows that an operation done for one id leaves the view of every other
id as it was, so each step needs an argument about one request or stream only (`RequestLocal`, `StreamLocal`),
and `RequestSteps.OneRequest` and `StreamSteps.OneStream` lift it to the system. For a request it says: what
the agent has said is what its task was told to say; what the session has read of that is a prefix; and of what
was read, the part before the entry was added is lost, and all the rest is received, in the channel, or in the
session's hands.

## The steps and their source

| step | source |
|---|---|
| `OpenConn`, `AgentJoin` | crates/agent/src/relay_client.rs:109-119, 185-251 |
| `AgentRead`, `AgentStop`, `AgentPing` | crates/agent/src/relay_client.rs:137-183, 253-406 |
| `SessionGiveUp`, `SessionRegister`, `SessionAck` | crates/relay-server/src/ws_session.rs:39-149, 182-204 |
| `SessionRead`, `SessionStep` | crates/relay-server/src/ws_session.rs:153-175, 206-289; crates/relay-server/src/state.rs:125-228 |
| `SessionLeave`, `FindEntry`, `NextPhase`, `EvictPending`, `EvictStreamEntry`, `EvictSend`, `SessionEnd` | crates/relay-server/src/ws_session.rs:177; crates/relay-server/src/state.rs:105-115, 230-263 |
| `CloseLink` | crates/relay-server/src/ws_session.rs:31-37; crates/agent/src/relay_client.rs:127-133 |
| `Arrive`, `SendStart`, `AddInflight` | crates/relay-server/src/http_ingress.rs:62-87 |
| `UploadChunk`, `UploadStops`, `SendEnd` | crates/relay-server/src/http_ingress.rs:89-108, 183-216 |
| `NextEvent`, `YieldEarly`, `ReceiveFails`, `RemoveEntry`, `DropReceiver`, `Abandon` | crates/relay-server/src/http_ingress.rs:110-176 |
| `LocalBody`, `LocalAnswers`, `LocalChunk`, `LocalFails`, `LocalEnds`, `ReportFailure` | crates/agent/src/relay_client.rs:273-292, 611-668 |
| `WsArrive`, `AddWsPending`, `SendConnect`, `UpgradeLost` | crates/relay-server/src/ws_tunnel.rs:29-78 |
| `AddWsStream`, `AckArrives`, `AckTimeout`, `RejectClient`, `ClientTurn`, `RemoveWsStream`, `RemoveWsPending`, `LeaveStream` | crates/relay-server/src/ws_tunnel.rs:89-225 |
| `TaskAcks`, `TaskDialFails`, `TaskRefuses`, `TaskListens`, `TaskTurn`, `TaskDropsInput`, `TaskUnlists` | crates/agent/src/relay_client.rs:408-584 |

## Model

| member | source | states |
|---|---|---|
| Theorems.ResponseFidelity | crates/relay-server/src/http_ingress.rs:79-176 | in every run, a client that is answered got the status and headers of the task that served its own request, the chunks it was yielded are a prefix of the non-empty chunks the local server produced, and all of them when the stream ended on End |
| Theorems.LostStartNeverAnswers | crates/relay-server/src/http_ingress.rs:79-87 | a request some of whose events the session handled before the entry was added is never answered with the agent's status |
| Theorems.RequestBodyFidelity | crates/agent/src/relay_client.rs:269-296 | in every run, what the local server read of a request body is a prefix of the client's concatenated upload, and all of it once the request's end is handled with the receiver open and the channel drained |
| Theorems.AgentEmissions | crates/agent/src/relay_client.rs:611-668 | all that is ever put on a link about a request is a prefix of `Start Body* (End or Error)` or of `Error`, on the link of the connection that delivered its start and on no other |
| Theorems.ChannelShapes | crates/relay-server/src/state.rs:125-228 | in every run a request's channel has one terminal event at most, the last; a stream's has frames and one close at most |
| Theorems.InflightLifecycle | crates/relay-server/src/http_ingress.rs:86-176 | in every run an entry belongs to a request whose task still wants its events, or that was abandoned and whose channel is closed; it is gone once the handler has ended, by whatever path |
| Theorems.AbandonedIsForgotten | crates/relay-server/src/state.rs:125-165 | in every run, the step that comes to the end of an event of a request whose client went away leaves its entry gone, whatever other steps came between the operations of that event |
| Theorems.NeverWithoutSender | crates/relay-server/src/http_ingress.rs:110-176 | in every run the channel of a request never gives out for want of a sender: the wait for the start ends with an event or the deadline, so the answer "agent closed response stream" is never given, and a response that streams ends on a terminal event or with its client |
| Theorems.LocalRequestIsTheClients | crates/agent/src/relay_client.rs:262-297 | in every run the request an agent's task makes of its local server has the method, path and headers that the relay's task for the same id sent, on the same connection |
| Records.RecordsAreTheRuns | crates/agent/src/relay_client.rs:611-668 | what the other statements compare is what happened: in every run the status, headers and chunks on record for a local server, a client's request and upload, and what either end of a stream said and how it ended, are those of the steps the local server or the client took, in order and none left out; ends, errors and acks are told only for what caused them; and as long as the link accepts messages, all of it was sent on |
| Theorems.ReplaySaid | crates/relay-server/src/http_ingress.rs:112-176 | what the two ingress loops make of every prefix of what the agent's task says, in closed form |
| StreamTheorems.ClientFidelity | crates/relay-server/src/ws_tunnel.rs:91-225 | what a client is given is a contiguous run of what the agent's task said, from the number of frames dropped before the stream was added, and that task said what the local server said, from the first message, all of it while it serves; data messages are the same byte for byte; after the last of them comes at most one close, with the local server's own code and reason, or 1000 or 1011 and a reason if it ended without one; an eviction may cut the run short with one close, 1011 "agent disconnected" |
| StreamTheorems.LocalFidelity | crates/agent/src/relay_client.rs:469-583 | the same from the client to the local server, from the number of frames dropped before the task listened, with the client's own code and reason in the close |
| StreamTheorems.Handshake | crates/relay-server/src/ws_tunnel.rs:43-178 | per stream: one ack at most and nothing before it, one use of the one-shot at most, relay output a prefix of `WsConnect Frame* WsClose`, no frame or close before the agent said `ok: true` |
| StreamTheorems.LocalConnectIsTheClients | crates/agent/src/relay_client.rs:301-334 | in every run the stream an agent's task opens at its local server has the path, headers and subprotocols that the relay's task for the same id sent, on the same connection |
| StreamTheorems.StreamLifecycle | crates/relay-server/src/ws_tunnel.rs:43-225 | in every run an entry of `ws_streams` belongs to a task that has added it and not removed it, and leads to that task's open channel; an entry of `ws_pending` is its stream's own, and outlives the task only if the upgrade was lost after the connect was sent |
| StreamTheorems.AckForgets | crates/relay-server/src/state.rs:181-195 | in every run, each operation of an ack leaves no pending entry for its stream, so one that outlived its task goes with the ack |
| StreamTheorems.TunnelOwnership | crates/relay-server/src/state.rs:91-115 | in every run the registry's keys are exactly the tunnels of the sessions between insertion and removal, each under its own connection id, no tunnel with two |
| StreamTheorems.EntriesPassedTheGate | crates/relay-server/src/ws_session.rs:66-139 | every entry is of a registration with a valid id, a token the relay was started with and a supported version, 1 if none was named |
| StreamTheorems.OnlyAdmittedRun | crates/relay-server/src/ws_session.rs:39-149 | in every run an agent that runs was registered, an ack says `ok` exactly if its agent was, and whoever was ever registered had sent a registration with a valid id, a known token and a supported version or none |
| StreamTheorems.LeavingRemovesItsOwn | crates/relay-server/src/ws_session.rs:177 | the connection-id guard never fails for a session whose loop ends |
| StreamTheorems.EvictionIsOfThePast | crates/relay-server/src/state.rs:105-115 | over all runs, clean-up takes only streams of its own tunnel, opened under a registration no later than its own, on a session that has ended, and leaves all other streams and all requests alone |
| StreamTheorems.EvictionTellsItsOwn | crates/relay-server/src/state.rs:238-260 | over all runs, the sender that clean-up took out is used once and on its own stream alone: one ack for a pending stream, not ok and "agent disconnected"; one close for a stream that still listens, 1011 "agent disconnected" |
| Cleanup.CleanupIsComplete | crates/relay-server/src/state.rs:105-115 | over all runs, when a session's clean-up ends, every entry of its tunnel that either WebSocket map held when it began is gone, whatever other tasks did in between |
| StreamTheorems.DecodingIsTotal | crates/relay-server/src/ws_session.rs:265-289 | in every run every binary frame after the registration carries the version negotiated for its connection and direction, decodes, and is of the kind and with an opcode its reader expects; the relay's first message is text; an agent that runs read an accepting ack first, and of all that was put on its link after it, ignores only pongs |
| StreamTheorems.JoinsIffNothingBefore | crates/agent/src/relay_client.rs:206-251 | over all runs, an accepted agent that reads its first message runs if the relay had put nothing on the link before the ack, and stops if it had |
| Witness.SomeRequestIsAnswered | crates/relay-server/src/http_ingress.rs:55-181 | some run answers a request in full, so the statements about runs are not empty |
| Witness.SomeAcceptedAgentStops | crates/relay-server/src/ws_session.rs:115-149 | a request between the registration and its ack makes an accepted agent stop, with its session live and its tunnel taken |
| StreamWitness.SomeMessageIsDelivered | crates/relay-server/src/ws_tunnel.rs:80-225 | some run hands a client a message of the local server |
| Safety.RunSafe | crates/relay-server/src/state.rs:75-264 | the invariant holds after every list of steps that is a run |
| Safety.StepSafe | crates/relay-server/src/state.rs:75-264 | every step of every component keeps the invariant |
| Views.SendUpViews | crates/agent/src/relay_client.rs:670-678 | a message put on the link towards the relay changes the view of the id it names, by its meaning, and of no other |
| Views.SendDownViews | crates/relay-server/src/ws_wire.rs:5-13 | the same for a message towards the agent |
| Demux.DemuxCommutes | crates/relay-server/src/ws_session.rs:206-289 | for any list of agent messages, honest or not, an id's entries and channels end up as the messages naming that id alone would leave them |
| Demux.EvictExact | crates/relay-server/src/state.rs:230-263 | clean-up leaves both WebSocket maps without exactly this tunnel's entries, gives each of their one-shots one failing ack and each of their open channels one close, and leaves every other one-shot and channel as it was, whether an entry leads to it or not |
| Demux.ClosedReceiverForgotten | crates/relay-server/src/state.rs:125-165 | one undisturbed operation for an id whose receiver is gone removes its entry and does nothing else |
| Demux.UpOfFits | crates/relay-server/src/ws_session.rs:213-286 | no message makes an HTTP event for a stream or a WebSocket event for a request |
| RelayState.RunStepsIsApply | crates/relay-server/src/state.rs:125-228 | the single map and queue operations the system interleaves add up, undisturbed, to the whole operation |
| SharedState.AppState.RemoveAgentIf | crates/relay-server/src/state.rs:105-115 | removes the registration and evicts the tunnel, with a failing ack and a close 1011 that both say "agent disconnected", if the connection id is the registered one, and else changes nothing |
| SharedState.AppState.FailWsPendingForTunnel | crates/relay-server/src/state.rs:230-246 | the loop over collected ids does exactly the whole clean-up of the pending map |
| SharedState.AppState.CloseWsForTunnel | crates/relay-server/src/state.rs:248-263 | the loop over collected ids does exactly the whole clean-up of the stream map |
| SharedState.AppState.NotifyStart | crates/relay-server/src/state.rs:125-142 | sends on the id's channel, or forgets the id if its receiver is gone |
| SharedState.AppState.NotifyBody | crates/relay-server/src/state.rs:144-153 | sends on the id's channel, or forgets the id if its receiver is gone |
| SharedState.AppState.NotifyEnd | crates/relay-server/src/state.rs:155-159 | removes the entry, then sends the end |
| SharedState.AppState.NotifyError | crates/relay-server/src/state.rs:161-165 | removes the entry, then sends the error |
| SharedState.AppState.NotifyWsConnectAck | crates/relay-server/src/state.rs:181-195 | removes the entry and uses its sender once |
| SharedState.AppState.NotifyWsFrame | crates/relay-server/src/state.rs:211-222 | sends on the stream's channel, or forgets the stream if its receiver is gone |
| SharedState.AppState.NotifyWsClose | crates/relay-server/src/state.rs:224-228 | removes the stream, then sends the close |
| SharedState.ValidTunnelIds | crates/relay-server/src/state.rs:266-273 | a tunnel id is one to sixty-four ASCII letters, digits, hyphens and underscores |
| Session.GateMeaning | crates/relay-server/src/ws_session.rs:44-112 | a first message passes exactly when it registers with a supported or no version, a valid tunnel id and a known token; any other is told the first thing wrong with it |
| Session.Register | crates/relay-server/src/ws_session.rs:39-149 | whoever sends a first message is acked, `ok` exactly if let in, and with a reason exactly if not; let in is who passes the gate with a tunnel that is free; the registry after each outcome |
| Session.HandleTextMessage | crates/relay-server/src/ws_session.rs:206-259 | a text message has its meaning as its effect; a ping is answered |
| Session.HandleBinaryMessage | crates/relay-server/src/ws_session.rs:265-289 | a frame has its meaning as its effect; errors exactly on what does not decode |
| Session.HandleSocket | crates/relay-server/src/ws_session.rs:27-180 | a whole undisturbed session: the first message it sends is an ack, `ok` exactly if the gate passes and the tunnel is free, and with the gate's reason if not; every message after it; the registry as it found it, and the maps as its messages and then the clean-up leave them |
| Session.RepliesMeaning | crates/relay-server/src/ws_session.rs:248-257 | a session answers each ping with its time, in order, and nothing else |
| Ingress.ReplayMeaning | crates/relay-server/src/http_ingress.rs:112-176 | for every event list: a start before the first terminal event answers with it and with all body chunks before that terminal, wherever the start is; no such start, no answer |
| Ingress.WaitForStart | crates/relay-server/src/http_ingress.rs:110-149 | the waits never sum to more than the deadline, every event in time is taken, and the decision is the specification's; a channel that stays open and gives nothing more is waited for to the deadline |
| Ingress.DrainBody | crates/relay-server/src/http_ingress.rs:159-176 | yields the early chunks and then the channel's, up to the first terminal event; without one, it waits as long as a sender stays |
| Ingress.StreamBody | crates/relay-server/src/http_ingress.rs:183-216 | sends one frame for each non-empty chunk until the body ends or fails or the link closes, and says whether it ended |
| Ingress.ReadOkMeaning | crates/relay-server/src/http_ingress.rs:192-193 | the chunks read are those before the first failure, and all of them |
| Prelude.NonEmptyMeaning | crates/relay-server/src/http_ingress.rs:193-196 | the chunks sent are those that are not empty, in their order |
| IngressTask.HandleIngress | crates/relay-server/src/http_ingress.rs:55-181 | a whole undisturbed request: what the agent reads of it, the method, path, headers, non-empty chunks and end, from the first on and all of it if the upload succeeds and the link accepts it; 502 exactly if it cannot be sent or the events refuse it in time, 504 exactly if the start is not decided by the deadline, as with an agent that says nothing, and else the response, with the agent's status if that is one and 502 if not, however long its body takes; the map as it was found, but for the entry of a response that has not ended |
| IngressTask.AnswerFrom | crates/relay-server/src/http_ingress.rs:110-181 | the two loops together refine the reading of the event list if the start is decided by the deadline, which binds only the events read before it, and answer 504 if it is not; the client gets the agent's status, or 502 for a number that is no status; a list used up leaves the loops waiting if the channel stays open, and ends them if not |
| Framing.BodyFramingLaw | crates/relay-server/src/http_ingress.rs:189-215 | the i-th frame of a body is numbered i modulo 2^32 and not final, and the decoded payloads concatenate to the body |
| Messages.BodyFrameMeaning | crates/agent/src/relay_client.rs:368-382 | a body frame means its chunk to the end that expects it, and nothing to the other |
| Messages.WsFrameMeaning | crates/relay-server/src/ws_tunnel.rs:227-250 | a WebSocket frame means its opcode and data to the end that expects it, and nothing to the other |
| Messages.UpForPrefix | crates/relay-server/src/ws_session.rs:153-175 | what was read of a link is, for each id, a prefix of what was put on it |
| Frame.FrameRoundTrip | crates/protocol/src/frame.rs:82-129 | decoding gives back the header and payload that were encoded |
| Frame.FrameLayout | crates/protocol/src/frame.rs:82-95 | each byte of the header: version, kind, id, sequence number with its most significant byte first, flag; then the payload |
| Frame.DecodesExactly | crates/protocol/src/frame.rs:97-107 | which byte strings decode, and which error each other one gets |
| Frame.Reencode | crates/protocol/src/frame.rs:97-129 | encoding what was decoded gives the frame back, but for the unused bits of byte 22 |
| Frame.EncodeInjective | crates/protocol/src/frame.rs:82-95 | no two versions, headers and payloads share an encoding |
| Frame.WsPayloadInverse | crates/protocol/src/frame.rs:131-144 | the opcode layer is a bijection with the payloads that decode |
| Frame.DecodeChunkHeader | crates/protocol/src/frame.rs:97-129 | the decoder, with its local arrays, computes the format's decoding |
| Agent.Reader.HandleTextMessage | crates/agent/src/relay_client.rs:253-357 | the reader's maps and spawned tasks after a text message are those of its meaning, and message by message what is spawned, answered or taken out of the maps |
| Agent.JoinMeaning | crates/agent/src/relay_client.rs:206-251 | an agent joins on an accepting ack in a supported version and on nothing else |
| Agent.Reader.HandleBinaryMessage | crates/agent/src/relay_client.rs:359-406 | the reader's maps after a frame are those of its meaning; what does not decode changes nothing |
| Agent.ProxyOneRequest | crates/agent/src/relay_client.rs:281-291 | what the relay reads of a response: the local server's status and headers, its non-empty chunks, and the end, or the error if the body fails; or the error alone; cut short only where the link closes |
| Agent.RelayResponse | crates/agent/src/relay_client.rs:611-668 | succeeds exactly with a complete body and a link that accepts all of the response, and then the relay reads the local server's status and headers, its non-empty chunks and the end |
| WsTunnel.DataUnaltered | crates/relay-server/src/ws_tunnel.rs:139-206 | a data message comes out at the other end as it went in, in both directions |
| WsTunnel.CloseUnaltered | crates/agent/src/relay_client.rs:551-561 | a close comes out at the other end with the code and reason it went in with, in both directions; one without a code as 1000 |
| WsTunnel.ClosesFor | crates/relay-server/src/ws_tunnel.rs:190-217 | what either socket is closed with for each close, close frame or invalid text that comes over the link |
| Utf8.TextExactly | crates/relay-server/src/ws_tunnel.rs:190-199 | the payloads taken as text are exactly the UTF-8 encodings of lists of Unicode scalar values |
| WsTunnel.WireForMeaning | crates/agent/src/relay_client.rs:586-609 | what a loop puts on the link means, at the other end, the event it was made from |
| WsTunnel.LoopLanguage | crates/agent/src/relay_client.rs:488-575 | for any schedule and any failures a loop says its socket's messages in order from the first, one close at most and nothing after it, and hands on its channel's events in order from the first; it goes on exactly while neither has ended and link and socket take everything, and in its last turn says and hands on what they take |
| WsTunnel.OneMoreTurn | crates/relay-server/src/ws_tunnel.rs:127-217 | what each kind of turn puts on the link and hands to the socket, with the code and reason of each way a socket ends |
| WsTunnel.ClientLoop | crates/relay-server/src/ws_tunnel.rs:127-221 | the relay's select loop computes the specified run |
| WsTunnel.LocalLoop | crates/agent/src/relay_client.rs:488-575 | the agent's select loop computes the specified run |
| StreamTask.UpgradeClientWs | crates/relay-server/src/ws_tunnel.rs:22-78 | 502, 501 or an upgrade, when each happens, and the pending map after each |
| StreamTask.HandleClientSocket | crates/relay-server/src/ws_tunnel.rs:80-225 | whatever happens, both maps lose the stream and nothing else; nothing is sent to an agent that did not ack `ok`, and the client then gets one close, 1011, with the agent's reason or one that tells a refusal, a lost sender and a time-out apart; after an `ok` ack, the run of the loop |
| Subprotocols.ParseJoin | crates/agent/src/relay_client.rs:454-458 | every list of non-empty, trimmed, comma-free tokens survives joining and parsing |
| Subprotocols.ParseJoinParse | crates/relay-server/src/ws_tunnel.rs:266-278 | for every header, parsing the joined tokens gives the same list of tokens |
| Subprotocols.ParseMeaning | crates/relay-server/src/ws_tunnel.rs:266-278 | a header is read element by element between its commas, each trimmed, the empty ones left out and no other |
| Subprotocols.TrimMeaning | crates/relay-server/src/ws_tunnel.rs:275 | trimming takes the white space off both ends, all of it and nothing else |
| Subprotocols.JoinMeaning | crates/agent/src/relay_client.rs:454-458 | the printed list has a comma and a space between its tokens |

The other methods of `AppState` and those of `Agent.Inflight` are single map operations, each proved against
the same value.

## Left out

- JSON: control messages are values; text that does not parse is a message that means nothing.
- Sockets, TLS, the HTTP libraries and transport-level ping, pong and close frames of the agent link.
- Header filtering, URL composition, the client's headers as the agent forwards them, public URLs, configuration, backoff, the launcher and the health endpoints: library calls or straight-line code.
- Only the first `Sec-WebSocket-Protocol` header value is read, as in the source; the agent's choice among the subprotocols is carried in the ack and not used.
- Freshness of UUIDs is assumed: a step that makes a new id takes one that is not in use.
- WaitForStart: the clock is one `nat` per arrival, so what the time-out does is exact and how a timer fires is not modelled; in `System` a time-out may strike at any moment.
- HandleIngress: one request with no other task beside it; its interleavings are those of `System`.
- HandleSocket: one session with no other task beside it; its interleavings are those of `System`.
- HandleClientSocket: one stream with no other task beside it; what its channel gives is a parameter, which `System` ties to the session.
- AppState: the methods are atomic and channels never fill; that `notify_*` may be interrupted between two operations, and waits on a full channel, is modelled in `System` alone.
- RemoveAgentIf: iterating over a map and collecting ids is one atomic set comprehension; in `System` the search is steps of its own with other tasks in between, which come to every entry that is there throughout and may miss one that comes or goes meanwhile, and the ids are then taken in any order.
- CleanupIsComplete: no claim about an entry added after the clean-up began; such a one may be missed, in the source as in the model.
- ClientFidelity: the close frame a refused client gets is not part of `delivered`.
- SessionRegister: a refused registration and its ack are one step.
- AgentRead: the reader's handling of one message is one step; it is the only task that adds to its maps, and a stream's own task is a step of its own.
- ResponseFidelity: no claim that a response ever ends; the agent's disconnect does not end a started HTTP response in the source, and a mid-stream error ends it without telling the client.
- RequestBodyFidelity: no claim that a body whose channel ended is complete; a lost link and a failed upload both end it early in the source.
