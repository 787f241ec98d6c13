# Layered sessions, their transport, relay, framing and splitting

A Dafny model of a networking library's core: sessions that are towers of handshake protocols over
one connection, the reactor transport that drives such a session by readiness events, the two-way
relay between a local stream and a session, the frame queue, and splitting a session into halves.
`dafny verify dfyconfig.toml` verifies all of it.

## What is modelled

- **Connection** (`Connection.dfy`). What the operating system will answer to reads, writes and
  flushes is data of the connection, so that a statement about every connection is a statement about
  every behaviour of the system: short reads and writes, end of stream, every error, at any point.
  The connection also logs the bytes taken from it and sent to it. `read_exact` and `write_all` are
  the loops of the standard library, with their retries.
- **Machines** (`Machines.dfy`). A `NetStateMachine` is abstract: a deterministic machine is its
  answers as functions of its past (the artifact it was initialised with and the inputs of its
  `advance` calls). So the sequence of `advance` calls is part of the state, and equality of machines
  is equality of those sequences. Laws are predicates on the answers, stated where they are needed;
  `Scripted.dfy` has, for every dialogue, a machine that meets them all.
- **Sessions** (`Session.dfy`, `Stack.dfy`, `Discipline.dfy`, `Steps.dfy`). `NetProtocol` over `NetSession` is a
  recursive datatype of any depth with the nested reads and writes as the code has them. The reference
  form is a flat stack of machines over one connection, where a call goes to the lowest machine without
  an artifact; `CallRefines` shows the nested form to be that, and everything else is proved on the stack.
- **Blocking and non-blocking handshake** (`Blocking.dfy`). The loop of `run_handshake`, the nested
  blocking handshake, and the handshake driven by alternating write and read events.
- **Transport** (`Transport.dfy`, `Resource.dfy`, `Runs.dfy`, `Traffic.dfy`, `Effects.dfy`). The functions of
  `Transport.dfy` say what each operation computes; the properties are proved over every run of I/O
  events within the interests, gated writes, flushes and failed unwrappings. The class `NetTransport`
  updates its fields in place; with a ghost ledger of the bytes accepted and the events returned, its
  methods promise those properties.
- **Two peers** (`Dialogue.dfy`, `Arrivals.dfy`, `Peers.dfy`, `Liveness.dfy`). Two sessions, and two transports, joined
  by two first-in-first-out byte channels, under any interleaving of calls, events, application writes,
  deliveries of any number of bytes, and errors. The machines of both sides follow, for each layer, the
  same dialogue (acts in order, with their speakers and whether they are given as a reply in the read
  call or unasked in a write call); both sides are then at positions of one script.
- **Relay** (`Tunnel.dfy`), **framing** (`Frame.dfy`), **splitting** (`Split.dfy`).

Conditions that the properties need are explicit in the statements. The base connection keeps its
peer. Whole acts: a handshake read finds a whole act available or nothing, whatever has arrived behind
it, and an act is absorbed, in however many parts; `InboundStep` and `OutboundStep` show each to be
exactly the condition of its partition, `TornActVanishes` and `RefusedActStillEstablishes` what happens
otherwise, and `EstablishedHidesRefusals` that a refused last act is exactly the failure that
`Established` hides. `accept` is given a session that is not established (`Opening`,
`AcceptEstablishedDropsData`). Wake-ups are lost exactly by a write refused for good (`StepStaysAwake`).

Two results differ from what one might expect of the code. The handshake of two transports can be
completed if and only if the initiator opens it and no side is to speak after it has spoken unasked
(`CompletesIffTakesTurns`): after a write event a transport in its handshake asks only to read, so
otherwise a side falls asleep on its own turn for ever (`GetsStuck`, `SpeakingTwiceDeadlocks`). And the
two forms of the handshake agree if and only if no machine that the handshake comes to waits for its
peer first (`AgreeIffOpens`), since the blocking form begins with an empty input. Both statements about
the two forms are about quiet runs: when the run comes to a machine that answers an empty act to an empty
input, no outcome of a write is listed for the connection, because only the non-blocking form passes that
empty write on and uses up an outcome (`EmptyActDiffers`). Machines that always have something to say run
quietly over every connection (`SmoothIsQuiet`).

Deadlock freedom is about transports that are able (`Able`): not ended by a failure, and, while in the
handshake, with a connection that takes something of whatever it is offered or is interrupted, and with
nothing arrived but bytes, interruptions, and `WouldBlock` between acts. A `WouldBlock` inside an act, a
failure or an end of stream tears the act, which the code does not survive (`TornActVanishes`).

Where code and documentation differ, the code is followed: the documentation of the transport's states
says that `Init` happens for outgoing connections (src/resource.rs:179-184), but no constructor makes
it; it is covered by `TerminatedIffReported` and `ConnectingStartsHandshake` only.

## Model

| member | source | states |
|---|---|---|
| Session.Read | src/session.rs:336-374 | a read of an established session of any depth is the read of its connection and changes no machine |
| Session.Write | src/session.rs:380-423 | a write of an established session of any depth is the write of its connection, and never reports more than it was given; `Steps.CallExactly` and `Steps.AcceptedIsSent` say the rest |
| Session.ReadExact | src/session.rs:349-351 | the act read through the nested session below a layer is read straight off the connection |
| Session.WriteAll | src/session.rs:365-370 | the act written through the nested session below a layer goes straight to the connection |
| Session.Flush | src/session.rs:425-425 | flushing a session of any depth is flushing its connection |
| Connection.ReadExactTakes | src/session.rs:349-351 | an act is read if and only if enough has arrived; a failed read has still taken everything that had |
| Connection.WriteAllPuts | src/session.rs:365-370 | an act is sent whole if and only if the connection absorbs it; otherwise a proper prefix is on the wire |
| Stack.ArtifactRefines | src/session.rs:486-491 | the nested artifact exists exactly when every machine has its own, and is their artifacts over the peer address |
| Stack.ArtifactYields | src/session.rs:486-491 | the artifact of an established session holds its peer address and the artifact of every machine, in order |
| Stack.CallRefines | src/session.rs:336-423 | nested reads and writes of any depth do exactly what the flat stack does: one step of the lowest incomplete machine, or the connection |
| Steps.CallExactly | src/session.rs:336-423 | before establishment, by what has arrived and what is absorbed: which input the lowest machine is given, what is taken and sent, and every answer with its error; after an empty act the application bytes go to the connection |
| Steps.AcceptedIsSent | src/session.rs:380-423 | at any depth, established or not: bytes that a write reports as accepted are on the wire, exactly they |
| Discipline.CallDiscipline | src/session.rs:310-423 | a call touches at most the lowest incomplete machine, initialised with the artifact below, by at most one advance; a read before establishment delivers nothing; established stays established |
| Discipline.RunKeepsDiscipline | src/session.rs:310-330 | over every run of calls a machine is only ever initialised with the artifact of the completed machines below, before it advances, and no machine above an incomplete one is used |
| Discipline.NoPeerPassesDown | src/session.rs:340-345 | without a peer no layer acts |
| Discipline.HandshakeRefusesWrites | src/session.rs:391-421 | a session of machines that never answer an empty act to an empty input accepts application bytes only once it is established |
| Discipline.InboundExact | src/session.rs:349-374 | bytes taken stay equal to the handshake inputs in layer order if and only if the read finds a whole act or nothing |
| Discipline.OutboundExact | src/session.rs:391-421 | bytes sent stay equal to the handshake acts in layer order if and only if the act of the call is absorbed |
| Blocking.RunMachine | src/session.rs:237-263 | the loop terminates for bounded machines and computes the recursive blocking handshake |
| Blocking.BlockingRefines | src/session.rs:475-484 | the nested blocking handshake, which writes to the raw connection, runs the machines of the stack one after the other from the bottom |
| Blocking.LoopEndsAs | src/session.rs:237-263 | the blocking form of a machine ends exactly when it fails, its act is refused, it is complete, or what it asks for has not arrived; until then it was given what it asked for and its acts were sent |
| Blocking.BlockingEstablishes | src/session.rs:475-484 | a blocking handshake that succeeds leaves an established session |
| Blocking.AlternateReaches | src/session.rs:336-423 | for every session and every connection, over a quiet run, finitely many write/read rounds reach what is left of the blocking form, successful or failed |
| Blocking.BlockingEqualsAlternating | src/session.rs:475-484 | for an initiator of any depth, over a quiet run, both forms give the same machines with the same advance calls, the same bytes in both directions and the same result, whatever the connection delivers, takes in parts or refuses |
| Blocking.ResponderDiffers | src/session.rs:238-240 | at any depth: if some machine the blocking form comes to waits for its peer first, the two forms are never in the same state |
| Blocking.AgreeIffOpens | src/session.rs:237-259 | at any depth, over a quiet run: the forms agree if and only if no machine that the handshake comes to waits for its peer first |
| Blocking.EmptyActDiffers | src/session.rs:391-421 | with an empty act and a refusal the forms differ: only the non-blocking one passes the empty write on |
| Blocking.SmoothIsQuiet | src/session.rs:391-421 | the run is quiet if every machine that waits for nothing has something to say, or if no outcomes of writes are listed |
| Dialogue.StackTakes | src/session.rs:336-423 | a call on a side that follows its dialogues takes the next turn of the script, with its reply, or nothing, and the side goes on following, whatever has arrived behind the act and in however many parts the answer is taken |
| Peers.CallAligns | src/session.rs:336-423 | every call of either side with whole acts keeps the invariant that both sides are at positions of one script whose acts, followed by application bytes, are the bytes of the channels |
| Peers.StaysAligned | src/session.rs:336-423 | two matching sessions of any depth, any interleaving, any cutting and joining of the bytes, any outcome of application reads and writes: the acts given to the machines of a side, with their layers, are a prefix of those the machines of the peer answered, and application bytes read are a prefix of those written |
| Peers.EstablishedAgree | src/session.rs:336-423 | when both are established each was given exactly what the other answered |
| Scripted.ScriptedIsLawful | src/session.rs:223-267 | the laws of a machine can be met |
| Scripted.MatchingExists | src/session.rs:223-267 | for dialogues of any depth and length, and any outcomes of writes, there are two matching peers |
| Scripted.StartExists | src/resource.rs:228-256 | for dialogues of any depth and length there are two transports to which alignment and deadlock freedom apply |
| Scripted.SpeakingTwiceDeadlocks | src/resource.rs:450-453 | a concrete reachable deadlock: an initiator with two acts before the first answer |
| Scripted.ResponderOpensNextLayer | src/resource.rs:450-453 | a layer completed by speaking unasked does not deadlock if the responder opens the next |
| Liveness.CanMove | src/resource.rs:416-453 | while either of two able transports is not active, something productive is enabled (a turn, a delivery, getting over a WouldBlock, asking to write), unless a side sleeps on its own turn |
| Liveness.NeverStuck | src/resource.rs:427-477 | initiator by with_session, responder by accept, no side to speak after it has spoken unasked: from every able joint state reached with whole acts both can still become active |
| Liveness.FairStep | src/resource.rs:427-453 | every fair event, write, flush, delivery or disturbance at either transport keeps both sides aligned and their ledgers in order, and takes a turn of the script exactly when its call does |
| Liveness.Settles | src/resource.rs:427-477 | from able states enabled happenings, at most as many as there is work left, bring both transports to active or one to sleep on its own turn |
| Liveness.WaitsForNothingAsksToWrite | src/resource.rs:450-453 | over every such run, in the handshake a lowest incomplete machine with nothing to read implies write interest |
| Liveness.SleepsOn | src/resource.rs:416-453 | a transport without write intent on its own turn is left exactly as it is by whatever is enabled at either side |
| Liveness.NeverFinishes | src/resource.rs:450-453 | if the initiator does not open, or a side is to speak after it has spoken unasked, no enabled run makes both transports active |
| Liveness.GetsStuck | src/resource.rs:450-453 | then, from able transports as constructed, enabled happenings lead to one that stays in its handshake unchanged for ever |
| Liveness.CompletesIffTakesTurns | src/resource.rs:427-477 | the handshake of able transports can be completed if and only if the initiator opens and no side is to speak after it has spoken unasked |
| Liveness.TransportsStayAligned | src/resource.rs:427-477 | over every run of both transports with whole acts: acts reach the machine of their own layer in order, and the Data events of either side are a prefix of the bytes the other accepted from its application |
| Resource.NetTransport.Accept | src/resource.rs:228-230 | starts in Handshake without write intent; all invariants hold, soundness if and only if the session is not established |
| Resource.NetTransport.WithSession | src/resource.rs:239-256 | starts Active or in Handshake as the session is, with write intent; all invariants hold |
| Resource.NetTransport.FlushBuffer | src/resource.rs:377-410 | the whole buffer is offered: what the connection takes is gone from its front and write intent is exactly for what remains; WouldBlock, OutOfMemory, WriteZero and Interrupted pass, every other error is reported and changes nothing |
| Resource.NetTransport.Flush | src/resource.rs:489-492 | offers the buffer, then flushes the connection, whose failure is reported first; keeps soundness, the outbound partition and the wake-up |
| Resource.NetTransport.HandleWritable | src/resource.rs:326-352 | silent in the handshake; when active moves exactly what the connection takes, passes the four retryable errors with write intent for what remains, and reports exactly every other one, which terminates it |
| Resource.NetTransport.HandleReadable | src/resource.rs:354-375 | no data before establishment; afterwards exactly the bytes taken are reported and nothing else changes |
| Resource.NetTransport.HandleIo | src/resource.rs:427-477 | a termination is reported exactly when it happens; an allowed event is legal and tells the state, keeps each partition exactly if its acts are whole, and keeps the wake-up |
| Resource.NetTransport.Conclude | src/resource.rs:447-476 | an established session ends the handshake and replaces the response; otherwise the response stands and a reset outside the handshake terminates |
| Resource.NetTransport.EmptyWriteBuf | src/resource.rs:498-505 | succeeds if and only if the next write takes the whole buffer, and tells whether there was one; otherwise WouldBlock after a short write, or the refusal; keeps the outbound partition |
| Resource.NetTransport.IntoSession | src/resource.rs:273-278 | hands out the session if and only if the next write takes the whole buffer, and then with every byte ever accepted passed to it in order; otherwise partition and wake-up are kept |
| Resource.NetTransport.WriteOrBuf | src/resource.rs:507-514 | accepts the bytes and offers them behind what was buffered; fails exactly if the connection refuses for good; keeps the outbound partition, and the wake-up unless that failure meets no write intent |
| Runs.TerminatedIffReported | src/resource.rs:443-476 | in every state, over every session: a termination is reported exactly when the state becomes Terminated |
| Runs.EstablishedDropsNothing | src/resource.rs:455-476 | a response replaced by Established was never data and never a read failing otherwise than with WouldBlock |
| Runs.AcceptEstablishedDropsData | src/resource.rs:228-230 | given an established session, accept makes the first data disappear behind Established |
| Runs.ConnectingStartsHandshake | src/resource.rs:431-449 | for every session and buffer: an event at a connecting transport does what it does in the handshake, with the write intent kept, and the transport is connecting no more |
| Runs.HandshakeIo | src/resource.rs:437-476 | an event in the handshake is one call on the session, and fails, establishes, or waits for a write after a read and for a read after a write |
| Runs.ActiveRead | src/resource.rs:354-375 | a read event when active is a read of the connection reported as data, reset, failure or nothing |
| Runs.ActiveWrite | src/resource.rs:332-351 | a write event when active moves a prefix of the buffer to the connection; retryable errors keep the intent, others terminate |
| Effects.FlushBufferOffers | src/resource.rs:377-410 | exactly how much of the buffer moves, which errors pass and which are reported, and the write intent, by the next answer of the connection |
| Effects.WriteOrBufOffers | src/resource.rs:507-514 | the same of the buffered and the new bytes; nothing for no bytes |
| Effects.FlushOffers | src/resource.rs:489-492 | the same for flush, which flushes the connection in any case and reports its failure first |
| Effects.WriteEventExactly | src/resource.rs:326-351 | a write event when active: what moves, which errors pass with write intent and which terminate |
| Effects.ReadEventExactly | src/resource.rs:354-375 | a read event when active, by what has arrived: nothing, data as much as fits, reset, or the failure |
| Effects.EmptyWriteBufExactly | src/resource.rs:498-505 | emptying succeeds if and only if the next write takes the whole buffer; the error otherwise |
| Effects.UnwrapsIffEmptied | src/resource.rs:273-278 | the session is handed out if and only if the next write takes the whole buffer |
| Runs.RunIsGrammatical | src/resource.rs:427-477 | over every run the events are at most one Established, then data, then at most one termination, they tell the state, the state only moves forward, and no allowed event fires a debug assertion |
| Traffic.InboundStep | src/resource.rs:354-375 | a step keeps the inbound partition if and only if it does not read a torn act |
| Traffic.OutboundStep | src/resource.rs:377-410 | a step keeps the outbound partition if and only if the act it sends is absorbed |
| Traffic.RunInbound | src/resource.rs:354-375 | over every run with whole acts the bytes taken are the handshake inputs in layer order, then the data reported |
| Traffic.RunOutbound | src/resource.rs:377-410 | over every run with absorbed acts the bytes sent are the acts in layer order, then what was accepted but for the buffer, which is the rest; nothing is buffered before Active |
| Traffic.Opening | src/resource.rs:228-256 | both constructors start in states from which these hold, accept if and only if its session is not established |
| Traffic.StepStaysAwake | src/resource.rs:507-514 | a step loses the wake-up of a buffering transport if and only if it is a write the connection refuses for good, without write intent before |
| Traffic.RunStaysAwake | src/resource.rs:416-425 | over every run without a fatally refused write, an active transport with buffered bytes has write interest |
| Traffic.BoundedDrain | src/resource.rs:399-408 | without new writes, over a connection that takes at least one byte, at most max(1, buffer length) write events are asked for |
| Traffic.UnwrapsOnlyWhenDrained | src/resource.rs:273-278 | the session is handed out only with every accepted byte passed on in order; otherwise the transport keeps the partition and its wake-up |
| Traffic.RunUnwraps | src/resource.rs:273-278 | the same at the end of every run from either constructor |
| Traffic.TornActVanishes | src/resource.rs:363-372 | a partly arrived act is taken, given to no machine and not reported |
| Traffic.RefusedActStillEstablishes | src/resource.rs:363-372 | a last act refused for whatever reason on a write event, or with WouldBlock on a read event, is never sent although Established is reported |
| Traffic.EstablishedHidesRefusals | src/resource.rs:326-331 | for an event of either kind that ends the handshake: the call of the session succeeded if and only if the last act was absorbed |
| Scripted.TornActExample | src/session.rs:349-351 | the first byte of an act that arrives alone is lost |
| Scripted.RefusedAnswerExample | src/resource.rs:363-372 | a responder whose answer is refused reports Established with nothing sent |
| Scripted.RefusedActExample | src/resource.rs:326-331 | an initiator whose act is refused, even for good, reports Established with nothing sent |
| Tunneling.Tunnel.constructor | src/tunnel.rs:79-85 | starts with empty buffers, zero counters and read interest only; everything is conserved |
| Tunneling.Tunnel.WriteLocal | src/tunnel.rs:138-147 | a pending buffer offered to the local stream: got stays delivered then pending, the counter counts, write interest is exactly for what remains; or the relay ends with the delivered lengths |
| Tunneling.Tunnel.ReadLocal | src/tunnel.rs:153-158 | bytes of the local stream are queued behind what is pending, with write interest; or the relay ends with the delivered lengths |
| Tunneling.Tunnel.WriteRemote | src/tunnel.rs:165-174 | the same as WriteLocal towards the session; what the log says crossed its socket has crossed it |
| Tunneling.Tunnel.ReadRemote | src/tunnel.rs:180-185 | the same as ReadLocal from the session; what the log says crossed its socket has crossed it |
| Tunneling.Tunnel.OnReport | src/tunnel.rs:120-187 | exactly what a report does: pending bytes are offered, counted and dropped as far as taken, arrived bytes are taken and pending for the other side, in this order; a hang-up, a failure and every socket answer end the relay as such; conservation and the account of both sockets are kept |
| Tunneling.Tunnel.TunnelOnce | src/tunnel.rs:111-188 | over every sequence of polls the relay ends only on a failing poll, a timeout or a report that ends it, with that result and the delivered lengths; got is delivered then pending, no empty buffer is offered, and the log is what crossed the sockets |
| Tunnels.ReportConserves | src/tunnel.rs:133-187 | one report keeps: got is put then pending, in both directions, and write interest exactly for a pending buffer; later reports of the batch stay backed |
| Tunnels.ReportExactly | src/tunnel.rs:120-187 | what a report does to the sockets, pending buffers, counters and interests, and the exact verdict of every ending |
| Tunnels.ReportRelays | src/tunnel.rs:153-158 | bytes that have arrived at a readable side are taken and pending for the other side, which asks to write |
| Tunnels.RelayForwards | src/tunnel.rs:111-188 | bytes that have arrived at one side are on the wire of the other after two polls, behind all that was pending, and counted |
| Tunnels.BatchInOrder | src/tunnel.rs:119-187 | every report of a batch is handled, in order, until one ends the relay |
| Tunnels.RelayEndsAs | src/tunnel.rs:113-118 | the relay ends only on a failing poll with its error, on an empty batch as timed out, or on a report that ends it |
| Tunnels.RelayConserves | src/tunnel.rs:111-188 | over all polls of a poller that reports a source once per batch: delivered is a prefix of got, Ok reports the delivered lengths, no empty buffer is ever written |
| Tunnels.RelayOnTheWire | src/tunnel.rs:138-185 | with an established session the bytes got and delivered are those that crossed both sockets |
| Tunnels.RelayNeedsEstablished | src/tunnel.rs:180-185 | a read of the remote side lets the relay go on if and only if the session is established and gives data; the account of its socket survives the read if and only if it is established or has nothing to take |
| Tunnels.WritingNeedsEstablished | src/tunnel.rs:165-174 | a write to the remote side lets the relay go on if and only if the session is established, its socket takes something and flushes; in the handshake it ends the relay with an error |
| Tunnels.TwiceInABatchEndsTheRelay | src/tunnel.rs:119-148 | a source reported twice in a batch makes the relay write nothing and take that for the end |
| Frames.Marshaller.Push | src/frame.rs:56-58 | the frame's bytes are appended to the write queue |
| Frames.Marshaller.Pop | src/frame.rs:60-69 | what the codec makes of the queue; a parsed frame is taken off, otherwise the queue is unchanged |
| Frames.Marshaller.Drain | src/frame.rs:77-83 | hands out the read queue exactly when nothing is left to send |
| Frames.Marshaller.Read | src/frame.rs:86-88 | takes a prefix of the front slice of the write queue |
| Frames.Marshaller.Write | src/frame.rs:90-91 | appends to the read queue |
| Frames.PopsNext | src/frame.rs:60-69 | a pop gives the next frame pushed if and only if all its bytes have arrived |
| Frames.RunInOrder | src/frame.rs:56-69 | under any interleaving of pushes, transfers and pops the frames popped are the first pushed, and the queues hold the encoding of the others |
| Frames.AllRecovered | src/frame.rs:60-69 | once all bytes have arrived, popping as often as there are frames left recovers them all |
| Frames.RoundTrip | src/frame.rs:56-91 | both, from empty marshallers |
| Frames.EmptyFrameIsMadeUp | src/frame.rs:25-33 | a frame encoded as nothing is popped from an empty queue without having been pushed |
| Frames.LengthPrefixedIsLawful | src/frame.rs:25-33 | the contract of frames can be met |
| Split.FailedSplitIsIntact | src/session.rs:437-447 | a failed split gives back the session unchanged at every level |
| Split.JoinsItsOwn | src/session.rs:456-465 | halves join if and only if the identifiers agree at every level, and then to the machines over the socket |
| Split.SplitThenJoin | src/split.rs:112-138 | splitting and joining gives the session back |
| Split.HalvesAreTheSocket | src/split.rs:58-101 | halves of any depth read and write the socket directly |
| Split.SplitBehavesAsSession | src/split.rs:58-76 | over every run of calls the halves of an established session answer as the session, and joined afterwards are the session after that run |
| Split.HalvesAgreeIffEstablished | src/session.rs:437-454 | the reading half answers as the session whatever arrives if and only if the session was established |
| Split.HalvesWriteIffEstablished | src/session.rs:437-454 | the writing half answers as the session whatever the socket takes if and only if the session was established |

## Left out

- Socks5, Noise and Eidolon themselves: they are not part of this repository; they appear as abstract machines with stated laws.
- `NetProtocol` is modelled on values, not as an object: layers are nested structures owned by value, so updating one in place is rebuilding it, and no aliasing is lost.
- Sessions are deterministic in their machines: ephemeral randomness of a machine is part of its answers.
- A base connection that loses its peer while a transport is live: the peer is constant in every run.
- `Liveness.NeverStuck` and `Peers.StaysAligned` are about runs with whole acts, the condition under which the code keeps its partitions; torn and refused acts are the subject of `TornActVanishes` and `RefusedActStillEstablishes`.
- The reactor and its poller: only their contract is used (events within interests; each source at most once per batch).
- `write_atomic` of the reactor is not part of this repository; it is taken to be `is_ready_to_write` followed by `write_or_buf`.
- Timeouts, socket options, logging, display, and the randomness of split identifiers (identifiers are parameters).
- The 64 KB read buffer of the transport, which is scratch space.
- `into_session` consumes the transport; the method of the class leaves it behind, with the session that is handed out.
- `connection.rs`, `listener.rs`, `NetAccept` and the constructors of `CypherSession`: wrappers over sockets and configuration.
- `Tunneling.Tunnel.TunnelOnce`: starts from the accepted stream; binding, accepting and setting options are not modelled.
- `Frames.Marshaller.Push`: marshalling into memory does not fail in the model; the code panics if it does.
