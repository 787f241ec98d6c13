/** Over every run of a transport: where every byte goes, in both directions, and why buffered bytes
    are never forgotten. */
module Traffic {
  import opened Io
  import opened Connection
  import opened Machines
  import opened Session
  import opened Stack
  import opened Discipline
  import opened Transports
  import opened Runs

  /** The payloads of the `Data` events. */
  function DataOf(events: seq<Event>): Bytes {
    DataOfFirst(events, |events|)
  }

  function DataOfFirst(events: seq<Event>, n: nat): Bytes
    requires n <= |events|
  {
    if n == 0 then [] else DataOfFirst(events, n - 1) + Reported(Some(events[n - 1]))
  }

  /** The payload of an answer to an event. */
  function Reported(event: Option<Event>): Bytes {
    match event
    case Some(Data(data)) => data
    case _ => []
  }

  lemma {:induction false} DataPush(events: seq<Event>, e: Event)
    ensures DataOf(events + [e]) == DataOf(events) + Reported(Some(e))
  {
    SameFirst(events, e, |events|);
  }

  lemma {:induction false} SameFirst(events: seq<Event>, e: Event, n: nat)
    requires n <= |events|
    ensures DataOfFirst(events + [e], n) == DataOfFirst(events, n)
    decreases n
  {
    if n == 0 {
    } else {
      SameFirst(events, e, n - 1);
    }
  }

  /** Everything taken from the connection is the handshake inputs in layer order, then the data reported. */
  ghost predicate Inbound(l: Ledger) {
    && ConnOf(l.tr.session).taken == Inputs(MachinesOf(l.tr.session)) + DataOf(l.events)
    && (l.tr.state == Handshake ==> DataOf(l.events) == [])
  }

  /** Everything on the wire is the handshake acts in layer order, then the bytes accepted from the
      application except those still in the buffer, which come next. */
  ghost predicate Outbound(l: Ledger) {
    var written := |l.accepted| - |l.tr.writeBuffer|;
    && written >= 0
    && ConnOf(l.tr.session).sent == Outputs(MachinesOf(l.tr.session)) + l.accepted[..written]
    && l.tr.writeBuffer == l.accepted[written..]
    && (l.tr.state == Handshake ==> l.accepted == [])
  }

  /** A handshake read of this step finds a whole act or nothing. */
  ghost predicate WholeRead(tr: Transport, cmd: Cmd) {
    cmd == OnIo(ReadReady) && tr.state == Handshake && ConnOf(tr.session).peer.Some?
    && StackArtifact(Below(tr.session), MachinesOf(tr.session)).None? ==>
      WholeIn(Need(Below(tr.session), MachinesOf(tr.session)), ConnOf(tr.session).rx)
  }

  /** The handshake act of this step, if any, is absorbed by the connection. */
  ghost predicate WholeWrite(tr: Transport, cmd: Cmd) {
    cmd.OnIo? && tr.state == Handshake && ConnOf(tr.session).peer.Some?
    && StackArtifact(Below(tr.session), MachinesOf(tr.session)).None? ==>
      Absorbs(ConnOf(tr.session).tx,
              |Act(Below(tr.session), MachinesOf(tr.session), ConnOf(tr.session), IoCall(cmd.io))|)
  }

  ghost predicate WholeReads(l: Ledger, cmds: seq<Cmd>)
    requires ValidRun(l, cmds)
    decreases |cmds|
  {
    cmds == [] || (WholeRead(l.tr, cmds[0]) && WholeReads(Step(l, cmds[0]), cmds[1..]))
  }

  ghost predicate WholeWrites(l: Ledger, cmds: seq<Cmd>)
    requires ValidRun(l, cmds)
    decreases |cmds|
  {
    cmds == [] || (WholeWrite(l.tr, cmds[0]) && WholeWrites(Step(l, cmds[0]), cmds[1..]))
  }

  /** An active transport that only moves bytes through its buffer keeps the partition. */
  lemma {:induction false} Rebalance(l: Ledger, l': Ledger, more: Bytes)
    requires Outbound(l) && l'.tr.state != Handshake
    requires l'.accepted == l.accepted + more
    requires Drained(l.tr.(writeBuffer := l.tr.writeBuffer + more), l'.tr)
    ensures Outbound(l')
  {
    var acts := Outputs(MachinesOf(l.tr.session));
    var sent, sent', buf' := ConnOf(l.tr.session).sent, ConnOf(l'.tr.session).sent, l'.tr.writeBuffer;
    assert sent + l.tr.writeBuffer == acts + l.accepted;
    assert sent' + buf' == (sent + l.tr.writeBuffer) + more == acts + l'.accepted;
    var written' := |l'.accepted| - |buf'|;
    assert sent' == (sent' + buf')[..|sent'|] == acts + l'.accepted[..written'];
    assert buf' == (sent' + buf')[|sent'|..] == l'.accepted[written'..];
  }

  /** `tr'` is `tr` after some of its buffer went to the connection. */
  ghost predicate Drained(tr: Transport, tr': Transport) {
    var c, c' := ConnOf(tr.session), ConnOf(tr'.session);
    && MachinesOf(tr'.session) == MachinesOf(tr.session)
    && c'.taken == c.taken
    && c'.sent + tr'.writeBuffer == c.sent + tr.writeBuffer
    && |tr'.writeBuffer| <= |tr.writeBuffer|
  }

  lemma {:induction false} OfferDrains(tr: Transport)
    requires DisciplinedTower(tr.session) && Established(tr.session)
    ensures Drained(tr, FlushBuffer(tr).0) && Drained(tr, EmptyWriteBuf(tr).0)
    ensures FlushBuffer(tr).0.state == tr.state == EmptyWriteBuf(tr).0.state
  {
    ActiveOffer(tr);
  }

  lemma {:induction false} WriteEventDrains(tr: Transport)
    requires Sound(tr) && tr.state == Active
    ensures Drained(tr, HandleIo(tr, WriteReady).0) && HandleIo(tr, WriteReady).0.state != Handshake
    ensures HandleIo(tr, WriteReady).1 == None || IsTermination(HandleIo(tr, WriteReady).1)
    ensures Drained(tr, Transports.Flush(tr).0)
  {
    ActiveWrite(tr);
  }

  /** On an active transport a step that is not a read only moves bytes from the application to the
      buffer and from the buffer to the connection. */
  lemma {:induction false} ActiveMoves(l: Ledger, cmd: Cmd)
    requires Sound(l.tr) && l.tr.state == Active && Allowed(l.tr, cmd) && cmd != OnIo(ReadReady)
    ensures Moved(l, Step(l, cmd), if cmd.WriteCmd? then cmd.buf else [])
  {
    match cmd
    case OnIo(io) => WriteEventMoves(l);
    case WriteCmd(buf) => WriteMoves(l, buf);
    case FlushCmd => FlushMoves(l);
    case UnwrapCmd => UnwrapMoves(l);
  }

  ghost predicate Moved(l: Ledger, l': Ledger, more: Bytes) {
    && l'.tr.state != Handshake
    && DataOf(l'.events) == DataOf(l.events)
    && l'.accepted == l.accepted + more
    && Drained(l.tr.(writeBuffer := l.tr.writeBuffer + more), l'.tr)
  }

  lemma {:induction false} DrainedMoves(l: Ledger, l': Ledger)
    requires l'.tr.state != Handshake && DataOf(l'.events) == DataOf(l.events) && l'.accepted == l.accepted
    requires Drained(l.tr, l'.tr)
    ensures Moved(l, l', [])
  {
    assert l.tr.writeBuffer + [] == l.tr.writeBuffer;
  }

  lemma {:induction false} WriteEventMoves(l: Ledger)
    requires Sound(l.tr) && l.tr.state == Active && Allowed(l.tr, OnIo(WriteReady))
    ensures Moved(l, Step(l, OnIo(WriteReady)), [])
  {
    WriteEventDrains(l.tr);
    var event := HandleIo(l.tr, WriteReady).1;
    if event.Some? { DataPush(l.events, event.value); }
    DrainedMoves(l, Step(l, OnIo(WriteReady)));
  }

  lemma {:induction false} WriteMoves(l: Ledger, buf: Bytes)
    requires Sound(l.tr) && l.tr.state == Active
    ensures Moved(l, Step(l, WriteCmd(buf)), buf)
  {
    if buf == [] {
      DrainedMoves(l, l);
    } else {
      OfferDrains(l.tr.(writeBuffer := l.tr.writeBuffer + buf));
    }
  }

  lemma {:induction false} FlushMoves(l: Ledger)
    requires Sound(l.tr) && l.tr.state == Active
    ensures Moved(l, Step(l, FlushCmd), [])
  {
    WriteEventDrains(l.tr);
    DrainedMoves(l, Step(l, FlushCmd));
  }

  lemma {:induction false} UnwrapMoves(l: Ledger)
    requires Sound(l.tr) && l.tr.state == Active && Allowed(l.tr, UnwrapCmd)
    ensures Moved(l, Step(l, UnwrapCmd), [])
  {
    OfferDrains(l.tr);
    DrainedMoves(l, Step(l, UnwrapCmd));
  }

  lemma {:induction false} ActiveReads(l: Ledger)
    requires Sound(l.tr) && l.tr.state == Active
    ensures var l' := Step(l, OnIo(ReadReady)); var c, c' := ConnOf(l.tr.session), ConnOf(l'.tr.session);
            && l'.tr.state != Handshake && l'.accepted == l.accepted && l'.tr.writeBuffer == l.tr.writeBuffer
            && c'.sent == c.sent && MachinesOf(l'.tr.session) == MachinesOf(l.tr.session)
            && exists data :: c'.taken == c.taken + data && DataOf(l'.events) == DataOf(l.events) + data
  {
    ActiveRead(l.tr);
    var (c', got) := ConnOf(l.tr.session).Read(READ_BUFFER_SIZE);
    var event := HandleIo(l.tr, ReadReady).1;
    if event.Some? { DataPush(l.events, event.value); }
    var data := if got.Ok? then got.value else [];
    assert c'.taken == ConnOf(l.tr.session).taken + data;
    assert DataOf(Step(l, OnIo(ReadReady)).events) == DataOf(l.events) + data;
  }

  /** The stack under a transport in its handshake, and what an I/O event makes of it. */
  lemma {:induction false} HandshakeMoves(l: Ledger, io: Ready)
    requires Sound(l.tr) && l.tr.state == Handshake && Allowed(l.tr, OnIo(io))
    ensures var l' := Step(l, OnIo(io)); var s, s' := l.tr.session, l'.tr.session;
            && StackArtifact(Below(s), MachinesOf(s)).None? && Disciplined(Below(s), MachinesOf(s))
            && HandshakeCall(IoCall(io))
            && StackDo(Below(s), MachinesOf(s), ConnOf(s), IoCall(io)).0 == MachinesOf(s')
            && StackDo(Below(s), MachinesOf(s), ConnOf(s), IoCall(io)).1 == ConnOf(s')
            && l'.tr.writeBuffer == [] && l'.accepted == l.accepted && DataOf(l'.events) == DataOf(l.events)
  {
    HandshakeIo(l.tr, io);
    ArtifactRefines(l.tr.session);
    CallRefines(l.tr.session, IoCall(io));
    var event := HandleIo(l.tr, io).1;
    if event.Some? { DataPush(l.events, event.value); }
  }

  lemma {:induction false} ActiveInbound(l: Ledger, cmd: Cmd)
    requires Sound(l.tr) && l.tr.state == Active && Allowed(l.tr, cmd) && Inbound(l)
    ensures Inbound(Step(l, cmd))
  {
    if cmd == OnIo(ReadReady) { ActiveReads(l); } else { ActiveMoves(l, cmd); }
  }

  lemma {:induction false} ActiveOutbound(l: Ledger, cmd: Cmd)
    requires Sound(l.tr) && l.tr.state == Active && Allowed(l.tr, cmd) && Outbound(l)
    ensures Outbound(Step(l, cmd))
  {
    if cmd == OnIo(ReadReady) {
      ActiveReads(l);
    } else {
      ActiveMoves(l, cmd);
      Rebalance(l, Step(l, cmd), if cmd.WriteCmd? then cmd.buf else []);
    }
  }

  /** One step keeps the inbound partition if and only if it does not read a torn act. */
  lemma {:induction false} InboundStep(l: Ledger, cmd: Cmd)
    requires Sound(l.tr) && Allowed(l.tr, cmd) && Inbound(l)
    ensures Inbound(Step(l, cmd)) <==> WholeRead(l.tr, cmd)
  {
    if l.tr.state == Active {
      ActiveInbound(l, cmd);
    } else if cmd.OnIo? {
      HandshakeMoves(l, cmd.io);
      InboundExact(Below(l.tr.session), MachinesOf(l.tr.session), ConnOf(l.tr.session), IoCall(cmd.io));
    }
  }

  /** One step keeps the outbound partition if and only if the act it sends, if any, is absorbed. */
  lemma {:induction false} OutboundStep(l: Ledger, cmd: Cmd)
    requires Sound(l.tr) && Allowed(l.tr, cmd) && Outbound(l)
    ensures Outbound(Step(l, cmd)) <==> WholeWrite(l.tr, cmd)
  {
    if l.tr.state == Active {
      ActiveOutbound(l, cmd);
    } else if cmd.OnIo? {
      HandshakeMoves(l, cmd.io);
      OutboundExact(Below(l.tr.session), MachinesOf(l.tr.session), ConnOf(l.tr.session), IoCall(cmd.io));
    }
  }

  /** Inbound partition over whole runs: nothing is lost, repeated or reordered between the
      connection, the machines and the application, as long as no act is torn. */
  lemma {:induction false} RunInbound(l: Ledger, cmds: seq<Cmd>)
    requires Sound(l.tr) && ValidRun(l, cmds) && Inbound(l) && WholeReads(l, cmds)
    ensures Inbound(Run(l, cmds))
    decreases |cmds|
  {
    if cmds == [] {
    } else {
      StepKeepsSound(l, cmds[0]);
      InboundStep(l, cmds[0]);
      RunInbound(Step(l, cmds[0]), cmds[1..]);
    }
  }

  /** Outbound partition over whole runs, across partial writes, retryable and fatal errors. */
  lemma {:induction false} RunOutbound(l: Ledger, cmds: seq<Cmd>)
    requires Sound(l.tr) && ValidRun(l, cmds) && Outbound(l) && WholeWrites(l, cmds)
    ensures Outbound(Run(l, cmds))
    decreases |cmds|
  {
    if cmds == [] {
    } else {
      StepKeepsSound(l, cmds[0]);
      OutboundStep(l, cmds[0]);
      RunOutbound(Step(l, cmds[0]), cmds[1..]);
    }
  }

  /** A session none of whose machines was used, over a connection nothing has crossed. */
  ghost predicate Fresh(t: Tower) {
    && ConnOf(t).peer.Some? && ConnOf(t).taken == [] && ConnOf(t).sent == []
    && forall j :: 0 <= j < |MachinesOf(t)| ==> Untouched(MachinesOf(t)[j])
  }

  /** Both constructors start in a state from which all of the above holds; `accept` provided that
      its session is not established yet. */
  lemma {:induction false} Opening(session: Tower)
    requires Fresh(session)
    ensures var l := Ledger(WithSession(session), [], []); Sound(l.tr) && Inbound(l) && Outbound(l)
    ensures var l := Ledger(Accept(session), [], []);
            (Sound(l.tr) <==> !Established(session)) && Inbound(l) && Outbound(l)
  {
    FreshIsDisciplined(Below(session), MachinesOf(session));
    OpensSilently(WithSession(session));
    OpensSilently(Accept(session));
  }

  lemma {:induction false} OpensSilently(tr: Transport)
    requires Fresh(tr.session) && tr.writeBuffer == []
    ensures Inbound(Ledger(tr, [], [])) && Outbound(Ledger(tr, [], []))
  {
    UntouchedIsSilent(MachinesOf(tr.session));
  }

  // ---------- Wake-ups ----------

  /** An active transport with buffered bytes asks to be woken for writing. */
  predicate Awake(tr: Transport) {
    tr.state == Active && tr.writeBuffer != [] ==> Interests(tr).write
  }

  /** The one step that can put a transport to sleep: a write that the connection refuses for good. */
  predicate FatalWrite(tr: Transport, cmd: Cmd) {
    var tx := ConnOf(tr.session).tx;
    && cmd.WriteCmd? && tr.state == Active && cmd.buf != []
    && tx != [] && tx[0].TxErr? && !Retryable(tx[0].kind)
  }

  /** A step keeps a transport awake, except exactly a fatally refused write with no write interest before. */
  lemma {:induction false} StepStaysAwake(l: Ledger, cmd: Cmd)
    requires Sound(l.tr) && Allowed(l.tr, cmd) && Awake(l.tr)
    ensures Awake(Step(l, cmd).tr) <==> !(FatalWrite(l.tr, cmd) && !l.tr.writeIntent)
  {
    var tr := l.tr;
    if tr.state == Active {
      match cmd
      case OnIo(io) => ActiveRead(tr); ActiveWrite(tr);
      case WriteCmd(buf) => ActiveOffer(tr.(writeBuffer := tr.writeBuffer + buf));
      case FlushCmd => ActiveWrite(tr);
      case UnwrapCmd => ActiveOffer(tr);
    } else if cmd.OnIo? {
      HandshakeIo(tr, cmd.io);
    }
  }

  predicate NoFatalWrite(l: Ledger, cmds: seq<Cmd>)
    requires ValidRun(l, cmds)
    decreases |cmds|
  {
    cmds == [] || (!FatalWrite(l.tr, cmds[0]) && NoFatalWrite(Step(l, cmds[0]), cmds[1..]))
  }

  /** No lost wake-up over any run without a fatally refused write. */
  lemma {:induction false} RunStaysAwake(l: Ledger, cmds: seq<Cmd>)
    requires Sound(l.tr) && ValidRun(l, cmds) && Awake(l.tr) && NoFatalWrite(l, cmds)
    ensures Awake(Run(l, cmds).tr)
    decreases |cmds|
  {
    if cmds == [] {
    } else {
      StepKeepsSound(l, cmds[0]);
      StepStaysAwake(l, cmds[0]);
      RunStaysAwake(Step(l, cmds[0]), cmds[1..]);
    }
  }

  /** All that a step keeps: soundness always, either partition exactly if its acts are whole, and the
      wake-up exactly unless a write is refused for good. */
  ghost predicate StepKeeps(l: Ledger, cmd: Cmd, l': Ledger) {
    && Sound(l'.tr)
    && (Inbound(l) ==> (Inbound(l') <==> WholeRead(l.tr, cmd)))
    && (Outbound(l) ==> (Outbound(l') <==> WholeWrite(l.tr, cmd)))
    && (Awake(l.tr) ==> (Awake(l'.tr) <==> !(FatalWrite(l.tr, cmd) && !l.tr.writeIntent)))
  }

  lemma {:induction false} EveryStepKeeps(l: Ledger, cmd: Cmd)
    requires Sound(l.tr) && Allowed(l.tr, cmd)
    ensures StepKeeps(l, cmd, Step(l, cmd))
  {
    StepKeepsSound(l, cmd);
    if Inbound(l) { InboundStep(l, cmd); }
    if Outbound(l) { OutboundStep(l, cmd); }
    if Awake(l.tr) { StepStaysAwake(l, cmd); }
  }

  // ---------- Draining ----------

  /** A connection that takes at least one byte of whatever it is offered and always flushes. */
  predicate Generous(c: Conn) {
    && (forall i :: 0 <= i < |c.tx| ==> c.tx[i].Take? && c.tx[i].limit > 0)
    && (forall i :: 0 <= i < |c.flushes| ==> c.flushes[i].Ok?)
  }

  function WriteEvents(cmds: seq<Cmd>): nat {
    if cmds == [] then 0 else (if cmds[0] == OnIo(WriteReady) then 1 else 0) + WriteEvents(cmds[1..])
  }

  /** How many write events an active transport may still ask for. */
  function Pending(tr: Transport): nat {
    if tr.state != Active || !tr.writeIntent then 0
    else if tr.writeBuffer == [] then 1
    else |tr.writeBuffer|
  }

  lemma {:induction false} WriteEventProgress(tr: Transport)
    requires Sound(tr) && tr.state == Active && tr.writeIntent && Generous(ConnOf(tr.session))
    ensures var tr' := HandleIo(tr, WriteReady).0;
            Generous(ConnOf(tr'.session)) && tr'.state == Active && Pending(tr') < Pending(tr)
  {
    ActiveOffer(tr);
    var (c1, put) := ConnOf(tr.session).Write(tr.writeBuffer);
    assert put.Ok? && (tr.writeBuffer != [] ==> put.value > 0);
    FlushKeepsSound(WithConn(tr.session, c1));
    ActiveWrite(tr);
  }

  /** Bounded drain: in any run of I/O events without new writes over a generous connection, an
      active transport asks for at most max(1, buffer length) write events. */
  lemma {:induction false} BoundedDrain(l: Ledger, cmds: seq<Cmd>)
    requires Sound(l.tr) && l.tr.state != Handshake && ValidRun(l, cmds) && Generous(ConnOf(l.tr.session))
    requires forall i :: 0 <= i < |cmds| ==> cmds[i].OnIo?
    ensures WriteEvents(cmds) + Pending(Run(l, cmds).tr) <= Pending(l.tr)
    decreases |cmds|
  {
    if cmds == [] {
    } else {
      StepKeepsSound(l, cmds[0]);
      if cmds[0].io.ReadReady? { ActiveRead(l.tr); } else { WriteEventProgress(l.tr); }
      BoundedDrain(Step(l, cmds[0]), cmds[1..]);
    }
  }

  // ---------- Unwrapping ----------

  /** `into_session` hands out the session only with every accepted byte passed to it in order;
      otherwise the transport it gives back still owes exactly what is in its buffer. */
  lemma {:induction false} UnwrapsOnlyWhenDrained(l: Ledger)
    requires Sound(l.tr) && l.tr.state == Active && Outbound(l)
    ensures match IntoSession(l.tr)
            case Unwrapped(s) => ConnOf(s).sent == Outputs(MachinesOf(s)) + l.accepted
                && MachinesOf(s) == MachinesOf(l.tr.session)
            case Kept(tr', _) => Sound(tr') && Outbound(l.(tr := tr')) && (Awake(l.tr) ==> Awake(tr'))
  {
    ActiveOffer(l.tr);
    OfferDrains(l.tr);
    var tr' := EmptyWriteBuf(l.tr).0;
    DrainedMoves(l, l.(tr := tr'));
    Rebalance(l, l.(tr := tr'), []);
  }

  /** The same at the end of any run with whole acts, from either constructor. */
  lemma {:induction false} RunUnwraps(session: Tower, tr: Transport, cmds: seq<Cmd>)
    requires Fresh(session) && (tr == WithSession(session) || (tr == Accept(session) && !Established(session)))
    requires var l := Ledger(tr, [], []); ValidRun(l, cmds) && WholeWrites(l, cmds) && Run(l, cmds).tr.state == Active
    ensures var l' := Run(Ledger(tr, [], []), cmds); IntoSession(l'.tr).Unwrapped? ==>
              ConnOf(IntoSession(l'.tr).session).sent == Outputs(MachinesOf(l'.tr.session)) + l'.accepted
  {
    var l := Ledger(tr, [], []);
    Opening(session);
    RunOutbound(l, cmds);
    RunIsGrammatical(tr.state, l, cmds);
    UnwrapsOnlyWhenDrained(Run(l, cmds));
  }

  // ---------- What happens without whole acts ----------

  ghost predicate HonestKind(kind: Kind) {
    CompletesByAdvancing(kind) && FailsOpen(kind) && Vocal(kind)
  }

  ghost predicate HonestMachines(ms: seq<Machine>) {
    forall i :: 0 <= i < |ms| ==> HonestKind(ms[i].kind)
  }

  lemma {:induction false} MachineCompletes(m: Machine, below: Artifact, c: Conn, call: Call)
    requires HonestKind(m.kind) && HandshakeCall(call) && !m.IsComplete()
    requires m.past.inputs != [] ==> m.IsInit()
    requires MachineDo(m, below, c, call).0.IsComplete()
    ensures Outcome(MachineDo(m, below, c, call).2).Ok? <==> Absorbs(c.tx, |Act(below, [m], c, call)|)
  {
    var m1, act := m.Start(below), Act(below, [m], c, call);
    assert !m1.IsComplete();
    if call.ReadCall? {
      ReadExactTakes(c, m1.NextReadLen());
      WriteAllPuts(c.ReadExact(m1.NextReadLen()).0, act);
    } else {
      WriteAllPuts(c, act);
    }
  }

  lemma {:induction false} StackCompletes(below: Artifact, ms: seq<Machine>, c: Conn, call: Call)
    requires HonestMachines(ms) && HandshakeCall(call) && Disciplined(below, ms)
    requires StackArtifact(below, ms).None? && StackArtifact(below, StackDo(below, ms, c, call).0).Some?
    ensures Outcome(StackDo(below, ms, c, call).2).Ok? <==> Absorbs(c.tx, |Act(below, ms, c, call)|)
    decreases |ms|
  {
    var ms' := StackDo(below, ms, c, call).0;
    if ms[0].IsComplete() {
      var below' := Protocol(below, ms[0].Artifact().value);
      assert ms'[1..] == StackDo(below', ms[1..], c, call).0;
      StackCompletes(below', ms[1..], c, call);
    } else {
      assert ms'[0].IsComplete();
      MachineCompletes(ms[0], below, c, call);
      assert Act(below, ms, c, call) == Act(below, [ms[0]], c, call);
    }
  }

  /** When an event of either kind ends the handshake, `Established` hides a failure of the session's
      call if and only if the connection does not absorb the last act. */
  lemma {:induction false} EstablishedHidesRefusals(tr: Transport, io: Ready)
    requires Sound(tr) && tr.state == Handshake && HonestMachines(MachinesOf(tr.session))
    requires HandleIo(tr, io).1.Some? && HandleIo(tr, io).1.value.EstablishedWith?
    ensures Outcome(TowerDo(tr.session, IoCall(io)).1).Ok? <==> WholeWrite(tr, OnIo(io))
  {
    HandshakeIo(tr, io);
    ArtifactRefines(tr.session);
    CallRefines(tr.session, IoCall(io));
    CallCrosses(tr.session, IoCall(io));
    ArtifactRefines(TowerDo(tr.session, IoCall(io)).0);
    StackCompletes(Below(tr.session), MachinesOf(tr.session), ConnOf(tr.session), IoCall(io));
  }

  /** A torn act disappears without a trace: its first part is taken from the connection, no machine
      hears it, no failure is reported and (unless being initialised completes the machine, which no
      honest one does) the handshake goes on waiting for the whole act. */
  lemma {:induction false} TornActVanishes(tr: Transport, part: Bytes)
    requires Sound(tr) && tr.state == Handshake && ConnOf(tr.session).rx == [Chunk(part)]
    requires StackArtifact(Below(tr.session), MachinesOf(tr.session)).None?
    requires 0 < |part| < Need(Below(tr.session), MachinesOf(tr.session))
    ensures var (tr', event) := HandleIo(tr, ReadReady); var c := ConnOf(tr'.session);
            && (if Established(tr'.session) then tr'.state == Active else event == None && tr'.state == Handshake)
            && (HonestMachines(MachinesOf(tr.session)) ==> event == None && tr'.state == Handshake)
            && c.rx == [] && c.taken == ConnOf(tr.session).taken + part
            && Inputs(MachinesOf(tr'.session)) == Inputs(MachinesOf(tr.session))
  {
    var below, ms, c := Below(tr.session), MachinesOf(tr.session), ConnOf(tr.session);
    HandshakeIo(tr, ReadReady);
    CallRefines(tr.session, IoCall(ReadReady));
    CallCrosses(tr.session, IoCall(ReadReady));
    ArtifactRefines(TowerDo(tr.session, IoCall(ReadReady)).0);
    StackTraffic(below, ms, c, IoCall(ReadReady));
    TornRead(below, ms, c, part);
    assert Available(c.rx) == part + Available(c.rx[1..]) == part;
  }

  lemma {:induction false} TornRead(below: Artifact, ms: seq<Machine>, c: Conn, part: Bytes)
    requires StackArtifact(below, ms).None? && c.rx == [Chunk(part)] && 0 < |part| < Need(below, ms)
    requires Disciplined(below, ms)
    ensures var (ms', c', r) := StackDo(below, ms, c, ReadCall(READ_BUFFER_SIZE));
            r == Got(Err(WouldBlock)) && c'.rx == [] && (HonestMachines(ms) ==> StackArtifact(below, ms').None?)
    decreases |ms|
  {
    if ms[0].IsComplete() {
      var below' := Protocol(below, ms[0].Artifact().value);
      TornRead(below', ms[1..], c, part);
      assert StackDo(below, ms, c, ReadCall(READ_BUFFER_SIZE)).0[1..]
          == StackDo(below', ms[1..], c, ReadCall(READ_BUFFER_SIZE)).0;
    } else {
      var c1 := c.Read(Need(below, ms)).0;
      assert c1.rx == [];
      assert c1.ReadExact(Need(below, ms) - |part|) == (c1, Err(WouldBlock));
      assert HonestMachines(ms) ==> HonestKind(ms[0].kind) && !ms[0].Start(below).IsComplete();
    }
  }

  /** A refused handshake act is not retried: if its machine was the last one, the transport reports
      an established session although the peer never got the act. On a write event any refusal is
      dropped, fatal ones included; on a read event `WouldBlock` is. */
  lemma {:induction false} RefusedActStillEstablishes(tr: Transport, io: Ready, refusal: ErrorKind)
    requires Sound(tr) && tr.state == Handshake && Established(TowerDo(tr.session, IoCall(io)).0)
    requires StackArtifact(Below(tr.session), MachinesOf(tr.session)).None?
    requires Act(Below(tr.session), MachinesOf(tr.session), ConnOf(tr.session), IoCall(io)) != []
    requires ConnOf(tr.session).tx != [] && ConnOf(tr.session).tx[0] == TxErr(refusal)
    requires refusal != Interrupted && (io.ReadReady? ==> refusal == WouldBlock)
    ensures var (tr', event) := HandleIo(tr, io);
            && event.Some? && event.value.EstablishedWith? && tr'.state == Active
            && ConnOf(tr'.session).sent == ConnOf(tr.session).sent
            && |Outputs(MachinesOf(tr'.session))| > |Outputs(MachinesOf(tr.session))|
  {
    var below, ms, c := Below(tr.session), MachinesOf(tr.session), ConnOf(tr.session);
    HandshakeIo(tr, io);
    CallRefines(tr.session, IoCall(io));
    StackTraffic(below, ms, c, IoCall(io));
    RefusedAct(below, ms, c, IoCall(io), refusal);
  }

  lemma {:induction false} RefusedAct(below: Artifact, ms: seq<Machine>, c: Conn, call: Call, refusal: ErrorKind)
    requires StackArtifact(below, ms).None? && c.tx != [] && c.tx[0] == TxErr(refusal) && refusal != Interrupted
    requires HandshakeCall(call) && Act(below, ms, c, call) != []
    ensures var (ms', c', r) := StackDo(below, ms, c, call); Outcome(r) == Err(refusal) && c'.sent == c.sent
    decreases |ms|
  {
    if ms[0].IsComplete() {
      RefusedAct(Protocol(below, ms[0].Artifact().value), ms[1..], c, call, refusal);
    } else if call.ReadCall? {
      ReadExactTakes(c, Need(below, ms));
    }
  }
}
