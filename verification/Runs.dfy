/** What holds over every run of a transport: its events, its state, the bytes in both directions
    and its wake-ups. Transport (`Transports`) and layered session (`Discipline`) are composed here. */
module Runs {
  import opened Io
  import opened Session
  import opened Stack
  import opened Discipline
  import opened Transports

  // ---------- Single I/O events ----------

  predicate IsTermination(event: Option<Event>) {
    event.Some? && event.value.TerminatedBy?
  }

  /** A termination is reported exactly when the transport terminates, whatever its state,
      its session and the connection. */
  lemma {:induction false} TerminatedIffReported(tr: Transport, io: Ready)
    requires tr.state != Terminated
    ensures var (tr', event) := HandleIo(tr, io); IsTermination(event) <==> tr'.state == Terminated
  {
    var tr0 := if tr.state == Init then tr.(state := Handshake) else tr;
    if io.ReadReady? { ReadReports(tr0); } else { WriteReports(tr0); }
  }

  /** A read reports every termination, and the end of the stream before it is one. */
  lemma {:induction false} ReadReports(tr: Transport)
    requires tr.state != Terminated
    ensures var (tr', resp) := HandleReadable(tr);
            && (tr'.state == tr.state || tr'.state == Terminated)
            && (tr'.state == Terminated ==> IsTermination(resp))
            && (IsTermination(resp) && tr'.state != Terminated ==>
                resp == Some(TerminatedBy(ConnectionReset)) && Established(tr'.session))
  {
  }

  lemma {:induction false} WriteReports(tr: Transport)
    requires tr.state != Terminated
    ensures var (tr', resp) := HandleWritable(tr);
            && (tr'.state == tr.state || tr'.state == Terminated)
            && (resp.Some? <==> tr'.state == Terminated) && (resp.Some? ==> IsTermination(resp))
  {
  }

  /** When `handle_io` replaces its response by `Established`, what it drops is never data and never
      a read that failed otherwise than with `WouldBlock`. (`Traffic.EstablishedHidesRefusals` says
      exactly when it hides a failure.) */
  lemma {:induction false} EstablishedDropsNothing(tr: Transport, io: Ready)
    requires ConnOf(tr.session).peer.Some?
    requires tr.state == Handshake && !Established(tr.session)
    requires HandleIo(tr, io).1.Some? && HandleIo(tr, io).1.value.EstablishedWith?
    ensures io.ReadReady? ==> var got := Read(tr.session, READ_BUFFER_SIZE).1; got == Ok([]) || got == Err(WouldBlock)
    ensures io.WriteReady? ==> HandleWritable(tr).1 == None
    ensures HandleIo(tr, io).0.state == Active && Established(HandleIo(tr, io).0.session)
    ensures HandleIo(tr, io).1.value.artifact == ArtifactOf(HandleIo(tr, io).0.session).value
  {
    CallDiscipline(tr.session, ReadCall(READ_BUFFER_SIZE));
  }

  /** The same replacement does drop data as soon as `accept` is given a session that is already
      established: whatever the first read gets is taken from the connection and never reported. */
  lemma {:induction false} AcceptEstablishedDropsData(session: Tower, data: Bytes)
    requires Established(session) && data != []
    requires Read(session, READ_BUFFER_SIZE).1 == Ok(data)
    ensures var (tr', event) := HandleIo(Accept(session), ReadReady);
            && event == Some(EstablishedWith(ArtifactOf(session).value))
            && ConnOf(tr'.session).taken == ConnOf(session).taken + data
  {
    ArtifactIgnoresTraffic(session, ConnOf(session).Read(READ_BUFFER_SIZE).0);
  }

  // ---------- Runs ----------

  /** What a reactor and its handler do to a transport. `Write` is `write_atomic`: `write_or_buf`
      behind `is_ready_to_write`. `Unwrap` is an `into_session` that fails and gives the transport back. */
  datatype Cmd = OnIo(io: Ready) | WriteCmd(buf: Bytes) | FlushCmd | UnwrapCmd

  /** A transport with the application bytes it has accepted and the events it has returned. */
  datatype Ledger = Ledger(tr: Transport, accepted: Bytes, events: seq<Event>)

  predicate Allowed(tr: Transport, cmd: Cmd) {
    match cmd
    case OnIo(ReadReady) => Interests(tr).read
    case OnIo(WriteReady) => Interests(tr).write
    case WriteCmd(_) => true
    case FlushCmd => tr.state == Active
    case UnwrapCmd => tr.state == Active && IntoSession(tr).Kept?
  }

  function Step(l: Ledger, cmd: Cmd): Ledger
    requires Allowed(l.tr, cmd)
  {
    match cmd
    case OnIo(io) =>
      var (tr', event) := HandleIo(l.tr, io);
      l.(tr := tr', events := if event.Some? then l.events + [event.value] else l.events)
    case WriteCmd(buf) =>
      if l.tr.state != Active then l
      else l.(tr := WriteOrBuf(l.tr, buf).0, accepted := l.accepted + buf)
    case FlushCmd => l.(tr := Transports.Flush(l.tr).0)
    case UnwrapCmd => l.(tr := IntoSession(l.tr).transport)
  }

  predicate ValidRun(l: Ledger, cmds: seq<Cmd>)
    decreases |cmds|
  {
    cmds == [] || (Allowed(l.tr, cmds[0]) && ValidRun(Step(l, cmds[0]), cmds[1..]))
  }

  function Run(l: Ledger, cmds: seq<Cmd>): Ledger
    requires ValidRun(l, cmds)
    decreases |cmds|
  {
    if cmds == [] then l else Run(Step(l, cmds[0]), cmds[1..])
  }

  // ---------- Events and states ----------

  /** Legal event sequences from a state: from `Handshake` one `Established` first, then data, then
      at most one termination, which is last. */
  predicate Grammatical(from: State, events: seq<Event>)
    decreases |events|
  {
    if events == [] then true
    else match events[0]
      case EstablishedWith(_) => from == Handshake && Grammatical(Active, events[1..])
      case Data(_) => from == Active && Grammatical(Active, events[1..])
      case TerminatedBy(_) => from in {Handshake, Active} && events[1..] == []
  }

  /** The state a legal event sequence leads to. */
  function EndState(from: State, events: seq<Event>): State
    decreases |events|
  {
    if events == [] then from
    else match events[0]
      case TerminatedBy(_) => Terminated
      case _ => EndState(Active, events[1..])
  }

  lemma {:induction false} GrammarExtends(from: State, events: seq<Event>, e: Event)
    requires Grammatical(from, events) && Grammatical(EndState(from, events), [e])
    ensures Grammatical(from, events + [e])
    ensures EndState(from, events + [e]) == EndState(EndState(from, events), [e])
    decreases |events|
  {
    if events == [] {
      assert events + [e] == [e];
    } else {
      assert (events + [e])[1..] == events[1..] + [e];
      if !events[0].TerminatedBy? { GrammarExtends(Active, events[1..], e); }
    }
  }

  /** The states in which neither debug assertion of `handle_io` can fire and in which the write
      buffer is only used once the session is established. */
  ghost predicate Sound(tr: Transport) {
    DisciplinedTower(tr.session) && Steady(tr)
  }

  predicate Steady(tr: Transport) {
    && tr.state != Init
    && (tr.state == Handshake ==> !Established(tr.session) && tr.writeBuffer == [])
    && (tr.state == Active ==> Established(tr.session))
  }

  lemma {:induction false} CallKeepsSound(t: Tower, call: Call)
    requires DisciplinedTower(t)
    ensures DisciplinedTower(TowerDo(t, call).0)
    ensures Established(t) ==> Established(TowerDo(t, call).0) && MachinesOf(TowerDo(t, call).0) == MachinesOf(t)
  {
    RunKeepsDiscipline(t, [call]);
    assert After(t, [call]) == TowerDo(t, call).0;
  }

  lemma {:induction false} FlushKeepsSound(t: Tower)
    ensures var t' := Session.Flush(t).0; var c, c' := ConnOf(t), ConnOf(t');
            && MachinesOf(t') == MachinesOf(t) && ArtifactOf(t') == ArtifactOf(t)
            && c' == c.(flushes := c'.flushes)
            && (DisciplinedTower(t) ==> DisciplinedTower(t'))
  {
    ArtifactIgnoresTraffic(t, ConnOf(t).Flush().0);
    MachinesIgnoreConn(t, ConnOf(t).Flush().0);
  }

  function IoCall(io: Ready): Call {
    if io.ReadReady? then ReadCall(READ_BUFFER_SIZE) else WriteCall([])
  }

  /** An I/O event during the handshake is one call on the session; it ends the handshake, fails,
      or waits for a write after a read and for a read after a write. */
  lemma {:induction false} HandshakeIo(tr: Transport, io: Ready)
    requires Sound(tr) && tr.state == Handshake
    ensures var (s', r) := TowerDo(tr.session, IoCall(io)); var (tr', event) := HandleIo(tr, io);
            && DisciplinedTower(s')
            && if r.Got? && r.got.Err? && r.got.error != WouldBlock then
                 tr' == Transport(Terminated, s', tr.writeIntent, []) && event == Some(TerminatedBy(r.got.error))
               else if Established(s') then
                 tr' == Transport(Active, s', true, []) && event == Some(EstablishedWith(ArtifactOf(s').value))
               else
                 tr' == Transport(Handshake, s', io.ReadReady?, []) && event == None
  {
    CallKeepsSound(tr.session, IoCall(io));
    CallDiscipline(tr.session, IoCall(io));
  }

  /** A read event on an active transport is a read of the connection. */
  lemma {:induction false} ActiveRead(tr: Transport)
    requires Sound(tr) && tr.state == Active
    ensures var (c', got) := ConnOf(tr.session).Read(READ_BUFFER_SIZE); var (tr', event) := HandleIo(tr, ReadReady);
            var s' := WithConn(tr.session, c');
            && MachinesOf(s') == MachinesOf(tr.session)
            && ArtifactOf(s') == ArtifactOf(tr.session) && DisciplinedTower(s')
            && tr' == tr.(session := s', state := if IsTermination(event) then Terminated else Active)
            && event == match got
                        case Ok(data) => Some(if data == [] then TerminatedBy(ConnectionReset) else Data(data))
                        case Err(e) => if e == WouldBlock then None else Some(TerminatedBy(e))
  {
    CallKeepsSound(tr.session, ReadCall(READ_BUFFER_SIZE));
    ArtifactIgnoresTraffic(tr.session, ConnOf(tr.session).Read(READ_BUFFER_SIZE).0);
  }

  /** Offering the buffer of an active transport is a write of the connection. */
  lemma {:induction false} ActiveOffer(tr: Transport)
    requires DisciplinedTower(tr.session) && Established(tr.session)
    ensures var (c', put) := ConnOf(tr.session).Write(tr.writeBuffer); var s' := WithConn(tr.session, c');
            && Write(tr.session, tr.writeBuffer) == (s', put)
            && MachinesOf(s') == MachinesOf(tr.session) && Established(s') && DisciplinedTower(s')
  {
    CallKeepsSound(tr.session, WriteCall(tr.writeBuffer));
  }

  /** A write event on an active transport is `flush`, with its fatal errors ending the transport. */
  lemma {:induction false} ActiveWrite(tr: Transport)
    requires Sound(tr) && tr.state == Active
    ensures var (tr1, res) := Transports.Flush(tr); var (tr', event) := HandleIo(tr, WriteReady);
            && MachinesOf(tr1.session) == MachinesOf(tr.session)
            && Established(tr1.session) && DisciplinedTower(tr1.session)
            && ConnOf(tr1.session).taken == ConnOf(tr.session).taken
            && ConnOf(tr1.session).sent + tr1.writeBuffer == ConnOf(tr.session).sent + tr.writeBuffer
            && |tr1.writeBuffer| <= |tr.writeBuffer|
            && if res.Ok? then tr' == tr1 && event == None
               else if Retryable(res.error) then tr' == tr1.(writeIntent := true) && event == None
               else tr' == tr1.(state := Terminated) && event == Some(TerminatedBy(res.error))
  {
    ActiveOffer(tr);
    FlushKeepsSound(Write(tr.session, tr.writeBuffer).0);
  }

  /** A transport that is still connecting asks for one write event. Whatever its session and its buffer
      are, an event does to it what it does to a transport in its handshake, except that it keeps the
      write intent; and it is connecting no more. */
  lemma {:induction false} ConnectingStartsHandshake(tr: Transport, io: Ready)
    requires tr.state == Init
    ensures Interests(tr) == Interest(false, true)
    ensures var (tr', event) := HandleIo(tr, io); var (tr'', event'') := HandleIo(tr.(state := Handshake), io);
            && tr' == tr''.(writeIntent := true) && event == event''
            && tr'.state != Init && (IsTermination(event) <==> tr'.state == Terminated)
    ensures tr.writeBuffer == [] && DisciplinedTower(tr.session) && !Established(tr.session) ==>
        Sound(HandleIo(tr, io).0)
    ensures Established(tr.session) ==> HandleIo(tr, io).0.state in {Active, Terminated}
  {
    ConnectsLikeHandshake(tr, io);
    TerminatedIffReported(tr, io);
    if tr.writeBuffer == [] && DisciplinedTower(tr.session) && !Established(tr.session) {
      HandshakeIo(tr.(state := Handshake), io);
    }
    if Established(tr.session) { ConnectsToEnd(tr.(state := Handshake), io); }
  }

  lemma {:induction false} ConnectsLikeHandshake(tr: Transport, io: Ready)
    requires tr.state == Init
    ensures var (tr', event) := HandleIo(tr, io); var (tr'', event'') := HandleIo(tr.(state := Handshake), io);
            tr' == tr''.(writeIntent := true) && event == event'' && tr'.state != Init
  {
    var tr0 := tr.(state := Handshake);
    var (tr1, resp) := if io.ReadReady? then HandleReadable(tr0) else HandleWritable(tr0);
    assert tr1.state in {Handshake, Terminated};
  }

  /** An event at a handshake whose session is established ends it. */
  lemma {:induction false} ConnectsToEnd(tr: Transport, io: Ready)
    requires tr.state == Handshake && Established(tr.session)
    ensures HandleIo(tr, io).0.state in {Active, Terminated}
  {
    StaysEstablished(tr);
    var tr1 := if io.ReadReady? then HandleReadable(tr).0 else HandleWritable(tr).0;
    assert Established(tr1.session);
  }

  /** Neither a read nor a flush of an established session undoes that. */
  lemma {:induction false} StaysEstablished(tr: Transport)
    requires Established(tr.session)
    ensures Established(Read(tr.session, READ_BUFFER_SIZE).0) && Established(Transports.Flush(tr).0.session)
  {
    var c := ConnOf(tr.session);
    ArtifactIgnoresTraffic(tr.session, c.Read(READ_BUFFER_SIZE).0);
    var c1 := c.Write(tr.writeBuffer).0;
    ArtifactIgnoresTraffic(tr.session, c1);
    ArtifactIgnoresTraffic(WithConn(tr.session, c1), c1.Flush().0);
  }

  lemma {:induction false} StepKeepsSound(l: Ledger, cmd: Cmd)
    requires Sound(l.tr) && Allowed(l.tr, cmd)
    ensures Sound(Step(l, cmd).tr)
  {
    var tr := l.tr;
    if tr.state == Active {
      match cmd
      case OnIo(io) => ActiveRead(tr); ActiveWrite(tr);
      case WriteCmd(buf) => ActiveOffer(tr.(writeBuffer := tr.writeBuffer + buf));
      case FlushCmd => ActiveWrite(tr);
      case UnwrapCmd => ActiveOffer(tr);
    } else if cmd.OnIo? {
      HandshakeIo(tr, cmd.io);
    }
  }

  predicate Precedes(a: State, b: State) {
    match a
    case Init => true
    case Handshake => b != Init
    case Active => b in {Active, Terminated}
    case Terminated => b == Terminated
  }

  /** An event tells the new state and is legal in the old one; without an event the state stays. */
  lemma {:induction false} EventTellsState(tr: Transport, io: Ready)
    requires Sound(tr) && tr.state in {Handshake, Active}
    ensures var (tr', event) := HandleIo(tr, io);
            if event.None? then tr'.state == tr.state
            else Grammatical(tr.state, [event.value]) && tr'.state == EndState(tr.state, [event.value])
  {
    if tr.state == Handshake {
      HandshakeIo(tr, io);
    } else if io.ReadReady? {
      ActiveRead(tr);
    } else {
      ActiveWrite(tr);
    }
    var event := HandleIo(tr, io).1;
    if event.Some? { assert [event.value][1..] == []; }
  }

  /** The two debug assertions at the beginning of `handle_io`. */
  predicate AssertionsHold(tr: Transport) {
    tr.state != Terminated && (tr.state == Handshake ==> !Established(tr.session))
  }

  lemma {:induction false} StepIsGrammatical(from: State, l: Ledger, cmd: Cmd)
    requires Sound(l.tr) && Allowed(l.tr, cmd)
    requires Grammatical(from, l.events) && EndState(from, l.events) == l.tr.state
    ensures var l' := Step(l, cmd);
            && Grammatical(from, l'.events) && EndState(from, l'.events) == l'.tr.state
            && Precedes(l.tr.state, l'.tr.state)
  {
    if cmd.OnIo? {
      EventTellsState(l.tr, cmd.io);
      var event := HandleIo(l.tr, cmd.io).1;
      if event.Some? { GrammarExtends(from, l.events, event.value); }
    }
  }

  /** Event grammar: over every run, whatever the connection does, the events are legal, they tell
      the state, the state only moves forward, and no event within the interests can make an
      assertion of `handle_io` fire. */
  lemma {:induction false} RunIsGrammatical(from: State, l: Ledger, cmds: seq<Cmd>)
    requires Sound(l.tr) && ValidRun(l, cmds)
    requires Grammatical(from, l.events) && EndState(from, l.events) == l.tr.state
    ensures var l' := Run(l, cmds);
            && Sound(l'.tr)
            && Grammatical(from, l'.events) && EndState(from, l'.events) == l'.tr.state
            && Precedes(l.tr.state, l'.tr.state)
            && forall io :: Allowed(l'.tr, OnIo(io)) ==> AssertionsHold(l'.tr)
    decreases |cmds|
  {
    if cmds == [] {
    } else {
      StepKeepsSound(l, cmds[0]);
      StepIsGrammatical(from, l, cmds[0]);
      RunIsGrammatical(from, Step(l, cmds[0]), cmds[1..]);
    }
  }
}
