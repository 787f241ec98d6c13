/** Two transports joined by two byte channels: they stay aligned, and the handshake cannot get stuck
    exactly if no side is to speak unasked after it has spoken unasked. */
module Liveness {
  import opened Io
  import opened Connection
  import opened Session
  import opened Stack
  import opened Discipline
  import opened Dialogue
  import opened Peers
  import opened Arrivals
  import opened Transports
  import opened Runs
  import opened Traffic

  /** A transport, with the bytes it has accepted and the events it has returned, and the bytes of the
      peer on their way to it. */
  datatype Node = Node(l: Ledger, wire: Bytes, written: Bytes) {
    /** Its session, with the application bytes that the transport has passed on and reported. */
    function End(): Endpoint {
      Endpoint(l.tr.session, wire, written, DataOf(l.events))
    }
  }

  datatype Net = Net(left: Node, right: Node) {
    function At(s: Side): Node {
      if s.Left? then left else right
    }

    function With(s: Side, mine: Node, other: Node): Net {
      if s.Left? then Net(mine, other) else Net(other, mine)
    }
  }

  /** What a reactor and its handler do at a side; up to `n` bytes on their way arrive at a side; or
      its connection reports an error or an end of stream. */
  datatype Happening = At(side: Side, cmd: Cmd) | DeliverAt(side: Side, n: nat) | DisturbAt(side: Side, rx: Rx)

  /** A transport after a command. What it sends once it is active is its application's. */
  function After(n: Node, cmd: Cmd): Node
    requires Allowed(n.l.tr, cmd)
  {
    var l' := Runs.Step(n.l, cmd);
    var news := News(ConnOf(n.l.tr.session), ConnOf(l'.tr.session));
    n.(l := l', written := if n.l.tr.state == Active then n.written + news else n.written)
  }

  /** The side where it happens. */
  function Here(n: Node, h: Happening): Node {
    match h
    case At(_, cmd) => if Allowed(n.l.tr, cmd) then After(n, cmd) else n
    case DeliverAt(_, k) =>
      var e := Deliver(n.End(), k);
      n.(l := n.l.(tr := n.l.tr.(session := e.session)), wire := e.wire)
    case DisturbAt(_, rx) => n.(l := n.l.(tr := n.l.tr.(session := Disturb(n.End(), rx).session)))
  }

  /** The other side, to which everything newly sent is on its way. */
  function There(n: Node, o: Node, h: Happening): Node {
    o.(wire := o.wire + News(ConnOf(n.l.tr.session), ConnOf(Here(n, h).l.tr.session)))
  }

  function NetStep(net: Net, h: Happening): Net {
    var n, o := net.At(h.side), net.At(h.side.Other());
    net.With(h.side, Here(n, h), There(n, o, h))
  }

  function NetPlay(net: Net, hs: seq<Happening>): Net
    decreases |hs|
  {
    if hs == [] then net else NetPlay(NetStep(net, hs[0]), hs[1..])
  }

  /** Events within the interests, and whole acts. */
  ghost predicate Fair(n: Node, h: Happening) {
    h.At? ==> Allowed(n.l.tr, h.cmd) && WholeRead(n.l.tr, h.cmd) && WholeWrite(n.l.tr, h.cmd)
  }

  ghost predicate FairPlay(net: Net, hs: seq<Happening>)
    decreases |hs|
  {
    hs == [] || (Fair(net.At(hs[0].side), hs[0]) && FairPlay(NetStep(net, hs[0]), hs[1..]))
  }

  // ---------- The invariant ----------

  /** What a transport has accepted it has written or still buffers; nothing in the handshake. */
  ghost predicate Owes(n: Node) {
    && n.l.accepted == n.written + n.l.tr.writeBuffer
    && (n.l.tr.state == Handshake ==> n.l.accepted == [])
  }

  ghost predicate NodeOk(n: Node) {
    Sound(n.l.tr) && Owes(n)
  }

  /** A side that is on track is sound if its transport is steady. */
  lemma {:induction false} SteadyIsOk(me: Side, n: Node, rest: seq<seq<Turn>>)
    requires Steady(n.l.tr) && Owes(n) && Party(me, n.End(), rest)
    ensures NodeOk(n)
  {
  }

  /** Where a side stands tells that both partitions hold of its transport. */
  lemma {:induction false} BooksBalance(me: Side, n: Node, rest: seq<seq<Turn>>, whole: seq<Tagged>)
    requires NodeOk(n) && Party(me, n.End(), rest) && Stands(me, StandingOf(n.End(), rest), whole)
    ensures Inbound(n.l) && Outbound(n.l)
  {
    HistoryIsTraffic(0, MachinesOf(n.l.tr.session));
    Finished(me, n.End(), rest, WriteCall([]));
  }

  ghost predicate Well(me: Side, n: Node, rest: seq<seq<Turn>>, o: Node, orest: seq<seq<Turn>>, whole: seq<Tagged>) {
    && Steady(n.l.tr) && Owes(n) && Steady(o.l.tr) && Owes(o)
    && Aligned(me, n.End(), rest, o.End(), orest, whole)
  }

  lemma {:induction false} MirrorWell(
      me: Side, n: Node, rest: seq<seq<Turn>>, o: Node, orest: seq<seq<Turn>>, whole: seq<Tagged>)
    requires Well(me, n, rest, o, orest, whole)
    ensures Well(me.Other(), o, orest, n, rest, whole)
  {
    Mirror(me, n.End(), rest, o.End(), orest, whole);
  }

  /** A step takes from the connection in order, and only adds to it. */
  lemma {:induction false} StepCrosses(l: Ledger, cmd: Cmd)
    requires ConnOf(l.tr.session).peer.Some? && Allowed(l.tr, cmd)
    ensures Crosses(ConnOf(l.tr.session), ConnOf(Runs.Step(l, cmd).tr.session))
  {
    match cmd
    case OnIo(io) => IoCrosses(l.tr, io);
    case WriteCmd(buf) => OfferCrosses(l.tr.(writeBuffer := l.tr.writeBuffer + buf));
    case FlushCmd => OfferCrosses(l.tr);
    case UnwrapCmd => OfferCrosses(l.tr);
  }

  lemma {:induction false} IoCrosses(tr: Transport, io: Ready)
    requires ConnOf(tr.session).peer.Some?
    ensures Crosses(ConnOf(tr.session), ConnOf(HandleIo(tr, io).0.session))
  {
    IoSession(tr, io);
    if io.WriteReady? && Established(tr.session) { OfferCrosses(tr); } else { CallCrosses(tr.session, IoCall(io)); }
  }

  lemma {:induction false} IoSession(tr: Transport, io: Ready)
    ensures HandleIo(tr, io).0.session ==
            if io.WriteReady? && Established(tr.session) then Transports.Flush(tr).0.session
            else TowerDo(tr.session, IoCall(io)).0
  {
    var tr0 := if tr.state == Init then tr.(state := Handshake) else tr;
    if io.ReadReady? {
      assert HandleReadable(tr0).0.session == TowerDo(tr.session, IoCall(io)).0;
    } else if Established(tr.session) {
      assert HandleWritable(tr0).0.session == Transports.Flush(tr0).0.session == Transports.Flush(tr).0.session;
    }
  }

  lemma {:induction false} OfferCrosses(tr: Transport)
    requires ConnOf(tr.session).peer.Some?
    ensures Crosses(ConnOf(tr.session), ConnOf(FlushBuffer(tr).0.session))
    ensures Crosses(ConnOf(tr.session), ConnOf(EmptyWriteBuf(tr).0.session))
    ensures Crosses(ConnOf(tr.session), ConnOf(Transports.Flush(tr).0.session))
  {
    CallCrosses(tr.session, WriteCall(tr.writeBuffer));
    FlushKeepsSound(Write(tr.session, tr.writeBuffer).0);
  }

  /** A handshake event is a call of the side, with nothing written or read. */
  lemma {:induction false} HandshakeSteps(n: Node, io: Ready)
    requires NodeOk(n) && n.l.tr.state == Handshake && Allowed(n.l.tr, OnIo(io))
    ensures var n' := Here(n, At(Left, OnIo(io)));
            n'.End() == n.End().(session := TowerDo(n.l.tr.session, IoCall(io)).0)
  {
    HandshakeIo(n.l.tr, io);
    HandshakeMoves(n.l, io);
  }

  lemma {:induction false} WholeActsWholeCall(tr: Transport, io: Ready)
    requires Sound(tr) && tr.state == Handshake && WholeRead(tr, OnIo(io)) && WholeWrite(tr, OnIo(io))
    ensures WholeCall(Below(tr.session), MachinesOf(tr.session), ConnOf(tr.session), IoCall(io))
  {
  }

  /** The event has taken the turns `taken` of the script. */
  ghost predicate EventTook(me: Side, n: Node, rest: seq<seq<Turn>>, io: Ready, rest': seq<seq<Turn>>, taken: Taken) {
    var n' := Here(n, At(me, OnIo(io)));
    var c, c' := ConnOf(n.l.tr.session), ConnOf(n'.l.tr.session);
    && Party(me, n'.End(), rest')
    && Advances(StandingOf(n.End(), rest), StandingOf(n'.End(), rest'), taken)
    && News(c, c') == Words(Spoke(taken.said))
    && Script(0, rest) != []
    && Took(me, Script(0, rest), Script(0, rest'), c, c', IoCall(io), TowerDo(n.l.tr.session, IoCall(io)).1, taken)
    && (Takes(me, Script(0, rest), c, IoCall(io)) <==> taken != Taken(None, None))
  }

  /** An event in the handshake takes turns of the script. */
  lemma {:induction false} HandshakeTakes(
      me: Side, n: Node, rest: seq<seq<Turn>>, o: Node, orest: seq<seq<Turn>>, whole: seq<Tagged>, io: Ready)
    returns (rest': seq<seq<Turn>>, taken: Taken)
    requires Well(me, n, rest, o, orest, whole) && n.l.tr.state == Handshake && Fair(n, At(me, OnIo(io)))
    ensures EventTook(me, n, rest, io, rest', taken)
  {
    var e, call := n.End(), IoCall(io);
    SteadyIsOk(me, n, rest);
    Finished(me, e, rest, call);
    WholeActsWholeCall(n.l.tr, io);
    ActsAreExpected(me, e, rest, o.End(), orest, whole, call);
    rest', taken := CallTakes(me, e, rest, call);
    CallAdvances(me, e, rest, call, rest', taken);
    HandshakeSteps(n, io);
  }

  // ---------- Every fair step keeps the invariant ----------

  /** The traffic of a transport is where its side stands. */
  lemma {:induction false} BookStands(me: Side, n: Node, n': Node, rest: seq<seq<Turn>>, whole: seq<Tagged>)
    requires Owes(n') && Inbound(n'.l) && Outbound(n'.l)
    requires MachinesOf(n'.l.tr.session) == MachinesOf(n.l.tr.session)
    requires Stands(me, StandingOf(n.End(), rest), whole) && Script(0, rest) == []
    ensures Stands(me, StandingOf(n'.End(), rest), whole)
  {
    HistoryIsTraffic(0, MachinesOf(n'.l.tr.session));
  }

  lemma {:induction false} CrossesStanding(c: Conn, c': Conn, wire: Bytes)
    requires Crosses(c, c')
    ensures c'.taken + (Payload(c'.rx) + wire) == c.taken + (Payload(c.rx) + wire)
    ensures c'.sent == c.sent + News(c, c')
  {
    assert c.taken + (Payload(c.rx) + wire) == Stream(c) + wire;
    assert c'.taken + (Payload(c'.rx) + wire) == Stream(c') + wire;
  }

  lemma {:induction false} ActiveKeepsMachines(l: Ledger, cmd: Cmd)
    requires Sound(l.tr) && l.tr.state == Active && Allowed(l.tr, cmd)
    ensures MachinesOf(Runs.Step(l, cmd).tr.session) == MachinesOf(l.tr.session)
  {
    if cmd == OnIo(ReadReady) { ActiveReads(l); } else { ActiveMoves(l, cmd); }
  }

  lemma {:induction false} StepKeepsNode(n: Node, cmd: Cmd)
    requires NodeOk(n) && Inbound(n.l) && Outbound(n.l) && Fair(n, At(Left, cmd))
    ensures NodeOk(After(n, cmd)) && Inbound(After(n, cmd).l) && Outbound(After(n, cmd).l)
    ensures Crosses(ConnOf(n.l.tr.session), ConnOf(After(n, cmd).l.tr.session))
  {
    StepKeepsSound(n.l, cmd);
    InboundStep(n.l, cmd);
    OutboundStep(n.l, cmd);
    StepCrosses(n.l, cmd);
    StillOwes(n, cmd);
  }

  lemma {:induction false} StillOwes(n: Node, cmd: Cmd)
    requires NodeOk(n) && Fair(n, At(Left, cmd))
    ensures Owes(After(n, cmd))
  {
    if n.l.tr.state == Active {
      if cmd == OnIo(ReadReady) { ReadingOwes(n); } else { WritingOwes(n, cmd); }
    } else if cmd.OnIo? {
      HandshakeMoves(n.l, cmd.io);
    }
  }

  lemma {:induction false} ReadingOwes(n: Node)
    requires NodeOk(n) && n.l.tr.state == Active && Allowed(n.l.tr, OnIo(ReadReady))
    ensures Owes(After(n, OnIo(ReadReady)))
  {
    ActiveReads(n.l);
    assert n.written + [] == n.written;
  }

  lemma {:induction false} WritingOwes(n: Node, cmd: Cmd)
    requires NodeOk(n) && n.l.tr.state == Active && Allowed(n.l.tr, cmd) && cmd != OnIo(ReadReady)
    ensures Owes(After(n, cmd))
  {
    var l', more := Runs.Step(n.l, cmd), if cmd.WriteCmd? then cmd.buf else [];
    StepCrosses(n.l, cmd);
    ActiveMoves(n.l, cmd);
    MovedOwes(n, l', more);
  }

  lemma {:induction false} MovedOwes(n: Node, l': Ledger, more: Bytes)
    requires Owes(n) && Moved(n.l, l', more) && Crosses(ConnOf(n.l.tr.session), ConnOf(l'.tr.session))
    ensures Owes(n.(l := l', written := n.written + News(ConnOf(n.l.tr.session), ConnOf(l'.tr.session))))
  {
    var c, c' := ConnOf(n.l.tr.session), ConnOf(l'.tr.session);
    assert c'.sent == c.sent + News(c, c');
    Passes(c.sent, News(c, c'), l'.tr.writeBuffer, n.l.tr.writeBuffer, more, n.written);
  }

  lemma {:induction false} Passes(sent: Bytes, news: Bytes, left: Bytes, buffer: Bytes, more: Bytes, written: Bytes)
    requires (sent + news) + left == sent + (buffer + more)
    ensures (written + buffer) + more == (written + news) + left
  {
    assert (sent + news) + left == sent + (news + left);
    assert news + left == (sent + (news + left))[|sent|..] == (sent + (buffer + more))[|sent|..] == buffer + more;
    assert (written + buffer) + more == written + (buffer + more);
    assert (written + news) + left == written + (news + left);
  }

  lemma {:induction false} ActiveParty(me: Side, n: Node, rest: seq<seq<Turn>>, cmd: Cmd)
    requires NodeOk(n) && Party(me, n.End(), rest) && n.l.tr.state == Active && Fair(n, At(me, cmd))
    ensures Party(me, Here(n, At(me, cmd)).End(), rest)
    ensures MachinesOf(Here(n, At(me, cmd)).l.tr.session) == MachinesOf(n.l.tr.session)
    ensures Script(0, rest) == []
  {
    Finished(me, n.End(), rest, WriteCall([]));
    ActiveKeepsMachines(n.l, cmd);
    StepCrosses(n.l, cmd);
  }

  /** A step of an active transport. */
  lemma {:induction false} ActiveStays(
      me: Side, n: Node, rest: seq<seq<Turn>>, o: Node, orest: seq<seq<Turn>>, whole: seq<Tagged>, cmd: Cmd)
    requires Well(me, n, rest, o, orest, whole) && n.l.tr.state == Active && Fair(n, At(me, cmd))
    ensures Well(me, Here(n, At(me, cmd)), rest, There(n, o, At(me, cmd)), orest, whole)
  {
    SteadyIsOk(me, n, rest);
    ActiveParty(me, n, rest, cmd);
    BooksBalance(me, n, rest, whole);
    StepKeepsNode(n, cmd);
    WritingStays(me, n, rest, o, orest, whole, Here(n, At(me, cmd)));
  }

  /** A finished side that has only moved application bytes. */
  lemma {:induction false} WritingStays(
      me: Side, n: Node, rest: seq<seq<Turn>>, o: Node, orest: seq<seq<Turn>>, whole: seq<Tagged>, n': Node)
    requires Well(me, n, rest, o, orest, whole) && Party(me, n'.End(), rest) && Script(0, rest) == []
    requires NodeOk(n') && Inbound(n'.l) && Outbound(n'.l)
    requires MachinesOf(n'.l.tr.session) == MachinesOf(n.l.tr.session) && n'.wire == n.wire
    requires Crosses(ConnOf(n.l.tr.session), ConnOf(n'.l.tr.session))
    ensures var news := News(ConnOf(n.l.tr.session), ConnOf(n'.l.tr.session));
            Well(me, n', rest, o.(wire := o.wire + news), orest, whole)
  {
    var c, c' := ConnOf(n.l.tr.session), ConnOf(n'.l.tr.session);
    BookStands(me, n, n', rest, whole);
    CrossesStanding(c, c', n.wire);
    MovedLinked(me, n, rest, o, orest, whole, n', rest, News(c, c'));
    assert o.(wire := o.wire + News(c, c')).End() == SendTo(o.End(), News(c, c'));
  }

  lemma {:induction false} MovedLinked(
      me: Side, n: Node, rest: seq<seq<Turn>>, o: Node, orest: seq<seq<Turn>>, whole: seq<Tagged>, n': Node,
      rest': seq<seq<Turn>>, news: Bytes)
    requires Linked(me, StandingOf(n.End(), rest), StandingOf(o.End(), orest), whole)
    requires Stands(me, StandingOf(n'.End(), rest'), whole)
    requires var p, p' := StandingOf(n.End(), rest), StandingOf(n'.End(), rest');
             p'.sent == p.sent + news && p'.taken + p'.incoming == p.taken + p.incoming
    ensures Linked(me, StandingOf(n'.End(), rest'), StandingOf(SendTo(o.End(), news), orest), whole)
  {
    Relinked(me, StandingOf(n.End(), rest), StandingOf(o.End(), orest), StandingOf(n'.End(), rest'), news, whole);
    SentStanding(o.End(), orest, news);
  }

  /** An event at a transport in its handshake. */
  lemma {:induction false} HandshakeStays(
      me: Side, n: Node, rest: seq<seq<Turn>>, o: Node, orest: seq<seq<Turn>>, whole: seq<Tagged>, io: Ready,
      rest': seq<seq<Turn>>, taken: Taken)
    requires Well(me, n, rest, o, orest, whole) && Fair(n, At(me, OnIo(io))) && EventTook(me, n, rest, io, rest', taken)
    ensures Well(me, Here(n, At(me, OnIo(io))), rest', There(n, o, At(me, OnIo(io))), orest, whole)
  {
    SteadyIsOk(me, n, rest);
    BooksBalance(me, n, rest, whole);
    StepKeepsNode(n, OnIo(io));
    SpokenStays(me, n, rest, o, orest, whole, Here(n, At(me, OnIo(io))), rest', taken);
  }

  lemma {:induction false} SpokenStays(
      me: Side, n: Node, rest: seq<seq<Turn>>, o: Node, orest: seq<seq<Turn>>, whole: seq<Tagged>, n': Node,
      rest': seq<seq<Turn>>, taken: Taken)
    requires Well(me, n, rest, o, orest, whole) && NodeOk(n') && Party(me, n'.End(), rest')
    requires Advances(StandingOf(n.End(), rest), StandingOf(n'.End(), rest'), taken) && taken.By(me)
        && Script(0, rest) != []
    ensures Well(me, n', rest', o.(wire := o.wire + Words(Spoke(taken.said))), orest, whole)
  {
    var news := Words(Spoke(taken.said));
    AdvancesLinked(me, StandingOf(n.End(), rest), StandingOf(o.End(), orest), StandingOf(n'.End(), rest'), taken,
        whole);
    SentStanding(o.End(), orest, news);
    assert o.(wire := o.wire + news).End() == SendTo(o.End(), news);
  }

  lemma {:induction false} ArrivesAtNode(n: Node, rx: Rx)
    requires NodeOk(n)
    ensures NodeOk(n.(l := n.l.(tr := n.l.tr.(session := Arrive(n.l.tr.session, rx)))))
  {
    var c := ConnOf(n.l.tr.session);
    MachinesIgnoreConn(n.l.tr.session, c.(rx := c.rx + [rx]));
    ArtifactIgnoresTraffic(n.l.tr.session, c.(rx := c.rx + [rx]));
  }

  lemma {:induction false} NothingThere(n: Node, o: Node, h: Happening)
    requires ConnOf(Here(n, h).l.tr.session).sent == ConnOf(n.l.tr.session).sent
    ensures There(n, o, h) == o
  {
    assert o.wire + [] == o.wire;
  }

  /** A side that stands where it stood, with its book in order, is well. */
  lemma {:induction false} StandsThere(
      me: Side, n: Node, n': Node, rest: seq<seq<Turn>>, o: Node, orest: seq<seq<Turn>>, whole: seq<Tagged>)
    requires Well(me, n, rest, o, orest, whole) && NodeOk(n') && Party(me, n'.End(), rest)
    requires StandingOf(n'.End(), rest) == StandingOf(n.End(), rest)
    ensures Well(me, n', rest, o, orest, whole)
  {
  }

  lemma {:induction false} DeliversHere(n: Node, h: Happening)
    requires NodeOk(n) && h.DeliverAt?
    ensures var n' := Here(n, h);
            && NodeOk(n') && n'.End() == Deliver(n.End(), h.n) && n'.l.tr == n.l.tr.(session := n'.l.tr.session)
            && ConnOf(n'.l.tr.session).sent == ConnOf(n.l.tr.session).sent
  {
    var k := if h.n <= |n.wire| then h.n else |n.wire|;
    if k > 0 { ArrivesAtNode(n, Chunk(n.wire[..k])); }
  }

  lemma {:induction false} DisturbsHere(n: Node, h: Happening)
    requires NodeOk(n) && h.DisturbAt?
    ensures var n' := Here(n, h);
            && NodeOk(n') && n'.End() == Disturb(n.End(), h.rx) && n'.l.tr == n.l.tr.(session := n'.l.tr.session)
            && ConnOf(n'.l.tr.session).sent == ConnOf(n.l.tr.session).sent
  {
    ArrivesAtNode(n, h.rx);
  }

  /** Arrivals change nothing but where the bytes are. */
  lemma {:induction false} ArrivalStays(
      me: Side, n: Node, rest: seq<seq<Turn>>, o: Node, orest: seq<seq<Turn>>, whole: seq<Tagged>,
      h: Happening)
    requires Well(me, n, rest, o, orest, whole) && !h.At?
    ensures var n' := Here(n, h);
            Well(me, n', rest, o, orest, whole) && There(n, o, h) == o && n'.l.tr == n.l.tr.(session := n'.l.tr.session)
  {
    SteadyIsOk(me, n, rest);
    if h.DeliverAt? {
      DeliversHere(n, h);
      DeliverKeeps(me, n.End(), rest, h.n);
    } else {
      DisturbsHere(n, h);
      DisturbKeeps(me, n.End(), rest, h.rx);
    }
    StandsThere(me, n, Here(n, h), rest, o, orest, whole);
    NothingThere(n, o, h);
  }

  predicate HandshakeEvent(n: Node, h: Happening) {
    h.At? && h.cmd.OnIo? && n.l.tr.state == Handshake
  }

  /** Outside the handshake, and without an event, no turn is taken. */
  lemma {:induction false} OtherStays(
      me: Side, n: Node, rest: seq<seq<Turn>>, o: Node, orest: seq<seq<Turn>>, whole: seq<Tagged>,
      h: Happening)
    requires Well(me, n, rest, o, orest, whole) && h.side == me && Fair(n, h) && !HandshakeEvent(n, h)
    ensures Well(me, Here(n, h), rest, There(n, o, h), orest, whole)
    ensures n.l.tr.state == Handshake ==>
        Here(n, h).l.tr == n.l.tr.(session := Here(n, h).l.tr.session) && There(n, o, h) == o
  {
    if !h.At? {
      ArrivalStays(me, n, rest, o, orest, whole, h);
    } else if n.l.tr.state == Active {
      ActiveStays(me, n, rest, o, orest, whole, h.cmd);
    } else {
      SteadyIsOk(me, n, rest);
      NothingHappens(n, o, h);
    }
  }

  /** In the handshake, and after the end, a handler's commands change nothing. */
  lemma {:induction false} NothingHappens(n: Node, o: Node, h: Happening)
    requires NodeOk(n) && Fair(n, h) && h.At? && n.l.tr.state != Active && !HandshakeEvent(n, h)
    ensures Here(n, h) == n && There(n, o, h) == o
  {
    assert Here(n, h) == n;
    NothingThere(n, o, h);
  }

  /** The turns `taken` of the script are over, by a call of the kind that takes them. */
  ghost predicate Turned(me: Side, n: Node, h: Happening, g: seq<Tagged>, g': seq<Tagged>, taken: Taken) {
    && taken.By(me) && g == taken.Turns() + g'
    && (taken != Taken(None, None) ==> HandshakeEvent(n, h))
    && (HandshakeEvent(n, h) ==>
        && (Takes(me, g, ConnOf(n.l.tr.session), IoCall(h.cmd.io)) <==> taken != Taken(None, None))
        && (taken.heard.Some? ==> h.cmd.io.ReadReady?)
        && (taken.said.Some? && taken.heard.None? ==> h.cmd.io.WriteReady?)
        && (taken.said.None? ==> News(ConnOf(n.l.tr.session), ConnOf(Here(n, h).l.tr.session)) == [])
        && (taken != Taken(None, None) || Stop(ConnOf(n.l.tr.session).rx) == WouldBlock ==>
            Here(n, h).l.tr.state != Terminated))
  }

  /** Every fair step keeps both sides well; `taken` are the turns it takes. */
  lemma {:induction false} FairStep(
      me: Side, n: Node, rest: seq<seq<Turn>>, o: Node, orest: seq<seq<Turn>>, whole: seq<Tagged>,
      h: Happening)
    returns (rest': seq<seq<Turn>>, taken: Taken)
    requires Well(me, n, rest, o, orest, whole) && h.side == me && Fair(n, h)
    ensures Well(me, Here(n, h), rest', There(n, o, h), orest, whole)
    ensures Turned(me, n, h, Script(0, rest), Script(0, rest'), taken)
  {
    if HandshakeEvent(n, h) {
      assert h == At(me, OnIo(h.cmd.io));
      rest', taken := HandshakeTakes(me, n, rest, o, orest, whole, h.cmd.io);
      HandshakeStays(me, n, rest, o, orest, whole, h.cmd.io, rest', taken);
      SteadyIsOk(me, n, rest);
      EventTurned(me, n, rest, h, rest', taken);
    } else {
      OtherStays(me, n, rest, o, orest, whole, h);
      rest', taken := rest, Taken(None, None);
      NothingTurned(me, n, h, Script(0, rest));
    }
  }

  lemma {:induction false} EventTurned(
      me: Side, n: Node, rest: seq<seq<Turn>>, h: Happening, rest': seq<seq<Turn>>, taken: Taken)
    requires HandshakeEvent(n, h) && EventTook(me, n, rest, h.cmd.io, rest', taken) && Sound(n.l.tr)
    ensures Turned(me, n, h, Script(0, rest), Script(0, rest'), taken)
  {
    HandshakeIo(n.l.tr, h.cmd.io);
  }

  lemma {:induction false} NothingTurned(me: Side, n: Node, h: Happening, g: seq<Tagged>)
    requires !HandshakeEvent(n, h)
    ensures Turned(me, n, h, g, g, Taken(None, None))
  {
    assert Taken(None, None).Turns() == [];
  }

  // ---------- Alignment of the transports ----------

  /** What is left of the dialogues, for either side. */
  datatype Rests = Rests(left: seq<seq<Turn>>, right: seq<seq<Turn>>) {
    function At(s: Side): seq<seq<Turn>> {
      if s.Left? then left else right
    }

    function With(s: Side, rest: seq<seq<Turn>>): Rests {
      if s.Left? then this.(left := rest) else this.(right := rest)
    }
  }

  /** Both sides are well, seen from `s`. */
  ghost predicate WellFrom(s: Side, net: Net, rests: Rests, whole: seq<Tagged>) {
    Well(s, net.At(s), rests.At(s), net.At(s.Other()), rests.At(s.Other()), whole)
  }

  lemma {:induction false} NodesAreOk(s: Side, net: Net, rests: Rests, whole: seq<Tagged>)
    requires NetWell(net, rests, whole)
    ensures NodeOk(net.At(s)) && Party(s, net.At(s).End(), rests.At(s))
  {
    assert WellFrom(s, net, rests, whole);
    SteadyIsOk(s, net.At(s), rests.At(s));
  }

  /** Both sides are well, seen from either. */
  ghost predicate NetWell(net: Net, rests: Rests, whole: seq<Tagged>) {
    forall s: Side :: WellFrom(s, net, rests, whole)
  }

  lemma {:induction false} WellEitherWay(s: Side, net: Net, rests: Rests, whole: seq<Tagged>)
    requires WellFrom(s, net, rests, whole)
    ensures NetWell(net, rests, whole)
  {
    MirrorWell(s, net.At(s), rests.At(s), net.At(s.Other()), rests.At(s.Other()), whole);
    forall t: Side ensures WellFrom(t, net, rests, whole) {
      if t != s { assert t == s.Other() && t.Other() == s; }
    }
  }

  lemma {:induction false} NetStaysWell(net: Net, h: Happening, rests: Rests, whole: seq<Tagged>)
    returns (rests': Rests, taken: Taken)
    requires NetWell(net, rests, whole) && Fair(net.At(h.side), h)
    ensures NetWell(NetStep(net, h), rests', whole)
    ensures rests' == rests.With(h.side, rests'.At(h.side))
    ensures Turned(h.side, net.At(h.side), h, Script(0, rests.At(h.side)), Script(0, rests'.At(h.side)), taken)
  {
    var me, other := h.side, h.side.Other();
    assert WellFrom(me, net, rests, whole);
    var rest';
    rest', taken := FairStep(me, net.At(me), rests.At(me), net.At(other), rests.At(other), whole, h);
    rests' := rests.With(me, rest');
    WellEitherWay(me, NetStep(net, h), rests', whole);
  }

  lemma {:induction false} NetPlayStaysWell(net: Net, hs: seq<Happening>, rests: Rests, whole: seq<Tagged>)
    returns (rests': Rests)
    requires NetWell(net, rests, whole) && FairPlay(net, hs)
    ensures NetWell(NetPlay(net, hs), rests', whole)
    decreases |hs|
  {
    if hs == [] {
      rests' := rests;
    } else {
      var r, _ := NetStaysWell(net, hs[0], rests, whole);
      rests' := NetPlayStaysWell(NetStep(net, hs[0]), hs[1..], r, whole);
    }
  }

  /** Two matching sessions, the initiator's under `with_session` and the responder's, which is not
      established yet, under `accept`. */
  ghost predicate Start(net: Net, dialogues: seq<seq<Turn>>) {
    var a, b := net.left.l.tr.session, net.right.l.tr.session;
    && Matching(Joint(net.left.End(), net.right.End()), dialogues)
    && net.left.l == Ledger(WithSession(a), [], []) && net.right.l == Ledger(Accept(b), [], []) && !Established(b)
  }

  lemma {:induction false} StartsWell(net: Net, dialogues: seq<seq<Turn>>)
    requires Start(net, dialogues)
    ensures NetWell(net, Rests(dialogues, dialogues), Script(0, dialogues))
  {
    MatchingAligned(Joint(net.left.End(), net.right.End()), dialogues);
    Opening(net.left.l.tr.session);
    Opening(net.right.l.tr.session);
    WellEitherWay(Left, net, Rests(dialogues, dialogues), Script(0, dialogues));
  }

  /** What the peer's machines have been given is what `n`'s have answered, layer by layer and in order;
      and the data the peer has reported is what `n` has accepted from its application, as far as it
      has come. */
  ghost predicate Conveys(n: Node, o: Node) {
    && Heard(0, MachinesOf(o.l.tr.session)) <= Said(0, MachinesOf(n.l.tr.session))
    && DataOf(o.l.events) <= n.l.accepted
  }

  /** The transports stay aligned: over every run with whole acts, whatever the channels cut and join
      and the connections report, accept or refuse, every act reaches the machine of its own layer, and
      the `Data` events of either side are what the other's application has written. */
  lemma {:induction false} TransportsStayAligned(net: Net, dialogues: seq<seq<Turn>>, hs: seq<Happening>)
    requires Start(net, dialogues) && FairPlay(net, hs)
    ensures var net' := NetPlay(net, hs); Conveys(net'.left, net'.right) && Conveys(net'.right, net'.left)
  {
    StartsWell(net, dialogues);
    var rests := NetPlayStaysWell(net, hs, Rests(dialogues, dialogues), Script(0, dialogues));
    assert WellFrom(Left, NetPlay(net, hs), rests, Script(0, dialogues));
    WellConveys(NetPlay(net, hs).left, rests.left, NetPlay(net, hs).right, rests.right, Script(0, dialogues));
  }

  lemma {:induction false} WellConveys(
      n: Node, rest: seq<seq<Turn>>, o: Node, orest: seq<seq<Turn>>, whole: seq<Tagged>)
    requires Well(Left, n, rest, o, orest, whole)
    ensures Conveys(n, o) && Conveys(o, n)
  {
    AlignedHears(Left, n.End(), rest, o.End(), orest, whole);
    assert n.written <= n.l.accepted && o.written <= o.l.accepted;
  }

  // ---------- Asleep on one's own turn ----------

  /** Happenings that a poller reports or a network does when nothing is disturbed: readiness for
      reading only when something has arrived. */
  ghost predicate Enabled(net: Net, h: Happening) {
    var n := net.At(h.side);
    && Fair(n, h)
    && !h.DisturbAt?
    && (h.At? && h.cmd == OnIo(ReadReady) ==> ConnOf(n.l.tr.session).rx != [])
  }

  ghost predicate EnabledPlay(net: Net, hs: seq<Happening>)
    decreases |hs|
  {
    hs == [] || (Enabled(net, hs[0]) && EnabledPlay(NetStep(net, hs[0]), hs[1..]))
  }

  predicate BothActive(net: Net) {
    net.left.l.tr.state == Active && net.right.l.tr.state == Active
  }

  predicate OwnTurn(me: Side, g: seq<Tagged>) {
    g != [] && g[0].turn.speaker == me
  }

  /** In its handshake, without write intent, and with nothing arrived or on its way. */
  predicate Asleep(n: Node) {
    n.l.tr.state == Handshake && !n.l.tr.writeIntent && ConnOf(n.l.tr.session).rx == [] && n.wire == []
  }

  /** On its own turn a side has nothing to hear. */
  lemma {:induction false} SilentOnOwnTurn(
      me: Side, n: Node, rest: seq<seq<Turn>>, o: Node, orest: seq<seq<Turn>>, whole: seq<Tagged>)
    requires Well(me, n, rest, o, orest, whole) && OwnTurn(me, Script(0, rest))
    ensures Payload(ConnOf(n.l.tr.session).rx) == [] && n.wire == []
    ensures Calm(ConnOf(n.l.tr.session).rx) ==> ConnOf(n.l.tr.session).rx == []
  {
    OwnTurnIsSilent(me, StandingOf(n.End(), rest), StandingOf(o.End(), orest), whole);
    if Calm(ConnOf(n.l.tr.session).rx) { CalmIsAvailable(ConnOf(n.l.tr.session).rx); }
  }

  /** Nothing that is enabled at a sleeping side changes it. */
  lemma {:induction false} SleepsHere(net: Net, h: Happening)
    requires Enabled(net, h) && Asleep(net.At(h.side))
    ensures Here(net.At(h.side), h) == net.At(h.side)
  {
  }

  /** A side asleep on its own turn stays exactly as it is, whatever is enabled at either side. */
  lemma {:induction false} SleepsOn(me: Side, net: Net, rests: Rests, whole: seq<Tagged>, h: Happening)
    returns (rests': Rests)
    requires NetWell(net, rests, whole) && Asleep(net.At(me)) && OwnTurn(me, Script(0, rests.At(me))) && Enabled(net, h)
    ensures NetWell(NetStep(net, h), rests', whole)
    ensures NetStep(net, h).At(me) == net.At(me) && OwnTurn(me, Script(0, rests'.At(me)))
  {
    var taken;
    rests', taken := NetStaysWell(net, h, rests, whole);
    if h.side == me {
      SleepsHere(net, h);
      assert taken.Turns() == [];
    } else {
      assert h.side == me.Other() && me.Other().Other() == me;
      assert WellFrom(me, NetStep(net, h), rests', whole);
      SilentOnOwnTurn(me, NetStep(net, h).At(me), rests'.At(me), NetStep(net, h).At(me.Other()),
          rests'.At(me.Other()), whole);
    }
  }

  lemma {:induction false} SleepsForever(me: Side, net: Net, rests: Rests, whole: seq<Tagged>, hs: seq<Happening>)
    requires NetWell(net, rests, whole) && Asleep(net.At(me)) && OwnTurn(me, Script(0, rests.At(me)))
        && EnabledPlay(net, hs)
    ensures NetPlay(net, hs).At(me) == net.At(me)
    decreases |hs|
  {
    if hs == [] {
    } else {
      var r := SleepsOn(me, net, rests, whole, hs[0]);
      SleepsForever(me, NetStep(net, hs[0]), r, whole, hs[1..]);
    }
  }

  // ---------- Speaking twice in a row ----------

  /** The side is to speak after it has spoken unasked. */
  predicate SpeaksTwice(me: Side, g: seq<Tagged>) {
    exists i :: 0 <= i < |g| - 1 && g[i].turn.speaker == me && !g[i].turn.reply && g[i + 1].turn.speaker == me
  }

  /** Either a turn spoken unasked and followed by another is over, or it is still to come. */
  lemma {:induction false} TwiceOrNow(me: Side, g: seq<Tagged>, taken: Taken, g': seq<Tagged>)
    requires SpeaksTwice(me, g) && taken.By(me) && g == taken.Turns() + g'
    ensures SpeaksTwice(me, g') || (taken.said.Some? && taken.heard.None? && OwnTurn(me, g'))
  {
    var i :| 0 <= i < |g| - 1 && g[i].turn.speaker == me && !g[i].turn.reply && g[i + 1].turn.speaker == me;
    var n := |taken.Turns()|;
    if i >= n {
      var k := i - n;
      assert g[i] == g'[k] && g[i + 1] == g'[k + 1];
    } else {
      assert g[i] == taken.Turns()[i];
      assert taken.heard.None?;
      assert g'[0] == g[1];
    }
  }

  lemma {:induction false} TwiceBefore(me: Side, g: seq<Tagged>, taken: Taken, g': seq<Tagged>)
    requires taken.By(me) && g == taken.Turns() + g'
    requires SpeaksTwice(me, g') || (taken.said.Some? && taken.heard.None? && OwnTurn(me, g'))
    ensures SpeaksTwice(me, g)
  {
    if SpeaksTwice(me, g') {
      var i :| 0 <= i < |g'| - 1 && g'[i].turn.speaker == me && !g'[i].turn.reply && g'[i + 1].turn.speaker == me;
      var k := |taken.Turns()| + i;
      assert g[k] == g'[i] && g[k + 1] == g'[i + 1];
    } else {
      assert g[0] == taken.said.value && g[0 + 1] == g'[0];
    }
  }

  /** What a happening makes of the state of a transport in its handshake. */
  lemma {:induction false} HandshakeState(n: Node, h: Happening)
    requires NodeOk(n) && Fair(n, h) && HandshakeEvent(n, h)
    ensures var tr' := Here(n, h).l.tr;
            && (tr'.state == Handshake ==> tr'.writeIntent == h.cmd.io.ReadReady?)
            && (h.cmd.io.WriteReady? ==> tr'.state != Terminated)
            && (h.cmd.io.ReadReady? && tr'.state != Terminated ==> tr'.writeIntent)
  {
    HandshakeIo(n.l.tr, h.cmd.io);
  }

  lemma {:induction false} OtherState(n: Node, h: Happening)
    requires NodeOk(n) && Fair(n, h) && !HandshakeEvent(n, h)
    ensures var tr, tr' := n.l.tr, Here(n, h).l.tr;
            if tr.state == Handshake then tr' == tr.(session := tr'.session) else tr'.state != Handshake
  {
    if !h.At? {
      ArrivalState(n, h);
    } else if n.l.tr.state == Active {
      ActiveState(n.l, h.cmd);
    } else {
      assert h.cmd.WriteCmd?;
    }
  }

  lemma {:induction false} ArrivalState(n: Node, h: Happening)
    requires !h.At?
    ensures Here(n, h).l.tr == n.l.tr.(session := Here(n, h).l.tr.session)
  {
  }

  lemma {:induction false} ActiveState(l: Ledger, cmd: Cmd)
    requires Sound(l.tr) && l.tr.state == Active && Allowed(l.tr, cmd)
    ensures Runs.Step(l, cmd).tr.state != Handshake
  {
    if cmd == OnIo(ReadReady) { ActiveReads(l); } else { ActiveMoves(l, cmd); }
  }

  lemma {:induction false} HereCalm(n: Node, h: Happening)
    requires NodeOk(n) && Fair(n, h) && !h.DisturbAt?
    ensures var c, c' := ConnOf(n.l.tr.session), ConnOf(Here(n, h).l.tr.session);
            (Calm(c.rx) ==> Calm(c'.rx)) && (Willing(c.tx) ==> Willing(c'.tx))
  {
    if h.At? { StepCrosses(n.l, h.cmd); }
  }

  /** A side that will never be active: asleep on its own turn, or to speak twice in a row. */
  ghost predicate Doomed(me: Side, n: Node, g: seq<Tagged>) {
    (Asleep(n) && OwnTurn(me, g)) || SpeaksTwice(me, g)
  }

  /** After the first of two turns in a row a side falls asleep on the second. */
  lemma {:induction false} FallsAsleep(me: Side, net: Net, rests: Rests, whole: seq<Tagged>, h: Happening)
    requires NetWell(NetStep(net, h), rests, whole) && OwnTurn(me, Script(0, rests.At(me)))
    requires h.side == me && HandshakeEvent(net.At(me), h) && h.cmd.io.WriteReady?
    requires NodeOk(net.At(me)) && Fair(net.At(me), h) && Calm(ConnOf(net.At(me).l.tr.session).rx)
    ensures Asleep(NetStep(net, h).At(me))
  {
    var n', o' := NetStep(net, h).At(me), NetStep(net, h).At(me.Other());
    HandshakeState(net.At(me), h);
    HereCalm(net.At(me), h);
    assert WellFrom(me, NetStep(net, h), rests, whole);
    SilentOnOwnTurn(me, n', rests.At(me), o', rests.At(me.Other()), whole);
    Finished(me, n'.End(), rests.At(me), WriteCall([]));
  }

  /** A doomed side stays doomed. */
  lemma {:induction false} StaysDoomed(me: Side, net: Net, rests: Rests, whole: seq<Tagged>, h: Happening)
    returns (rests': Rests)
    requires NetWell(net, rests, whole) && Enabled(net, h) && Calm(ConnOf(net.At(me).l.tr.session).rx)
    requires Doomed(me, net.At(me), Script(0, rests.At(me)))
    ensures NetWell(NetStep(net, h), rests', whole) && Calm(ConnOf(NetStep(net, h).At(me).l.tr.session).rx)
    ensures Doomed(me, NetStep(net, h).At(me), Script(0, rests'.At(me)))
  {
    if Asleep(net.At(me)) && OwnTurn(me, Script(0, rests.At(me))) {
      rests' := SleepsOn(me, net, rests, whole, h);
    } else {
      rests' := StaysToSpeakTwice(me, net, rests, whole, h);
    }
  }

  lemma {:induction false} StaysToSpeakTwice(me: Side, net: Net, rests: Rests, whole: seq<Tagged>, h: Happening)
    returns (rests': Rests)
    requires NetWell(net, rests, whole) && Enabled(net, h) && Calm(ConnOf(net.At(me).l.tr.session).rx)
    requires SpeaksTwice(me, Script(0, rests.At(me)))
    ensures NetWell(NetStep(net, h), rests', whole) && Calm(ConnOf(NetStep(net, h).At(me).l.tr.session).rx)
    ensures Doomed(me, NetStep(net, h).At(me), Script(0, rests'.At(me)))
  {
    var taken;
    NodesAreOk(me, net, rests, whole);
    rests', taken := NetStaysWell(net, h, rests, whole);
    if h.side == me {
      DoomedBySpeaking(me, net, Script(0, rests.At(me)), taken, rests', whole, h);
    } else {
      assert rests'.At(me) == rests.At(me);
    }
  }

  lemma {:induction false} DoomedBySpeaking(
      me: Side, net: Net, g: seq<Tagged>, taken: Taken, rests: Rests, whole: seq<Tagged>, h: Happening)
    requires SpeaksTwice(me, g) && Turned(me, net.At(me), h, g, Script(0, rests.At(me)), taken)
    requires NetWell(NetStep(net, h), rests, whole) && h.side == me
    requires NodeOk(net.At(me)) && Enabled(net, h) && Calm(ConnOf(net.At(me).l.tr.session).rx)
    ensures Doomed(me, NetStep(net, h).At(me), Script(0, rests.At(me)))
    ensures Calm(ConnOf(NetStep(net, h).At(me).l.tr.session).rx)
  {
    HereCalm(net.At(me), h);
    TwiceOrNow(me, g, taken, Script(0, rests.At(me)));
    if !SpeaksTwice(me, Script(0, rests.At(me))) { FallsAsleep(me, net, rests, whole, h); }
  }

  lemma {:induction false} DoomedIsNotActive(me: Side, net: Net, rests: Rests, whole: seq<Tagged>)
    requires NetWell(net, rests, whole) && Doomed(me, net.At(me), Script(0, rests.At(me)))
    ensures net.At(me).l.tr.state != Active
  {
    NodesAreOk(me, net, rests, whole);
    Finished(me, net.At(me).End(), rests.At(me), WriteCall([]));
  }

  lemma {:induction false} DoomedForever(me: Side, net: Net, rests: Rests, whole: seq<Tagged>, hs: seq<Happening>)
    requires NetWell(net, rests, whole) && EnabledPlay(net, hs) && Calm(ConnOf(net.At(me).l.tr.session).rx)
    requires Doomed(me, net.At(me), Script(0, rests.At(me)))
    ensures !BothActive(NetPlay(net, hs))
    decreases |hs|
  {
    if hs == [] {
      DoomedIsNotActive(me, net, rests, whole);
    } else {
      var r := StaysDoomed(me, net, rests, whole, hs[0]);
      DoomedForever(me, NetStep(net, hs[0]), r, whole, hs[1..]);
    }
  }

  // ---------- Progress ----------

  /** The initiator opens, and no side is to speak after it has spoken unasked. */
  predicate TakesTurns(whole: seq<Tagged>) {
    OwnTurn(Left, whole) && !SpeaksTwice(Left, whole) && !SpeaksTwice(Right, whole)
  }

  /** A side that asks to write whenever it is its turn, and is never to speak twice. */
  predicate Poised(me: Side, n: Node, g: seq<Tagged>) {
    && (n.l.tr.state == Handshake && OwnTurn(me, g) ==> n.l.tr.writeIntent)
    && !SpeaksTwice(me, g)
  }

  ghost predicate NetPoised(net: Net, rests: Rests) {
    forall s: Side :: Poised(s, net.At(s), Script(0, rests.At(s)))
  }

  lemma {:induction false} StaysPoised(me: Side, n: Node, h: Happening, g: seq<Tagged>, g': seq<Tagged>, taken: Taken)
    requires NodeOk(n) && Fair(n, h) && Turned(me, n, h, g, g', taken) && Poised(me, n, g)
    ensures Poised(me, Here(n, h), g')
  {
    StillOnce(me, g, taken, g');
    if HandshakeEvent(n, h) {
      HandshakeState(n, h);
      if OwnTurn(me, g') && h.cmd.io.WriteReady? { EventTurns(me, n, h, g, g', taken); }
    } else {
      OtherState(n, h);
      assert taken.Turns() == [];
    }
  }

  lemma {:induction false} StillOnce(me: Side, g: seq<Tagged>, taken: Taken, g': seq<Tagged>)
    requires taken.By(me) && g == taken.Turns() + g' && !SpeaksTwice(me, g)
    ensures !SpeaksTwice(me, g') && !(taken.said.Some? && taken.heard.None? && OwnTurn(me, g'))
  {
    if SpeaksTwice(me, g') || (taken.said.Some? && taken.heard.None? && OwnTurn(me, g')) {
      TwiceBefore(me, g, taken, g');
    }
  }

  /** It is a side's turn after a write event only if it has just spoken unasked. */
  lemma {:induction false} EventTurns(me: Side, n: Node, h: Happening, g: seq<Tagged>, g': seq<Tagged>, taken: Taken)
    requires HandshakeEvent(n, h) && Turned(me, n, h, g, g', taken) && OwnTurn(me, g') && h.cmd.io.WriteReady?
    ensures taken.said.Some? && taken.heard.None?
  {
    assert Taken(None, None).Turns() == [];
  }

  /** One fair step: both sides stay well, and poised if they were. */
  lemma {:induction false} NetStaysPoised(net: Net, h: Happening, rests: Rests, whole: seq<Tagged>)
    returns (rests': Rests, taken: Taken)
    requires NetWell(net, rests, whole) && Fair(net.At(h.side), h)
    ensures NetWell(NetStep(net, h), rests', whole)
    ensures rests' == rests.With(h.side, rests'.At(h.side))
    ensures Turned(h.side, net.At(h.side), h, Script(0, rests.At(h.side)), Script(0, rests'.At(h.side)), taken)
    ensures NetPoised(net, rests) ==> NetPoised(NetStep(net, h), rests')
  {
    NodesAreOk(h.side, net, rests, whole);
    rests', taken := NetStaysWell(net, h, rests, whole);
    if NetPoised(net, rests) { StepStaysPoised(net, h, rests, rests', taken); }
  }

  lemma {:induction false} StepStaysPoised(net: Net, h: Happening, rests: Rests, rests': Rests, taken: Taken)
    requires NodeOk(net.At(h.side)) && Fair(net.At(h.side), h) && NetPoised(net, rests)
    requires rests' == rests.With(h.side, rests'.At(h.side))
    requires Turned(h.side, net.At(h.side), h, Script(0, rests.At(h.side)), Script(0, rests'.At(h.side)), taken)
    ensures NetPoised(NetStep(net, h), rests')
  {
    var me := h.side;
    StaysPoised(me, net.At(me), h, Script(0, rests.At(me)), Script(0, rests'.At(me)), taken);
    forall s: Side ensures Poised(s, NetStep(net, h).At(s), Script(0, rests'.At(s))) {
      if s != me {
        assert s == me.Other() && rests'.At(s) == rests.At(s) && Poised(s, net.At(s), Script(0, rests.At(s)));
      }
    }
  }

  lemma {:induction false} NetPlayStaysPoised(net: Net, hs: seq<Happening>, rests: Rests, whole: seq<Tagged>)
    returns (rests': Rests)
    requires NetWell(net, rests, whole) && NetPoised(net, rests) && FairPlay(net, hs)
    ensures NetWell(NetPlay(net, hs), rests', whole) && NetPoised(NetPlay(net, hs), rests')
    decreases |hs|
  {
    if hs == [] {
      rests' := rests;
    } else {
      var r, _ := NetStaysPoised(net, hs[0], rests, whole);
      rests' := NetPlayStaysPoised(NetStep(net, hs[0]), hs[1..], r, whole);
    }
  }

  /** A transport that was not ended by a failure, and whose connection, if the handshake still needs
      it, takes what it is offered and has not torn any of the acts that are still to be heard. */
  predicate AbleNode(n: Node, acts: seq<Spoken>) {
    var c := ConnOf(n.l.tr.session);
    n.l.tr.state != Terminated && (n.l.tr.state == Handshake ==> Untorn(c.rx, 0, acts) && Willing(c.tx))
  }

  /** The acts of the peer that a side has not heard yet. */
  function ToHear(me: Side, n: Node, whole: seq<Tagged>): seq<Spoken> {
    var all, k := By(me.Other(), whole), |Heard(0, MachinesOf(n.l.tr.session))|;
    if k <= |all| then all[k..] else []
  }

  predicate Able(net: Net, whole: seq<Tagged>) {
    AbleNode(net.left, ToHear(Left, net.left, whole)) && AbleNode(net.right, ToHear(Right, net.right, whole))
  }

  /** What is still to be heard, by the position in the script. */
  function Coming(me: Side, rests: Rests): seq<Spoken> {
    By(me.Other(), Script(0, rests.At(me)))
  }

  ghost predicate AbleAt(net: Net, rests: Rests) {
    forall s: Side :: AbleNode(net.At(s), Coming(s, rests))
  }

  lemma {:induction false} AbleByPosition(net: Net, rests: Rests, whole: seq<Tagged>)
    requires NetWell(net, rests, whole) && Able(net, whole)
    ensures AbleAt(net, rests)
  {
    ComingIsToHear(Left, net, rests, whole);
    ComingIsToHear(Right, net, rests, whole);
    OnBothSides(net, rests);
  }

  lemma {:induction false} OnBothSides(net: Net, rests: Rests)
    requires AbleNode(net.left, Coming(Left, rests)) && AbleNode(net.right, Coming(Right, rests))
    ensures AbleAt(net, rests)
  {
    forall s: Side ensures AbleNode(net.At(s), Coming(s, rests)) {
      assert s == Left || s == Right;
    }
  }

  lemma {:induction false} ComingIsToHear(me: Side, net: Net, rests: Rests, whole: seq<Tagged>)
    requires NetWell(net, rests, whole)
    ensures ToHear(me, net.At(me), whole) == Coming(me, rests)
  {
    HeardAndComing(me, net, rests, whole);
    RemainsToHear(me, net.At(me), Coming(me, rests), whole);
  }

  lemma {:induction false} RemainsToHear(me: Side, n: Node, coming: seq<Spoken>, whole: seq<Tagged>)
    requires Heard(0, MachinesOf(n.l.tr.session)) + coming == By(me.Other(), whole)
    ensures ToHear(me, n, whole) == coming
  {
    Remains(Heard(0, MachinesOf(n.l.tr.session)), coming, By(me.Other(), whole));
  }

  lemma {:induction false} HeardAndComing(me: Side, net: Net, rests: Rests, whole: seq<Tagged>)
    requires NetWell(net, rests, whole)
    ensures Heard(0, MachinesOf(net.At(me).l.tr.session)) + Coming(me, rests) == By(me.Other(), whole)
  {
    StandsAt(me, net, rests, whole);
  }

  lemma {:induction false} StandsAt(me: Side, net: Net, rests: Rests, whole: seq<Tagged>)
    requires NetWell(net, rests, whole)
    ensures Stands(me, StandingOf(net.At(me).End(), rests.At(me)), whole) && Voiced(Script(0, rests.At(me)))
  {
    assert WellFrom(me, net, rests, whole);
    StillVoiced(whole, Script(0, rests.At(me)));
  }

  lemma {:induction false} StillVoiced(whole: seq<Tagged>, g: seq<Tagged>)
    requires Voiced(whole) && EndsWith(whole, g)
    ensures Voiced(g)
  {
    forall i | 0 <= i < |g| ensures g[i].turn.data != [] {
      assert g[i] == whole[|whole| - |g| + i];
    }
  }

  lemma {:induction false} Remains(done: seq<Spoken>, left: seq<Spoken>, all: seq<Spoken>)
    requires done + left == all
    ensures |done| <= |all| && all[|done|..] == left
  {
  }

  /** The happening takes a turn of the script, or it lets everything on its way arrive; or a read takes a
      `WouldBlock` away or makes a side that is to speak ask to write. */
  predicate Productive(me: Side, n: Node, g: seq<Tagged>, h: Happening) {
    var c := ConnOf(n.l.tr.session);
    if h.DeliverAt? then n.wire != [] && h.n == |n.wire|
    else
      && HandshakeEvent(n, h)
      && (Takes(me, g, c, IoCall(h.cmd.io))
          || (h.cmd.io.ReadReady? && if OwnTurn(me, g) then !n.l.tr.writeIntent else Blocks(c.rx) > 0))
  }

  /** What one side still has to do: turns to take, bytes to let arrive, refused reads to get over, and
      asking to write. */
  function Load(me: Side, n: Node, g: seq<Tagged>): nat {
    5 * |g| + Blocks(ConnOf(n.l.tr.session).rx) + (if n.wire == [] then 0 else 1)
    + (if OwnTurn(me, g) && !n.l.tr.writeIntent then 1 else 0)
  }

  function Work(net: Net, rests: Rests): nat {
    Load(Left, net.left, Script(0, rests.left)) + Load(Right, net.right, Script(0, rests.right))
  }

  predicate SleepsOnTurn(me: Side, net: Net, rests: Rests) {
    Asleep(net.At(me)) && OwnTurn(me, Script(0, rests.At(me)))
  }

  lemma {:induction false} SpeakingIsFair(n: Node, me: Side)
    requires NodeOk(n) && n.l.tr.state == Handshake && n.l.tr.writeIntent && Willing(ConnOf(n.l.tr.session).tx)
    ensures Fair(n, At(me, OnIo(WriteReady)))
  {
    var t := n.l.tr.session;
    if StackArtifact(Below(t), MachinesOf(t)).None? {
      WillingAbsorbs(ConnOf(t).tx, |Act(Below(t), MachinesOf(t), ConnOf(t), IoCall(WriteReady))|);
    }
  }

  lemma {:induction false} HearingIsFair(n: Node, me: Side)
    requires NodeOk(n) && n.l.tr.state == Handshake && Willing(ConnOf(n.l.tr.session).tx)
    requires var t := n.l.tr.session; StackArtifact(Below(t), MachinesOf(t)).None? ==>
               WholeIn(Need(Below(t), MachinesOf(t)), ConnOf(t).rx)
    ensures Fair(n, At(me, OnIo(ReadReady)))
  {
    var t := n.l.tr.session;
    if StackArtifact(Below(t), MachinesOf(t)).None? {
      WillingAbsorbs(ConnOf(t).tx, |Act(Below(t), MachinesOf(t), ConnOf(t), IoCall(ReadReady))|);
    }
  }

  /** In its handshake, on track with `rest`, and able. */
  ghost predicate Shaking(me: Side, n: Node, rest: seq<seq<Turn>>) {
    && NodeOk(n) && Party(me, n.End(), rest) && n.l.tr.state == Handshake
    && AbleNode(n, By(me.Other(), Script(0, rest)))
  }

  lemma {:induction false} StillInHandshake(me: Side, net: Net, rests: Rests, whole: seq<Tagged>)
    requires NetWell(net, rests, whole) && AbleNode(net.At(me), Coming(me, rests)) && Script(0, rests.At(me)) != []
    ensures Shaking(me, net.At(me), rests.At(me))
  {
    NodesAreOk(me, net, rests, whole);
    Finished(me, net.At(me).End(), rests.At(me), WriteCall([]));
  }

  /** A side that is to speak speaks, if it asks to write, and reads, if something has arrived. */
  lemma {:induction false} SpeakerCanMove(me: Side, n: Node, rest: seq<seq<Turn>>, net: Net) returns (h: Happening)
    requires Shaking(me, n, rest) && net.At(me) == n && OwnTurn(me, Script(0, rest))
    requires n.l.tr.writeIntent || ConnOf(n.l.tr.session).rx != []
    ensures h.side == me && Enabled(net, h) && Productive(me, n, Script(0, rest), h)
  {
    if n.l.tr.writeIntent {
      SpeakingIsFair(n, me);
      h := At(me, OnIo(WriteReady));
    } else {
      var t := n.l.tr.session;
      ScriptTells(0, me, Below(t), MachinesOf(t), rest);
      HearingIsFair(n, me);
      h := At(me, OnIo(ReadReady));
    }
  }

  /** A side whose peer's turn is available, or that is told that nothing is. */
  lemma {:induction false} HearerCanMove(me: Side, n: Node, rest: seq<seq<Turn>>, net: Net)
    requires Shaking(me, n, rest) && net.At(me) == n
    requires var g, rx := Script(0, rest), ConnOf(n.l.tr.session).rx;
             && g != [] && !OwnTurn(me, g) && g[0].turn.data != [] && rx != []
             && if Available(rx) == [] then Blocks(rx) > 0 else |g[0].turn.data| <= |Available(rx)|
    ensures var h := At(me, OnIo(ReadReady)); Enabled(net, h) && Productive(me, n, Script(0, rest), h)
  {
    var t := n.l.tr.session;
    ScriptTells(0, me, Below(t), MachinesOf(t), rest);
    HearingIsFair(n, me);
  }

  /** Otherwise what is missing is on its way. */
  lemma {:induction false} HearerIsServed(me: Side, n: Node, rest: seq<seq<Turn>>, net: Net) returns (h: Happening)
    requires Shaking(me, n, rest) && net.At(me) == n
    requires var g := Script(0, rest);
             g != [] && !OwnTurn(me, g) && g[0].turn.data != []
                 && g[0].turn.data <= Payload(ConnOf(n.l.tr.session).rx) + n.wire
    ensures h.side == me && Enabled(net, h) && Productive(me, n, Script(0, rest), h)
  {
    var g, rx, acts := Script(0, rest), ConnOf(n.l.tr.session).rx, By(me.Other(), Script(0, rest));
    assert acts[0].data == g[0].turn.data;
    if Available(rx) == [] {
      if Blocks(rx) == 0 { NothingArrived(rx, 0, acts); }
    } else {
      WholeOrAll(rx, 0, acts);
    }
    if rx != [] && (if Available(rx) == [] then Blocks(rx) > 0 else |g[0].turn.data| <= |Available(rx)|) {
      HearerCanMove(me, n, rest, net);
      h := At(me, OnIo(ReadReady));
    } else {
      h := DeliverAt(me, |n.wire|);
    }
  }

  /** Seen from one side that is to speak and does not sleep, or has something to hear. */
  lemma {:induction false} SideCanMove(me: Side, net: Net, rests: Rests, whole: seq<Tagged>)
    returns (h: Happening)
    requires NetWell(net, rests, whole) && AbleNode(net.At(me), Coming(me, rests)) && !SleepsOnTurn(me, net, rests)
    requires Script(0, rests.At(me)) != []
    requires OwnTurn(me, Script(0, rests.At(me))) || StandingOf(net.At(me).End(), rests.At(me)).incoming != []
    ensures h.side == me && Enabled(net, h) && Productive(me, net.At(me), Script(0, rests.At(me)), h)
  {
    StillInHandshake(me, net, rests, whole);
    if OwnTurn(me, Script(0, rests.At(me))) {
      WireIsSilent(me, net, rests, whole);
      h := SpeakerCanMove(me, net.At(me), rests.At(me), net);
    } else {
      WholeIncoming(me, net, rests, whole);
      h := HearerIsServed(me, net.At(me), rests.At(me), net);
    }
  }

  lemma {:induction false} WireIsSilent(me: Side, net: Net, rests: Rests, whole: seq<Tagged>)
    requires NetWell(net, rests, whole) && OwnTurn(me, Script(0, rests.At(me)))
    ensures net.At(me).wire == []
  {
    assert WellFrom(me, net, rests, whole);
    SilentOnOwnTurn(me, net.At(me), rests.At(me), net.At(me.Other()), rests.At(me.Other()), whole);
  }

  lemma {:induction false} WholeIncoming(me: Side, net: Net, rests: Rests, whole: seq<Tagged>)
    requires NetWell(net, rests, whole)
    requires var g := Script(0, rests.At(me));
        g != [] && !OwnTurn(me, g) && StandingOf(net.At(me).End(), rests.At(me)).incoming != []
    ensures Script(0, rests.At(me))[0].turn.data <= Payload(ConnOf(net.At(me).l.tr.session).rx) + net.At(me).wire
    ensures Script(0, rests.At(me))[0].turn.data != []
  {
    var other := me.Other();
    assert other.Other() == me;
    assert WellFrom(other, net, rests, whole);
    var p, q := StandingOf(net.At(me).End(), rests.At(me)), StandingOf(net.At(other).End(), rests.At(other));
    WhatArrives(other, q, p, whole);
    assert p.left[0] == whole[|whole| - |p.left|..][0];
  }

  /** No deadlock: while either side is not active, something productive is enabled, unless a side
      sleeps on its own turn. */
  lemma {:induction false} CanMove(net: Net, rests: Rests, whole: seq<Tagged>)
    returns (h: Happening)
    requires NetWell(net, rests, whole) && AbleAt(net, rests) && !BothActive(net)
    requires !SleepsOnTurn(Left, net, rests) && !SleepsOnTurn(Right, net, rests)
    ensures Enabled(net, h) && Productive(h.side, net.At(h.side), Script(0, rests.At(h.side)), h)
    ensures Script(0, rests.At(h.side)) != []
  {
    var p, q := StandingOf(net.left.End(), rests.left), StandingOf(net.right.End(), rests.right);
    SomeoneIsOpen(net, rests, whole);
    SomeoneCanMove(Left, p, q, whole);
    assert AbleNode(net.At(Left), Coming(Left, rests)) && AbleNode(net.At(Right), Coming(Right, rests));
    if p.left != [] && (p.left[0].turn.speaker == Left || p.incoming != []) {
      h := SideCanMove(Left, net, rests, whole);
    } else {
      h := SideCanMove(Right, net, rests, whole);
    }
  }

  lemma {:induction false} SomeoneIsOpen(net: Net, rests: Rests, whole: seq<Tagged>)
    requires NetWell(net, rests, whole) && AbleAt(net, rests) && !BothActive(net)
    ensures Script(0, rests.left) != [] || Script(0, rests.right) != []
    ensures Linked(Left, StandingOf(net.left.End(), rests.left), StandingOf(net.right.End(), rests.right), whole)
  {
    assert WellFrom(Left, net, rests, whole);
    NodesAreOk(Left, net, rests, whole);
    NodesAreOk(Right, net, rests, whole);
    assert AbleNode(net.At(Left), Coming(Left, rests)) && AbleNode(net.At(Right), Coming(Right, rests));
    Finished(Left, net.left.End(), rests.left, WriteCall([]));
    Finished(Right, net.right.End(), rests.right, WriteCall([]));
  }

  /** What an event leaves of what has arrived. */
  lemma {:induction false} EventLeaves(n: Node, h: Happening)
    requires NodeOk(n) && Fair(n, h) && HandshakeEvent(n, h)
    ensures var t, c' := n.l.tr.session, ConnOf(Here(n, h).l.tr.session);
            && StackArtifact(Below(t), MachinesOf(t)).None?
            && c'.rx == if h.cmd.io.ReadReady? then ConnOf(t).ReadExact(Need(Below(t), MachinesOf(t))).0.rx
                else ConnOf(t).rx
  {
    HandshakeMoves(n.l, h.cmd.io);
    var t := n.l.tr.session;
    StackLeaves(Below(t), MachinesOf(t), ConnOf(t), IoCall(h.cmd.io));
  }

  /** An event leaves the acts that are still to be heard untorn, and takes away the `WouldBlock` it is
      told, if it is told one. */
  lemma {:induction false} EventStaysUntorn(
      me: Side, n: Node, rest: seq<seq<Turn>>, h: Happening, rest': seq<seq<Turn>>, taken: Taken)
    requires Shaking(me, n, rest) && Fair(n, h) && HandshakeEvent(n, h) && Script(0, rest) != []
        && Voiced(Script(0, rest))
    requires Turned(me, n, h, Script(0, rest), Script(0, rest'), taken)
    ensures var rx, rx' := ConnOf(n.l.tr.session).rx, ConnOf(Here(n, h).l.tr.session).rx;
            && Untorn(rx', 0, By(me.Other(), Script(0, rest'))) && Blocks(rx') <= Blocks(rx)
            && (taken == Taken(None, None) && h.cmd.io.ReadReady? && !OwnTurn(me, Script(0, rest)) && Blocks(rx) > 0 ==>
                Blocks(rx') < Blocks(rx))
  {
    var t, g, g' := n.l.tr.session, Script(0, rest), Script(0, rest');
    var c, acts := ConnOf(t), By(me.Other(), g);
    EventLeaves(n, h);
    ScriptTells(0, me, Below(t), MachinesOf(t), rest);
    ByTaken(me, taken, g');
    if taken.heard.Some? {
      assert taken.heard.value == g[0] && acts == Spoke(taken.heard) + By(me.Other(), g');
      UntornHeard(c, acts);
      assert acts[1..] == By(me.Other(), g');
    } else {
      assert acts == By(me.Other(), g');
      if h.cmd.io.ReadReady? && !OwnTurn(me, g) { UntornWaited(c, |g[0].turn.data|, acts); }
    }
  }

  /** The side has less to do, by more than one delivery if it has sent something, and is able. */
  predicate Shrinks(me: Side, n: Node, g: seq<Tagged>, n': Node, g': seq<Tagged>) {
    && AbleNode(n', By(me.Other(), g'))
    && Load(me, n', g') < Load(me, n, g)
    && (News(ConnOf(n.l.tr.session), ConnOf(n'.l.tr.session)) != [] ==> Load(me, n', g') + 1 < Load(me, n, g))
  }

  lemma {:induction false} EventStaysAble(
      me: Side, n: Node, rest: seq<seq<Turn>>, h: Happening, rest': seq<seq<Turn>>, taken: Taken)
    requires Shaking(me, n, rest) && Fair(n, h) && HandshakeEvent(n, h) && Script(0, rest) != []
        && Voiced(Script(0, rest))
    requires Turned(me, n, h, Script(0, rest), Script(0, rest'), taken)
    ensures AbleNode(Here(n, h), By(me.Other(), Script(0, rest')))
    ensures Here(n, h).wire == n.wire && (h.cmd.io.ReadReady? ==> Here(n, h).l.tr.writeIntent)
  {
    UntornStops(ConnOf(n.l.tr.session).rx, 0, By(me.Other(), Script(0, rest)));
    EventStaysUntorn(me, n, rest, h, rest', taken);
    HereCalm(n, h);
    HandshakeState(n, h);
  }

  /** A productive event leaves the side less to do. */
  lemma {:induction false} EventShrinks(
      me: Side, n: Node, rest: seq<seq<Turn>>, h: Happening, rest': seq<seq<Turn>>, taken: Taken)
    requires Shaking(me, n, rest) && Fair(n, h) && HandshakeEvent(n, h) && Script(0, rest) != []
        && Voiced(Script(0, rest))
    requires Productive(me, n, Script(0, rest), h) && Turned(me, n, h, Script(0, rest), Script(0, rest'), taken)
    ensures Shrinks(me, n, Script(0, rest), Here(n, h), Script(0, rest'))
  {
    var g, g' := Script(0, rest), Script(0, rest');
    EventStaysAble(me, n, rest, h, rest', taken);
    EventStaysUntorn(me, n, rest, h, rest', taken);
    assert |g| == |taken.Turns()| + |g'|;
    if taken == Taken(None, None) { assert taken.Turns() == [] && g' == g; }
  }

  /** So does letting everything on its way arrive. */
  lemma {:induction false} DeliveryShrinks(me: Side, n: Node, rest: seq<seq<Turn>>, h: Happening)
    requires Shaking(me, n, rest) && h.DeliverAt? && n.wire != [] && h.n == |n.wire|
    ensures Shrinks(me, n, Script(0, rest), Here(n, h), Script(0, rest))
  {
    DeliversAll(n, h);
    UntornAppend(ConnOf(n.l.tr.session).rx, 0, By(me.Other(), Script(0, rest)), n.wire);
  }

  lemma {:induction false} DeliversAll(n: Node, h: Happening)
    requires h.DeliverAt? && n.wire != [] && h.n == |n.wire|
    ensures var n', c := Here(n, h), ConnOf(n.l.tr.session);
            && n'.wire == [] && n'.l.tr == n.l.tr.(session := n'.l.tr.session)
            && ConnOf(n'.l.tr.session) == c.(rx := c.rx + [Chunk(n.wire)])
  {
    assert n.wire[..|n.wire|] == n.wire && n.wire[|n.wire|..] == [];
  }

  lemma {:induction false} SideShrinks(
      me: Side, n: Node, rest: seq<seq<Turn>>, h: Happening, rest': seq<seq<Turn>>, taken: Taken)
    requires Shaking(me, n, rest) && Fair(n, h) && Script(0, rest) != [] && Voiced(Script(0, rest))
    requires Productive(me, n, Script(0, rest), h) && Turned(me, n, h, Script(0, rest), Script(0, rest'), taken)
    ensures Shrinks(me, n, Script(0, rest), Here(n, h), Script(0, rest'))
  {
    if h.DeliverAt? {
      assert taken.Turns() == [] && Script(0, rest') == Script(0, rest);
      DeliveryShrinks(me, n, rest, h);
    } else {
      EventShrinks(me, n, rest, h, rest', taken);
    }
  }

  /** Something productive leaves less to do, and the sides able. */
  lemma {:induction false} WorkShrinks(net: Net, h: Happening, rests: Rests, rests': Rests)
    requires AbleAt(net, rests) && rests' == rests.With(h.side, rests'.At(h.side))
    requires Shrinks(h.side, net.At(h.side), Script(0, rests.At(h.side)), Here(net.At(h.side), h),
        Script(0, rests'.At(h.side)))
    ensures AbleAt(NetStep(net, h), rests') && Work(NetStep(net, h), rests') < Work(net, rests)
  {
    OtherStaysAble(net, h, rests, rests');
    assert rests'.At(h.side.Other()) == rests.At(h.side.Other());
  }

  /** The other side is as able as it was, with at most one more delivery to wait for. */
  lemma {:induction false} OtherStaysAble(net: Net, h: Happening, rests: Rests, rests': Rests)
    requires AbleAt(net, rests) && rests' == rests.With(h.side, rests'.At(h.side))
    requires AbleNode(Here(net.At(h.side), h), Coming(h.side, rests'))
    ensures AbleAt(NetStep(net, h), rests')
    ensures var o, o' := net.At(h.side.Other()), NetStep(net, h).At(h.side.Other());
            var g := Script(0, rests.At(h.side.Other()));
            var c, c' := ConnOf(net.At(h.side).l.tr.session), ConnOf(Here(net.At(h.side), h).l.tr.session);
            Load(h.side.Other(), o', g) <= Load(h.side.Other(), o, g) + if News(c, c') == [] then 0 else 1
  {
    forall s: Side ensures AbleNode(NetStep(net, h).At(s), Coming(s, rests')) {
      if s != h.side { assert s == h.side.Other() && AbleNode(net.At(s), Coming(s, rests)); }
    }
  }

  /** From every well and able state enabled happenings, at most as many as there is work, lead to both
      sides active or to a side asleep on its own turn; not to the latter if the sides are poised. */
  lemma {:induction false} Settles(net: Net, rests: Rests, whole: seq<Tagged>)
    returns (hs: seq<Happening>, rests': Rests)
    requires NetWell(net, rests, whole) && AbleAt(net, rests)
    ensures EnabledPlay(net, hs) && |hs| <= Work(net, rests) && NetWell(NetPlay(net, hs), rests', whole)
    ensures BothActive(NetPlay(net, hs)) || SleepsOnTurn(Left, NetPlay(net, hs), rests')
        || SleepsOnTurn(Right, NetPlay(net, hs), rests')
    ensures NetPoised(net, rests) ==> NetPoised(NetPlay(net, hs), rests')
    decreases Work(net, rests)
  {
    if BothActive(net) || SleepsOnTurn(Left, net, rests) || SleepsOnTurn(Right, net, rests) {
      hs, rests' := [], rests;
    } else {
      var h, r := OneOn(net, rests, whole);
      var more;
      more, rests' := Settles(NetStep(net, h), r, whole);
      hs := [h] + more;
      assert hs[1..] == more;
    }
  }

  lemma {:induction false} OneOn(net: Net, rests: Rests, whole: seq<Tagged>)
    returns (h: Happening, rests': Rests)
    requires NetWell(net, rests, whole) && AbleAt(net, rests) && !BothActive(net)
    requires !SleepsOnTurn(Left, net, rests) && !SleepsOnTurn(Right, net, rests)
    ensures Enabled(net, h) && NetWell(NetStep(net, h), rests', whole) && AbleAt(NetStep(net, h), rests')
    ensures Work(NetStep(net, h), rests') < Work(net, rests)
    ensures NetPoised(net, rests) ==> NetPoised(NetStep(net, h), rests')
  {
    var taken;
    h := CanMove(net, rests, whole);
    assert AbleNode(net.At(h.side), Coming(h.side, rests));
    StillInHandshake(h.side, net, rests, whole);
    StandsAt(h.side, net, rests, whole);
    rests', taken := NetStaysPoised(net, h, rests, whole);
    SideShrinks(h.side, net.At(h.side), rests.At(h.side), h, rests'.At(h.side), taken);
    WorkShrinks(net, h, rests, rests');
  }

  lemma {:induction false} PoisedIsAwake(me: Side, net: Net, rests: Rests)
    requires NetPoised(net, rests)
    ensures !SleepsOnTurn(me, net, rests)
  {
    assert Poised(me, net.At(me), Script(0, rests.At(me)));
  }

  lemma {:induction false} StartsPoised(net: Net, dialogues: seq<seq<Turn>>)
    requires Start(net, dialogues) && TakesTurns(Script(0, dialogues))
    ensures NetPoised(net, Rests(dialogues, dialogues))
  {
    var g, r := Script(0, dialogues), Rests(dialogues, dialogues);
    forall s: Side ensures Poised(s, net.At(s), Script(0, r.At(s))) {
      assert Script(0, r.At(s)) == g;
    }
  }

  /** Enabled happenings can still bring both transports to `Active`. */
  ghost predicate CanComplete(net: Net) {
    exists hs :: EnabledPlay(net, hs) && BothActive(NetPlay(net, hs))
  }

  /** Deadlock freedom: if the initiator opens and no side is to speak after it has spoken unasked, then
      after any run of events within the interests, application writes, flushes, failed unwrappings,
      deliveries and disturbances, with whole acts, in which neither transport was ended by a failure,
      some finite sequence of enabled happenings brings both transports to `Active`. */
  lemma {:induction false} NeverStuck(net: Net, dialogues: seq<seq<Turn>>, hs: seq<Happening>)
    requires Start(net, dialogues) && TakesTurns(Script(0, dialogues))
    requires FairPlay(net, hs) && Able(NetPlay(net, hs), Script(0, dialogues))
    ensures CanComplete(NetPlay(net, hs))
  {
    var r := PlayedPoised(net, dialogues, hs);
    AbleByPosition(NetPlay(net, hs), r, Script(0, dialogues));
    PoisedCompletes(NetPlay(net, hs), r, Script(0, dialogues));
  }

  lemma {:induction false} PlayedPoised(net: Net, dialogues: seq<seq<Turn>>, hs: seq<Happening>) returns (rests: Rests)
    requires Start(net, dialogues) && TakesTurns(Script(0, dialogues)) && FairPlay(net, hs)
    ensures NetWell(NetPlay(net, hs), rests, Script(0, dialogues)) && NetPoised(NetPlay(net, hs), rests)
  {
    StartsWell(net, dialogues);
    StartsPoised(net, dialogues);
    rests := NetPlayStaysPoised(net, hs, Rests(dialogues, dialogues), Script(0, dialogues));
  }

  /** The core of it: over every such run, a transport in its handshake whose lowest incomplete machine
      waits for nothing asks to write. */
  lemma {:induction false} WaitsForNothingAsksToWrite(net: Net, dialogues: seq<seq<Turn>>, hs: seq<Happening>, me: Side)
    requires Start(net, dialogues) && TakesTurns(Script(0, dialogues)) && FairPlay(net, hs)
    ensures var tr := NetPlay(net, hs).At(me).l.tr;
            tr.state == Handshake ==>
              && ConnOf(tr.session).peer.Some? && StackArtifact(Below(tr.session), MachinesOf(tr.session)).None?
              && (Need(Below(tr.session), MachinesOf(tr.session)) == 0 ==> Interests(tr).write)
  {
    var r := PlayedPoised(net, dialogues, hs);
    if NetPlay(net, hs).At(me).l.tr.state == Handshake {
      PoisedAsksToWrite(me, NetPlay(net, hs), r, Script(0, dialogues));
    }
  }

  lemma {:induction false} PoisedAsksToWrite(me: Side, net: Net, rests: Rests, whole: seq<Tagged>)
    requires NetWell(net, rests, whole) && NetPoised(net, rests) && net.At(me).l.tr.state == Handshake
    ensures var tr := net.At(me).l.tr;
            && ConnOf(tr.session).peer.Some? && StackArtifact(Below(tr.session), MachinesOf(tr.session)).None?
            && (Need(Below(tr.session), MachinesOf(tr.session)) == 0 ==> Interests(tr).write)
  {
    NodesAreOk(me, net, rests, whole);
    var t, rest := net.At(me).l.tr.session, rests.At(me);
    assert Poised(me, net.At(me), Script(0, rest));
    ArtifactRefines(t);
    ScriptTells(0, me, Below(t), MachinesOf(t), rest);
    ScriptHasData(0, me, Below(t), MachinesOf(t), rest);
  }

  lemma {:induction false} PoisedCompletes(net: Net, rests: Rests, whole: seq<Tagged>)
    requires NetWell(net, rests, whole) && NetPoised(net, rests) && AbleAt(net, rests)
    ensures CanComplete(net)
  {
    var more, r := Settles(net, rests, whole);
    PoisedIsAwake(Left, NetPlay(net, more), r);
    PoisedIsAwake(Right, NetPlay(net, more), r);
  }

  // ---------- Otherwise the handshake is never completed ----------

  /** Unless the sides take turns in this way, one of them is doomed from the start. */
  lemma {:induction false} StartsDoomed(net: Net, dialogues: seq<seq<Turn>>) returns (me: Side)
    requires Start(net, dialogues) && !TakesTurns(Script(0, dialogues))
    ensures Doomed(me, net.At(me), Script(0, dialogues)) && Calm(ConnOf(net.At(me).l.tr.session).rx)
  {
    ResponderIsOpen(net, dialogues);
    me := if SpeaksTwice(Left, Script(0, dialogues)) then Left else Right;
  }

  lemma {:induction false} ResponderIsOpen(net: Net, dialogues: seq<seq<Turn>>)
    requires Start(net, dialogues)
    ensures Script(0, dialogues) != [] && Asleep(net.right)
  {
    BeginsParty(Right, net.right.End(), dialogues);
    Finished(Right, net.right.End(), dialogues, WriteCall([]));
  }

  lemma {:induction false} NeverFinishes(net: Net, dialogues: seq<seq<Turn>>, hs: seq<Happening>)
    requires Start(net, dialogues) && !TakesTurns(Script(0, dialogues)) && EnabledPlay(net, hs)
    ensures !BothActive(NetPlay(net, hs))
  {
    StartsWell(net, dialogues);
    var me := StartsDoomed(net, dialogues);
    DoomedForever(me, net, Rests(dialogues, dialogues), Script(0, dialogues), hs);
  }

  /** The transport at `me` never changes again, whatever is enabled at either side. */
  ghost predicate StuckAt(me: Side, net: Net) {
    && net.At(me).l.tr.state == Handshake
    && forall more :: EnabledPlay(net, more) ==> NetPlay(net, more).At(me) == net.At(me)
  }

  /** Reachable deadlock: from the constructors, enabled happenings lead to a transport that stays in
      its handshake for ever. */
  lemma {:induction false} GetsStuck(net: Net, dialogues: seq<seq<Turn>>) returns (hs: seq<Happening>, me: Side)
    requires Start(net, dialogues) && Able(net, Script(0, dialogues)) && !TakesTurns(Script(0, dialogues))
    ensures EnabledPlay(net, hs) && StuckAt(me, NetPlay(net, hs))
  {
    var whole, r := Script(0, dialogues), Rests(dialogues, dialogues);
    StartsWell(net, dialogues);
    var r';
    AbleByPosition(net, r, whole);
    hs, r' := Settles(net, r, whole);
    NeverFinishes(net, dialogues, hs);
    var net' := NetPlay(net, hs);
    me := if SleepsOnTurn(Left, net', r') then Left else Right;
    forall more | EnabledPlay(net', more) ensures NetPlay(net', more).At(me) == net'.At(me) {
      SleepsForever(me, net', r', whole, more);
    }
  }

  /** So two transports can complete the handshake if and only if the initiator opens and no side is to
      speak after it has spoken unasked. */
  lemma {:induction false} CompletesIffTakesTurns(net: Net, dialogues: seq<seq<Turn>>)
    requires Start(net, dialogues) && Able(net, Script(0, dialogues))
    ensures CanComplete(net) <==> TakesTurns(Script(0, dialogues))
  {
    if TakesTurns(Script(0, dialogues)) {
      NeverStuck(net, dialogues, []);
    } else if CanComplete(net) {
      var hs :| EnabledPlay(net, hs) && BothActive(NetPlay(net, hs));
      NeverFinishes(net, dialogues, hs);
    }
  }
}
