/** `NetTransport` as the object it is: its methods update the fields in place. A ghost ledger records
    the bytes accepted and the events returned, and every method says what it keeps of it. The 64 KB
    read buffer is scratch space and is left out. */
module Resource {
  import opened Io
  import opened Session
  import opened Stack
  import opened Discipline
  import opened T = Transports
  import opened Runs
  import opened Traffic
  import opened Effects

  class NetTransport {
    var state: State
    var session: Tower
    var writeIntent: bool
    var writeBuffer: Bytes
    ghost var accepted: Bytes
    ghost var events: seq<Event>

    function View(): Transport
      reads this
    {
      Transport(state, session, writeIntent, writeBuffer)
    }

    ghost function Book(): Ledger
      reads this
    {
      Ledger(View(), accepted, events)
    }

    /** A transport that is past its handshake, as its callers guarantee. */
    ghost predicate Running()
      reads this
    {
      Sound(View()) && state == Active
    }

    constructor Accept(session: Tower)
      ensures Book() == Ledger(T.Accept(session), [], []) && this.session == session
      ensures state == Handshake && !writeIntent && writeBuffer == []
      ensures Fresh(session) ==> (Sound(View()) <==> !Established(session)) && Inbound(Book()) && Outbound(Book())
    {
      this.state, this.session, this.writeIntent, this.writeBuffer := Handshake, session, false, [];
      accepted, events := [], [];
      new;
      if Fresh(session) { Opening(session); }
    }

    constructor WithSession(session: Tower)
      ensures Book() == Ledger(T.WithSession(session), [], []) && this.session == session
      ensures state == (if Established(session) then Active else Handshake) && writeIntent && writeBuffer == []
      ensures Fresh(session) ==> Sound(View()) && Inbound(Book()) && Outbound(Book())
    {
      this.state := if Established(session) then Active else Handshake;
      this.session, this.writeIntent, this.writeBuffer := session, true, [];
      accepted, events := [], [];
      new;
      if Fresh(session) { Opening(session); }
    }

    /** Offers the whole buffer to the connection: what it takes is gone from the front, and then bytes
        remain exactly if there is write intent; or the connection refused for good, and nothing changed. */
    method FlushBuffer() returns (res: Result<()>)
      modifies this
      ensures (View(), res) == T.FlushBuffer(old(View())) && accepted == old(accepted) && events == old(events)
      ensures BufferOffered(old(View()), View(), res)
    {
      ghost var before := View();
      var origLen := |writeBuffer|;
      var (session', put) := Write(session, writeBuffer);
      session := session';
      if put.Err? && !Retryable(put.error) {
        res := Err(put.error);
      } else {
        var len := if put.Ok? then put.value else 0;
        writeIntent := origLen > len;
        writeBuffer := writeBuffer[len..];
        res := Ok(());
      }
      assert (View(), res) == T.FlushBuffer(before);
      OffersBuffer(before);
    }

    /** Offers the buffer, then flushes the connection; keeps the partition of what was sent, the wake-up,
        and soundness. */
    method Flush() returns (res: Result<()>)
      modifies this
      ensures (View(), res) == T.Flush(old(View())) && accepted == old(accepted) && events == old(events)
      ensures Flushed(old(Book()), Book(), res)
    {
      ghost var before := Book();
      res := FlushBuffer();
      var (session', flushed) := Session.Flush(session);
      session := session';
      if flushed.Err? { res := flushed; }
      assert (View(), res) == T.Flush(before.tr);
      FlushesBuffer(before);
    }

    /** In the handshake reports nothing and leaves the buffer alone; when active moves a part of the
        buffer to the connection, and reports exactly the failure that ends the transport. */
    method HandleWritable() returns (event: Option<Event>)
      modifies this
      ensures (View(), event) == T.HandleWritable(old(View())) && accepted == old(accepted) && events == old(events)
      ensures WritableKeeps(old(View()), View(), event)
    {
      WritesInOrder(View());
      if !Established(session) {
        session := Write(session, []).0;
        writeIntent := true;
        return None;
      }
      var res := Flush();
      match res {
        case Ok(_) => return None;
        case Err(e) =>
          if Retryable(e) {
            writeIntent := true;
            return None;
          }
          state := Terminated;
          return Some(TerminatedBy(e));
      }
    }

    /** Before the session is established reports no data; afterwards reports exactly what it takes from
        the connection, and changes no machine and nothing that was sent or buffered. */
    method HandleReadable() returns (event: Option<Event>)
      modifies this
      ensures (View(), event) == T.HandleReadable(old(View())) && accepted == old(accepted) && events == old(events)
      ensures ReadableKeeps(old(View()), View(), event)
    {
      ReadsInOrder(View());
      var (session', got) := Read(session, READ_BUFFER_SIZE);
      session := session';
      match got {
        case Ok(data) =>
          if data == [] {
            return if Established(session) then Some(TerminatedBy(ConnectionReset)) else None;
          }
          return Some(Data(data));
        case Err(e) =>
          if e == WouldBlock { return None; }
          state := Terminated;
          return Some(TerminatedBy(e));
      }
    }

    /** Reports a termination exactly when it terminates. An event within the interests is legal after
        those before it, tells the new state, and keeps both partitions exactly if its acts are whole,
        and the wake-up. */
    method HandleIo(io: Ready) returns (event: Option<Event>)
      modifies this
      ensures (View(), event) == T.HandleIo(old(View()), io) && accepted == old(accepted)
      ensures EventKeeps(old(Book()), io, Book(), event)
    {
      ghost var before := Book();
      var forceWriteIntent := false;
      if state == Init {
        forceWriteIntent := true;
        state := Handshake;
      }
      if io.ReadReady? {
        event := HandleReadable();
      } else {
        event := HandleWritable();
      }
      event := Conclude(event, io, forceWriteIntent);
      events := events + if event.Some? then [event.value] else [];
      EveryEventKeeps(before, io);
    }

    /** The second half of `handle_io`. A session that is established ends the handshake, with an event that
        tells so; otherwise the response stands, and a reset outside the handshake is the end. */
    method Conclude(resp: Option<Event>, io: Ready, forceWriteIntent: bool) returns (event: Option<Event>)
      modifies this
      ensures (View(), event) == T.Conclude(old(View()), resp, io, forceWriteIntent)
      ensures session == old(session) && writeBuffer == old(writeBuffer)
      ensures accepted == old(accepted) && events == old(events)
      ensures old(state) == Handshake && Established(session) ==>
                state == Active && writeIntent && event == Some(EstablishedWith(ArtifactOf(session).value))
      ensures !(old(state) == Handshake && Established(session)) ==>
                && event == resp
                && (state != old(state) ==> state == Terminated && resp == Some(TerminatedBy(ConnectionReset)))
    {
      event := resp;
      if forceWriteIntent {
        writeIntent := true;
      } else if state == Handshake {
        writeIntent := io.ReadReady?;
      }
      if event == Some(TerminatedBy(ConnectionReset)) && state != Handshake {
        state := Terminated;
      } else if Established(session) && state == Handshake {
        writeIntent := true;
        state := Active;
        event := Some(EstablishedWith(ArtifactOf(session).value));
      }
    }

    /** Succeeds only when the buffer is gone, all of it to the connection; otherwise what is left is
        still to be sent. */
    method EmptyWriteBuf() returns (res: Result<bool>)
      modifies this
      ensures (View(), res) == T.EmptyWriteBuf(old(View())) && accepted == old(accepted) && events == old(events)
      ensures Emptied(old(Book()), Book(), res)
    {
      ghost var before := Book();
      var (session', put) := Write(session, writeBuffer);
      session := session';
      if put.Err? {
        res := Err(put.error);
      } else {
        writeBuffer := writeBuffer[put.value..];
        res := if |writeBuffer| > 0 then Err(WouldBlock) else Ok(put.value > 0);
      }
      assert (View(), res) == T.EmptyWriteBuf(before.tr);
      EmptiesBuffer(before);
    }

    /** Hands out the session only with every byte ever accepted passed to it in order; otherwise the
        transport still owes exactly what is in its buffer. */
    method IntoSession() returns (res: Result<Tower>)
      modifies this
      ensures accepted == old(accepted) && events == old(events)
      ensures T.IntoSession(old(View())) == if res.Ok? then Unwrapped(res.value) else Kept(View(), res.error)
      ensures old(Established(session)) ==> (res.Ok? <==> old(Empties(ConnOf(session), writeBuffer)))
      ensures old(Running() && Outbound(Book())) ==>
                && Sound(View()) && Outbound(Book()) && (old(Awake(View())) ==> Awake(View()))
                && (res.Ok? ==> res.value == session && ConnOf(session).sent == Outputs(MachinesOf(session)) + accepted)
    {
      ghost var before := Book();
      if Running() && Outbound(Book()) { UnwrapsOnlyWhenDrained(before); }
      var emptied := EmptyWriteBuf();
      if emptied.Err? { return Err(emptied.error); }
      assert accepted[..|accepted|] == accepted;
      return Ok(session);
    }

    /** Accepts the bytes, whatever the connection makes of them; fails exactly if it refuses for good. */
    method WriteOrBuf(buf: Bytes) returns (res: Result<()>)
      modifies this
      ensures (View(), res) == T.WriteOrBuf(old(View()), buf) && accepted == old(accepted) + buf
          && events == old(events)
      ensures old(Running()) ==>
                && (buf != [] ==> Offers(old(View()).(writeBuffer := old(writeBuffer) + buf), View(), res))
                && StepKeeps(old(Book()), WriteCmd(buf), Book())
                && (res.Err? <==> old(FatalWrite(View(), WriteCmd(buf))))
    {
      ghost var before := Book();
      if Running() {
        EveryStepKeeps(before, WriteCmd(buf));
        ActiveOffer(View().(writeBuffer := writeBuffer + buf));
      }
      accepted := accepted + buf;
      if buf == [] { return Ok(()); }
      writeBuffer := writeBuffer + buf;
      res := FlushBuffer();
    }
  }

  /** What `flush_buffer` promises: the whole buffer is offered; soundness and the bytes are kept; then bytes
      remain exactly if there is write intent, or the connection refused for good, and nothing changed. */
  ghost predicate BufferOffered(tr: Transport, tr': Transport, res: Result<()>) {
    && (Established(tr.session) ==> Offers(tr, tr', res))
    && (Sound(tr) && tr.state == Active ==>
        && Drained(tr, tr') && Established(tr'.session) && DisciplinedTower(tr'.session)
        && (res.Ok? ==> (tr'.writeIntent <==> tr'.writeBuffer != []))
        && (res.Err? ==>
            && !Retryable(res.error) && tr'.writeBuffer == tr.writeBuffer && tr'.writeIntent == tr.writeIntent
            && ConnOf(tr'.session).sent == ConnOf(tr.session).sent))
  }

  lemma {:induction false} OffersBuffer(tr: Transport)
    ensures BufferOffered(tr, T.FlushBuffer(tr).0, T.FlushBuffer(tr).1)
  {
    if Established(tr.session) { FlushBufferOffers(tr); }
    if Sound(tr) && tr.state == Active {
      ActiveOffer(tr);
      OfferDrains(tr);
    }
  }

  /** What `flush` promises: the buffer is offered and the connection flushed; soundness, the partition of
      what was sent and the wake-up are kept. */
  ghost predicate Flushed(l: Ledger, l': Ledger, res: Result<()>) {
    && (Established(l.tr.session) ==> OffersAndFlushes(l.tr, l'.tr, res))
    && (Sound(l.tr) && l.tr.state == Active ==> Drained(l.tr, l'.tr) && StepKeeps(l, FlushCmd, l'))
  }

  lemma {:induction false} FlushesBuffer(l: Ledger)
    ensures Flushed(l, l.(tr := T.Flush(l.tr).0), T.Flush(l.tr).1)
  {
    if Established(l.tr.session) { FlushOffers(l.tr); }
    if Sound(l.tr) && l.tr.state == Active {
      EveryStepKeeps(l, FlushCmd);
      WriteEventDrains(l.tr);
    }
  }

  /** What `empty_write_buf` promises: it succeeds exactly if the next write takes the whole buffer; what
      is left is still to be sent. */
  ghost predicate Emptied(l: Ledger, l': Ledger, res: Result<bool>) {
    var tr, tr' := l.tr, l'.tr;
    && (Established(tr.session) ==> EmptiesAs(tr, tr', res))
    && (Sound(tr) && tr.state == Active ==>
        && Drained(tr, tr') && Sound(tr')
        && (res.Ok? ==> tr'.writeBuffer == [] && ConnOf(tr'.session).sent == ConnOf(tr.session).sent + tr.writeBuffer)
        && (res.Ok? ==> (res.value <==> tr.writeBuffer != []))
        && (Outbound(l) ==> Outbound(l')))
  }

  lemma {:induction false} EmptiesBuffer(l: Ledger)
    ensures Emptied(l, l.(tr := T.EmptyWriteBuf(l.tr).0), T.EmptyWriteBuf(l.tr).1)
  {
    var l' := l.(tr := T.EmptyWriteBuf(l.tr).0);
    if Established(l.tr.session) { EmptyWriteBufExactly(l.tr); }
    if Sound(l.tr) && l.tr.state == Active {
      ActiveOffer(l.tr);
      OfferDrains(l.tr);
      DrainedMoves(l, l');
      if Outbound(l) { Rebalance(l, l', []); }
    }
  }

  /** What `handle_writable` promises: it reports exactly the failure that ends the transport; in the
      handshake it reports nothing and leaves the buffer alone; when active it moves a part of the buffer
      to the connection and keeps the intent to write what remains. */
  ghost predicate WritableKeeps(tr: Transport, tr': Transport, event: Option<Event>) {
    && (tr.state != Terminated ==> (event.Some? <==> tr'.state == Terminated) && (event.Some? ==> IsTermination(event)))
    && (Sound(tr) && tr.state == Handshake ==>
        event == None && tr'.state == Handshake && tr'.writeBuffer == [] && DisciplinedTower(tr'.session))
    && (Established(tr.session) && tr.state == Active ==> WriteEvent(tr, tr', event))
    && (Sound(tr) && tr.state == Active ==>
        && Drained(tr, tr') && DisciplinedTower(tr'.session) && Established(tr'.session)
        && (event == None && tr'.writeBuffer != [] ==> tr'.writeIntent)
        && (event.Some? ==> event.value.TerminatedBy? && !Retryable(event.value.reason)))
  }

  lemma {:induction false} WritesInOrder(tr: Transport)
    ensures WritableKeeps(tr, T.HandleWritable(tr).0, T.HandleWritable(tr).1)
  {
    if Established(tr.session) && tr.state == Active { WritableExactly(tr); }
    if Sound(tr) && tr.state == Handshake { CallKeepsSound(tr.session, WriteCall([])); }
    if Sound(tr) && tr.state == Active {
      ActiveWrite(tr);
      ActiveOffer(tr);
    }
  }

  /** What `handle_readable` promises: before the session is established it reports no data; afterwards
      it reports exactly what it takes from the connection, and changes no machine and nothing that was
      sent or buffered. */
  ghost predicate ReadableKeeps(tr: Transport, tr': Transport, event: Option<Event>) {
    var c, c' := ConnOf(tr.session), ConnOf(tr'.session);
    && (Sound(tr) && tr.state == Handshake ==>
        && DisciplinedTower(tr'.session) && tr'.writeBuffer == [] && !(event.Some? && event.value.Data?)
        && (IsTermination(event) && tr'.state != Terminated ==> Established(tr'.session)))
    && (Sound(tr) && tr.state == Active ==>
        && MachinesOf(tr'.session) == MachinesOf(tr.session) && DisciplinedTower(tr'.session)
        && c'.sent == c.sent && tr'.writeBuffer == tr.writeBuffer
        && c'.taken == c.taken + Reported(event) && event != Some(Data([])))
  }

  lemma {:induction false} ReadsInOrder(tr: Transport)
    ensures ReadableKeeps(tr, T.HandleReadable(tr).0, T.HandleReadable(tr).1)
  {
    if Sound(tr) && tr.state in {Handshake, Active} {
      CallKeepsSound(tr.session, ReadCall(READ_BUFFER_SIZE));
      CallDiscipline(tr.session, ReadCall(READ_BUFFER_SIZE));
    }
  }

  /** What `handle_io` promises: it records its event, which is a termination exactly if the transport
      has terminated; and if the event is within the interests of a sound transport, it keeps all that a
      step keeps, and is legal in the old state and tells the new one. */
  ghost predicate EventKeeps(l: Ledger, io: Ready, l': Ledger, event: Option<Event>) {
    && l'.events == l.events + (if event.Some? then [event.value] else [])
    && (l.tr.state != Terminated ==> (IsTermination(event) <==> l'.tr.state == Terminated))
    && (Sound(l.tr) && Allowed(l.tr, OnIo(io)) ==>
        && StepKeeps(l, OnIo(io), l')
        && (event.None? ==> l'.tr.state == l.tr.state)
        && (event.Some? ==>
            Grammatical(l.tr.state, [event.value]) && l'.tr.state == EndState(l.tr.state, [event.value])))
  }

  lemma {:induction false} EveryEventKeeps(l: Ledger, io: Ready)
    ensures var (tr', event) := T.HandleIo(l.tr, io);
            EventKeeps(l, io, Ledger(tr', l.accepted, l.events + if event.Some? then [event.value] else []), event)
  {
    if l.tr.state != Terminated { TerminatedIffReported(l.tr, io); }
    if Sound(l.tr) && Allowed(l.tr, OnIo(io)) {
      assert l.events + [] == l.events;
      EveryStepKeeps(l, OnIo(io));
      EventTellsState(l.tr, io);
    }
  }
}
