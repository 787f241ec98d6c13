/** What the operations of an established transport do to its connection: exactly which bytes move, which
    errors pass and which end it, by what the connection answers next. */
module Effects {
  import opened Io
  import opened Connection
  import opened Session
  import opened Stack
  import opened Transports
  import opened Runs

  /** Nothing has changed but what was sent and what the connection answers next. */
  ghost predicate OnlySends(t: Tower, t': Tower) {
    var c, c' := ConnOf(t), ConnOf(t');
    && MachinesOf(t') == MachinesOf(t) && ArtifactOf(t') == ArtifactOf(t)
    && c'.peer == c.peer && c'.rx == c.rx && c'.taken == c.taken
    && c'.tx == if c.tx == [] then [] else c.tx[1..]
  }

  /** The whole buffer is offered once. What the connection takes is gone from its front, and there is
      write intent exactly for what remains. A refusal moves nothing: `WouldBlock`, `OutOfMemory`,
      `WriteZero` and `Interrupted` pass, every other one is reported and leaves the intent alone. */
  ghost predicate Offers(tr: Transport, tr': Transport, res: Result<()>) {
    var c, c', b := ConnOf(tr.session), ConnOf(tr'.session), tr.writeBuffer;
    var k := Share(c.tx, |b|);
    && tr'.state == tr.state && OnlySends(tr.session, tr'.session)
    && c'.sent == c.sent + b[..k] && tr'.writeBuffer == b[k..]
    && if TakesNext(c) then res.Ok? && (tr'.writeIntent <==> k < |b|)
       else
         var e := c.tx[0].kind;
         if e == WouldBlock || e == OutOfMemory || e == WriteZero || e == Interrupted
         then res.Ok? && (tr'.writeIntent <==> b != [])
         else res == Err(e) && tr'.writeIntent == tr.writeIntent
  }

  lemma {:induction false} WriteSends(t: Tower, b: Bytes)
    requires Established(t)
    ensures var (t', put) := Write(t, b); var c := ConnOf(t); var k := Share(c.tx, |b|);
            && OnlySends(t, t') && ConnOf(t').sent == c.sent + b[..k] && ConnOf(t').flushes == c.flushes
            && put == if TakesNext(c) then Ok(k) else Err(c.tx[0].kind)
  {
    var c := ConnOf(t);
    ArtifactIgnoresTraffic(t, c.Write(b).0);
    MachinesIgnoreConn(t, c.Write(b).0);
    WriteShares(c, b);
  }

  lemma {:induction false} FlushBufferOffers(tr: Transport)
    requires Established(tr.session)
    ensures Offers(tr, FlushBuffer(tr).0, FlushBuffer(tr).1)
  {
    WriteSends(tr.session, tr.writeBuffer);
  }

  /** `write_or_buf` offers what was buffered and the new bytes behind it. */
  lemma {:induction false} WriteOrBufOffers(tr: Transport, buf: Bytes)
    requires Established(tr.session)
    ensures var (tr', res) := WriteOrBuf(tr, buf);
            if buf == [] then tr' == tr && res.Ok? else Offers(tr.(writeBuffer := tr.writeBuffer + buf), tr', res)
  {
    if buf != [] { FlushBufferOffers(tr.(writeBuffer := tr.writeBuffer + buf)); }
  }

  /** `flush` offers the buffer, then flushes the connection whatever came of that; a failure to flush is
      reported rather than a refusal. */
  ghost predicate OffersAndFlushes(tr: Transport, tr': Transport, res: Result<()>) {
    var c := ConnOf(tr.session);
    && ConnOf(tr'.session).flushes == (if c.flushes == [] then [] else c.flushes[1..])
    && exists offered :: Offers(tr, tr', offered) && res == if NextFlush(c).Err? then NextFlush(c) else offered
  }

  lemma {:induction false} FlushOffers(tr: Transport)
    requires Established(tr.session)
    ensures OffersAndFlushes(tr, Transports.Flush(tr).0, Transports.Flush(tr).1)
  {
    var (tr1, offered) := FlushBuffer(tr);
    WriteSends(tr.session, tr.writeBuffer);
    FlushBufferOffers(tr);
    FlushKeepsSound(tr1.session);
    assert Offers(tr, Transports.Flush(tr).0, offered);
  }

  /** A write event on an active transport: what it moves, and what ends it. */
  ghost predicate WriteEvent(tr: Transport, tr': Transport, event: Option<Event>) {
    var c, c', b := ConnOf(tr.session), ConnOf(tr'.session), tr.writeBuffer;
    var k := Share(c.tx, |b|);
    && OnlySends(tr.session, tr'.session) && c'.sent == c.sent + b[..k] && tr'.writeBuffer == b[k..]
    && if NextFlush(c).Ok? && TakesNext(c) then
         event == None && tr'.state == Active && (tr'.writeIntent <==> k < |b|)
       else
         var e := if NextFlush(c).Err? then NextFlush(c).error else c.tx[0].kind;
         if e == WouldBlock || e == OutOfMemory || e == WriteZero || e == Interrupted
         then event == None && tr'.state == Active && (tr'.writeIntent <==> NextFlush(c).Err? || b != [])
         else event == Some(TerminatedBy(e)) && tr'.state == Terminated
  }

  lemma {:induction false} WriteEventExactly(tr: Transport)
    requires Established(tr.session) && tr.state == Active
    ensures WriteEvent(tr, HandleIo(tr, WriteReady).0, HandleIo(tr, WriteReady).1)
  {
    FlushOffers(tr);
    WritableExactly(tr);
    var (tr1, event) := HandleWritable(tr);
    assert event != Some(TerminatedBy(ConnectionReset)) ==> HandleIo(tr, WriteReady) == (tr1, event);
  }

  /** The same of `handle_writable` alone. */
  lemma {:induction false} WritableExactly(tr: Transport)
    requires Established(tr.session) && tr.state == Active
    ensures WriteEvent(tr, HandleWritable(tr).0, HandleWritable(tr).1)
  {
    FlushOffers(tr);
    var (tr1, res) := Transports.Flush(tr);
    var offered :| Offers(tr, tr1, offered)
                   && res == if NextFlush(ConnOf(tr.session)).Err? then NextFlush(ConnOf(tr.session)) else offered;
  }

  /** A read event on an active transport: `WouldBlock` passes, an empty read is the peer's reset, every
      other error ends it, and bytes that have arrived are taken, as many as fit, and reported. */
  lemma {:induction false} ReadEventExactly(tr: Transport)
    requires Established(tr.session) && tr.state == Active
    ensures var (tr', event) := HandleIo(tr, ReadReady); var c, c' := ConnOf(tr.session), ConnOf(tr'.session);
            && MachinesOf(tr'.session) == MachinesOf(tr.session) && ArtifactOf(tr'.session) == ArtifactOf(tr.session)
            && c' == c.(rx := c'.rx, taken := c'.taken) && Stream(c') == Stream(c)
            && tr'.writeIntent == tr.writeIntent && tr'.writeBuffer == tr.writeBuffer
            && if c.rx == [] then event == None && tr' == tr
               else match c.rx[0]
                 case RxErr(e) =>
                   && c'.rx == c.rx[1..] && c'.taken == c.taken
                   && (e == WouldBlock ==> event == None && tr'.state == Active)
                   && (e != WouldBlock ==> event == Some(TerminatedBy(e)) && tr'.state == Terminated)
                 case Chunk(data) =>
                   if data == [] then event == Some(TerminatedBy(ConnectionReset)) && tr'.state == Terminated
                   else
                     var got := if |data| <= READ_BUFFER_SIZE then data else data[..READ_BUFFER_SIZE];
                     event == Some(Data(got)) && tr'.state == Active && c'.taken == c.taken + got
  {
    var c := ConnOf(tr.session);
    ArtifactIgnoresTraffic(tr.session, c.Read(READ_BUFFER_SIZE).0);
    MachinesIgnoreConn(tr.session, c.Read(READ_BUFFER_SIZE).0);
    ReadKeepsStream(c, READ_BUFFER_SIZE);
    WithConnTwice(tr.session, c, c);
  }

  /** The whole buffer goes in the next write. */
  predicate Empties(c: Conn, b: Bytes) {
    c.tx == [] || (c.tx[0].Take? && c.tx[0].limit >= |b|)
  }

  /** `empty_write_buf` succeeds exactly if the next write takes the whole buffer, and tells whether there
      was one; otherwise the error is `WouldBlock` after a short write, or that of the refusal. */
  ghost predicate EmptiesAs(tr: Transport, tr': Transport, res: Result<bool>) {
    var c, c', b := ConnOf(tr.session), ConnOf(tr'.session), tr.writeBuffer;
    var k := Share(c.tx, |b|);
    && tr' == tr.(session := tr'.session, writeBuffer := b[k..])
    && OnlySends(tr.session, tr'.session) && c'.sent == c.sent + b[..k]
    && res == if Empties(c, b) then Ok(b != []) else if TakesNext(c) then Err(WouldBlock) else Err(c.tx[0].kind)
  }

  lemma {:induction false} EmptyWriteBufExactly(tr: Transport)
    requires Established(tr.session)
    ensures EmptiesAs(tr, EmptyWriteBuf(tr).0, EmptyWriteBuf(tr).1)
  {
    WriteSends(tr.session, tr.writeBuffer);
    assert tr.writeBuffer[0..] == tr.writeBuffer;
  }

  /** `into_session` hands out the session if and only if the next write takes the whole buffer. */
  lemma {:induction false} UnwrapsIffEmptied(tr: Transport)
    requires Established(tr.session)
    ensures var c := ConnOf(tr.session);
            match IntoSession(tr)
            case Unwrapped(s) => Empties(c, tr.writeBuffer) && ConnOf(s).sent == c.sent + tr.writeBuffer
            case Kept(tr', e) =>
              !Empties(c, tr.writeBuffer) && e == if TakesNext(c) then WouldBlock else c.tx[0].kind
  {
    EmptyWriteBufExactly(tr);
    assert tr.writeBuffer[..|tr.writeBuffer|] == tr.writeBuffer;
  }
}
