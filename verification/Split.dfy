/** Splitting a session into a reading and a writing half and joining them again (`SplitIo`).

    The two halves of a split hold duplicated handles of one socket, so the socket is kept apart
    from the halves and both act on it. A panic on joining is `None`. */
module Split {
  import opened Io
  import opened Connection
  import opened Machines
  import opened Session
  import opened Stack
  import opened Discipline

  datatype ReadHalf = TcpReader(id: nat) | NetReader(id: nat, reader: ReadHalf)

  datatype WriteHalf = TcpWriter(id: nat) | NetWriter(id: nat, state: Machine, writer: WriteHalf)

  datatype Halves = Halves(reader: ReadHalf, writer: WriteHalf, socket: Conn)

  datatype Splitting = Done(halves: Halves) | Failed(original: Tower, error: ErrorKind)

  /** `split_io`; `ids` are the random identifiers, outermost first, `clone` what `try_clone` answers. */
  function SplitIo(t: Tower, ids: seq<nat>, clone: Result<()>): Splitting
    requires |ids| == Depth(t) + 1
  {
    match t
    case Base(c) =>
      if clone.Err? then Failed(t, clone.error) else Done(Halves(TcpReader(ids[0]), TcpWriter(ids[0]), c))
    case Layer(m, s) =>
      match SplitIo(s, ids[1..], clone)
      case Failed(original, e) => Failed(Layer(m, original), e)
      case Done(h) => Done(Halves(NetReader(ids[0], h.reader), NetWriter(ids[0], m, h.writer), h.socket))
  }

  /** `from_split_io`. */
  function FromSplitIo(r: ReadHalf, w: WriteHalf, socket: Conn): Option<Tower> {
    if r.id != w.id then None
    else match (r, w)
      case (TcpReader(_), TcpWriter(_)) => Some(Base(socket))
      case (NetReader(_, reader), NetWriter(_, m, writer)) =>
        var s := FromSplitIo(reader, writer, socket);
        if s.None? then None else Some(Layer(m, s.value))
      case _ => None
  }

  /** `NetReader::read` and `TcpReader::read`. */
  function HalfRead(r: ReadHalf, socket: Conn, n: nat): (Conn, Result<Bytes>) {
    if r.TcpReader? then socket.Read(n) else HalfRead(r.reader, socket, n)
  }

  /** `NetWriter::write` and `TcpWriter::write`. */
  function HalfWrite(w: WriteHalf, socket: Conn, buf: Bytes): (Conn, Result<nat>) {
    if w.TcpWriter? then socket.Write(buf) else HalfWrite(w.writer, socket, buf)
  }

  function HalvesDo(h: Halves, call: Call): (Halves, Reply) {
    match call
    case ReadCall(n) => var (c, r) := HalfRead(h.reader, h.socket, n); (h.(socket := c), Got(r))
    case WriteCall(buf) => var (c, r) := HalfWrite(h.writer, h.socket, buf); (h.(socket := c), Put(r))
  }

  /** A failed split gives back the session it was given, intact at every level. */
  lemma {:induction false} FailedSplitIsIntact(t: Tower, ids: seq<nat>, e: ErrorKind)
    requires |ids| == Depth(t) + 1
    ensures SplitIo(t, ids, Err(e)) == Failed(t, e)
  {
    if t.Base? {
    } else {
      FailedSplitIsIntact(t.session, ids[1..], e);
    }
  }

  /** The reading half of one split joins the writing half of another of the same session exactly
      when the identifiers agree at every level; so splitting and joining gives the session back. */
  lemma {:induction false} JoinsItsOwn(t: Tower, ids: seq<nat>, ids': seq<nat>, socket: Conn)
    requires |ids| == Depth(t) + 1 == |ids'|
    ensures SplitIo(t, ids, Ok(())).Done? && SplitIo(t, ids', Ok(())).Done?
    ensures var h, h' := SplitIo(t, ids, Ok(())).halves, SplitIo(t, ids', Ok(())).halves;
            && h.socket == ConnOf(t)
            && FromSplitIo(h.reader, h'.writer, socket) == if ids == ids' then Some(WithConn(t, socket)) else None
  {
    if t.Layer? {
      JoinsItsOwn(t.session, ids[1..], ids'[1..], socket);
      assert ids == [ids[0]] + ids[1..] && ids' == [ids'[0]] + ids'[1..];
    } else {
      assert ids == [ids[0]] && ids' == [ids'[0]];
    }
  }

  lemma {:induction false} SplitThenJoin(t: Tower, ids: seq<nat>)
    requires |ids| == Depth(t) + 1
    ensures SplitIo(t, ids, Ok(())).Done?
    ensures var h := SplitIo(t, ids, Ok(())).halves; FromSplitIo(h.reader, h.writer, h.socket) == Some(t)
  {
    JoinsItsOwn(t, ids, ids, ConnOf(t));
    WithConnTwice(t, ConnOf(t), ConnOf(t));
  }

  lemma {:induction false} HalvesAreTheSocket(r: ReadHalf, w: WriteHalf, socket: Conn, n: nat, buf: Bytes)
    ensures HalfRead(r, socket, n) == socket.Read(n)
    ensures HalfWrite(w, socket, buf) == socket.Write(buf)
    decreases r, w
  {
    if r.NetReader? {
      HalvesAreTheSocket(r.reader, w, socket, n, buf);
    } else if w.NetWriter? {
      HalvesAreTheSocket(r, w.writer, socket, n, buf);
    }
  }

  function HalvesAfter(h: Halves, calls: seq<Call>): Halves
    decreases |calls|
  {
    if calls == [] then h else HalvesAfter(HalvesDo(h, calls[0]).0, calls[1..])
  }

  /** The answers of a run of calls on the halves, and on the session. */
  function HalvesReplies(h: Halves, calls: seq<Call>): seq<Reply>
    decreases |calls|
  {
    if calls == [] then []
    else var (h', r) := HalvesDo(h, calls[0]); [r] + HalvesReplies(h', calls[1..])
  }

  function TowerReplies(t: Tower, calls: seq<Call>): seq<Reply>
    decreases |calls|
  {
    if calls == [] then []
    else var (t', r) := TowerDo(t, calls[0]); [r] + TowerReplies(t', calls[1..])
  }

  /** Over any run of reads and writes the halves of an established session answer as the session
      would have, and joining them afterwards gives the session as that run would have left it. */
  lemma {:induction false} HalvesFollow(t: Tower, h: Halves, calls: seq<Call>)
    requires Established(t) && h.socket == ConnOf(t)
    requires forall c: Conn :: FromSplitIo(h.reader, h.writer, c) == Some(WithConn(t, c))
    ensures HalvesReplies(h, calls) == TowerReplies(t, calls)
    ensures var h' := HalvesAfter(h, calls); FromSplitIo(h'.reader, h'.writer, h'.socket) == Some(After(t, calls))
    decreases |calls|
  {
    if calls == [] {
      WithConnTwice(t, ConnOf(t), ConnOf(t));
    } else {
      var call := calls[0];
      var n, buf := if call.ReadCall? then call.n else 0, if call.WriteCall? then call.buf else [];
      HalvesAreTheSocket(h.reader, h.writer, h.socket, n, buf);
      var t1 := TowerDo(t, call).0;
      ArtifactIgnoresTraffic(t, ConnOf(t1));
      assert t1 == WithConn(t, ConnDo(ConnOf(t), call).0);
      forall c: Conn ensures WithConn(t1, c) == WithConn(t, c) { WithConnTwice(t, ConnOf(t1), c); }
      HalvesFollow(t1, HalvesDo(h, call).0, calls[1..]);
    }
  }

  /** The same from the split itself. */
  lemma {:induction false} SplitBehavesAsSession(t: Tower, ids: seq<nat>, calls: seq<Call>)
    requires |ids| == Depth(t) + 1 && Established(t)
    ensures SplitIo(t, ids, Ok(())).Done?
    ensures var h := SplitIo(t, ids, Ok(())).halves; var h' := HalvesAfter(h, calls);
            && HalvesReplies(h, calls) == TowerReplies(t, calls)
            && FromSplitIo(h'.reader, h'.writer, h'.socket) == Some(After(t, calls))
  {
    forall c: Conn
      ensures SplitIo(t, ids, Ok(())).Done?
      ensures var h := SplitIo(t, ids, Ok(())).halves;
              h.socket == ConnOf(t) && FromSplitIo(h.reader, h.writer, c) == Some(WithConn(t, c))
    {
      JoinsItsOwn(t, ids, ids, c);
    }
    JoinsItsOwn(t, ids, ids, ConnOf(t));
    HalvesFollow(t, SplitIo(t, ids, Ok(())).halves, calls);
  }

  /** The reading half answers a read of the socket `c` as the session over it would. */
  ghost predicate ReadsAlike(t: Tower, r: ReadHalf, c: Conn, n: nat) {
    HalfRead(r, c, n).1 == Read(WithConn(t, c), n).1
  }

  /** Halves bypass the handshake: they read what the session would have read, whatever arrives, if
      and only if the session was established when it was split. */
  lemma {:induction false} HalvesAgreeIffEstablished(t: Tower, r: ReadHalf)
    requires ConnOf(t).peer.Some?
    ensures Established(t) <==> forall c: Conn, n: nat :: c.peer == ConnOf(t).peer ==> ReadsAlike(t, r, c, n)
  {
    if Established(t) {
      forall c: Conn, n: nat | c.peer == ConnOf(t).peer ensures ReadsAlike(t, r, c, n) {
        HalvesAreTheSocket(r, TcpWriter(0), c, n, []);
        ArtifactIgnoresTraffic(t, c);
      }
    } else {
      var c := ConnOf(t).(rx := [Chunk([0])]);
      HalvesAreTheSocket(r, TcpWriter(0), c, 1, []);
      ArtifactIgnoresTraffic(t, c);
      CallDiscipline(WithConn(t, c), ReadCall(1));
      assert c.Read(1).1 == Ok([0]);
      assert !ReadsAlike(t, r, c, 1);
    }
  }

  /** The writing half answers a write to the socket `c` as the session over it would. */
  ghost predicate WritesAlike(t: Tower, w: WriteHalf, c: Conn, buf: Bytes) {
    HalfWrite(w, c, buf).1 == Write(WithConn(t, c), buf).1
  }

  /** They write what the session would have written, whatever the socket takes, under the same
      condition. */
  lemma {:induction false} HalvesWriteIffEstablished(t: Tower, w: WriteHalf)
    requires DisciplinedTower(t) && Outspoken(MachinesOf(t))
    ensures Established(t) <==> forall c: Conn, buf: Bytes :: c.peer == ConnOf(t).peer ==> WritesAlike(t, w, c, buf)
  {
    if Established(t) {
      forall c: Conn, buf: Bytes | c.peer == ConnOf(t).peer ensures WritesAlike(t, w, c, buf) {
        HalvesAreTheSocket(TcpReader(0), w, c, 0, buf);
        ArtifactIgnoresTraffic(t, c);
      }
    } else {
      var c := ConnOf(t).(tx := []);
      HalvesAreTheSocket(TcpReader(0), w, c, 0, [0]);
      ArtifactIgnoresTraffic(t, c);
      MachinesIgnoreConn(t, c);
      HandshakeRefusesWrites(WithConn(t, c), [0]);
      assert !WritesAlike(t, w, c, [0]);
    }
  }
}
