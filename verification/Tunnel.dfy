/** The two-way relay (`Tunnel::tunnel_once`) between a local stream and a session.

    Accepting the connection and setting socket options are left out: the relay starts with the
    local stream. What the poller reports is data, as is what the sockets answer. */
module Tunnels {
  import opened Io
  import opened Connection
  import opened Session
  import opened Stack
  import opened Discipline

  datatype Source = Local | Remote

  datatype Report = Ready(read: bool, write: bool) | Connectivity | Os

  /** One `poll`: it fails, or it has a batch of reports; an empty batch is a timeout. */
  datatype Poll = PollErr(kind: ErrorKind) | Batch(reports: seq<(Source, Report)>)

  /** What has crossed: bytes got from and put to either side, and the buffers offered to writes. */
  datatype Log = Log(fromLocal: Bytes, toRemote: Bytes, fromRemote: Bytes, toLocal: Bytes, offered: seq<Bytes>)

  datatype Relay = Relay(
    stream: Conn,
    session: Tower,
    inBuf: Bytes,
    outBuf: Bytes,
    inCount: nat,
    outCount: nat,
    localWrite: bool,
    remoteWrite: bool,
    log: Log)

  type Counts = (nat, nat)

  /** Whether the relay goes on. */
  datatype Verdict = Go | Over(result: Result<Counts>)

  function Open(stream: Conn, session: Tower): Relay {
    Relay(stream, session, [], [], 0, 0, false, false, Log([], [], [], [], []))
  }

  function WriteLocal(r: Relay): (Relay, Verdict) {
    var (stream, put) := r.stream.Write(r.inBuf);
    var r1 := r.(stream := stream, log := r.log.(offered := r.log.offered + [r.inBuf]));
    match put
    case Err(e) => (r1, Over(Err(e)))
    case Ok(k) =>
      if k == 0 then (r1, Over(Ok((r.inCount, r.outCount))))
      else
        var (stream', flushed) := stream.Flush();
        var r2 := r1.(stream := stream', log := r1.log.(toLocal := r.log.toLocal + r.inBuf[..k]));
        if flushed.Err? then (r2, Over(Err(flushed.error)))
        else
          var rest := r.inBuf[k..];
          (r2.(inBuf := rest, inCount := r.inCount + k, localWrite := r.localWrite && rest != []), Go)
  }

  function ReadLocal(r: Relay): (Relay, Verdict) {
    var (stream, got) := r.stream.Read(READ_BUFFER_SIZE);
    var r1 := r.(stream := stream);
    match got
    case Err(e) => (r1, Over(Err(e)))
    case Ok(data) =>
      if data == [] then (r1, Over(Ok((r.inCount, r.outCount))))
      else (r1.(outBuf := r.outBuf + data, remoteWrite := true, log := r.log.(fromLocal := r.log.fromLocal + data)), Go)
  }

  function WriteRemote(r: Relay): (Relay, Verdict) {
    var (session, put) := Write(r.session, r.outBuf);
    var r1 := r.(session := session, log := r.log.(offered := r.log.offered + [r.outBuf]));
    match put
    case Err(e) => (r1, Over(Err(e)))
    case Ok(k) =>
      if k == 0 then (r1, Over(Ok((r.inCount, r.outCount))))
      else
        var (session', flushed) := Flush(session);
        var r2 := r1.(session := session', log := r1.log.(toRemote := r.log.toRemote + r.outBuf[..k]));
        if flushed.Err? then (r2, Over(Err(flushed.error)))
        else
          var rest := r.outBuf[k..];
          (r2.(outBuf := rest, outCount := r.outCount + k, remoteWrite := r.remoteWrite && rest != []), Go)
  }

  function ReadRemote(r: Relay): (Relay, Verdict) {
    var (session, got) := Read(r.session, READ_BUFFER_SIZE);
    var r1 := r.(session := session);
    match got
    case Err(e) => (r1, Over(Err(e)))
    case Ok(data) =>
      if data == [] then (r1, Over(Ok((r.inCount, r.outCount))))
      else (r1.(inBuf := r.inBuf + data, localWrite := true, log := r.log.(fromRemote := r.log.fromRemote + data)), Go)
  }

  /** One report: the write first, then the read. */
  function OnReport(r: Relay, source: Source, report: Report): (Relay, Verdict) {
    match report
    case Connectivity => (r, Over(Ok((r.inCount, r.outCount))))
    case Os => (r, Over(Err(BrokenPipe)))
    case Ready(read, write) =>
      var (r1, v) := if !write then (r, Go) else if source == Local then WriteLocal(r) else WriteRemote(r);
      if v.Over? || !read then (r1, v)
      else if source == Local then ReadLocal(r1) else ReadRemote(r1)
  }

  function OnBatch(r: Relay, reports: seq<(Source, Report)>): (Relay, Verdict)
    decreases |reports|
  {
    if reports == [] then (r, Go)
    else
      var (r1, v) := OnReport(r, reports[0].0, reports[0].1);
      if v.Over? then (r1, v) else OnBatch(r1, reports[1..])
  }

  /** The poller reports readiness only within the interests at the time of the poll. */
  function Masked(localWrite: bool, remoteWrite: bool, reports: seq<(Source, Report)>): seq<(Source, Report)> {
    seq(|reports|, i requires 0 <= i < |reports| =>
      match reports[i].1
      case Ready(read, write) =>
        (reports[i].0, Ready(read, write && if reports[i].0 == Local then localWrite else remoteWrite))
      case _ => reports[i])
  }

  function Within(r: Relay, reports: seq<(Source, Report)>): seq<(Source, Report)> {
    Masked(r.localWrite, r.remoteWrite, reports)
  }

  function Relays(r: Relay, polls: seq<Poll>): (Relay, Result<Counts>)
    decreases |polls|
  {
    if polls == [] then (r, Err(TimedOut))
    else match polls[0]
      case PollErr(e) => (r, Err(e))
      case Batch(reports) =>
        if reports == [] then (r, Err(TimedOut))
        else
          var (r1, v) := OnBatch(r, Within(r, reports));
          if v.Over? then (r1, v.result) else Relays(r1, polls[1..])
  }

  // ---------- Conservation ----------

  /** The poller reports each source at most once per batch. */
  predicate Distinct(reports: seq<(Source, Report)>) {
    forall i, j :: 0 <= i < j < |reports| ==> reports[i].0 != reports[j].0
  }

  predicate Polite(polls: seq<Poll>) {
    forall i :: 0 <= i < |polls| && polls[i].Batch? ==> Distinct(polls[i].reports)
  }

  /** In both directions what was got is what was put and then what is pending, the counters count
      what was put, and write interest is exactly for a pending buffer. */
  predicate Conserved(r: Relay) {
    && r.log.fromRemote == r.log.toLocal + r.inBuf
    && r.log.fromLocal == r.log.toRemote + r.outBuf
    && r.inCount == |r.log.toLocal| && r.outCount == |r.log.toRemote|
    && (r.localWrite <==> r.inBuf != [])
    && (r.remoteWrite <==> r.outBuf != [])
    && forall i :: 0 <= i < |r.log.offered| ==> r.log.offered[i] != []
  }

  /** What is promised at the end, however the relay ends. */
  predicate Delivered(r: Relay, result: Result<Counts>) {
    && r.log.toLocal <= r.log.fromRemote && r.log.toRemote <= r.log.fromLocal
    && (forall i :: 0 <= i < |r.log.offered| ==> r.log.offered[i] != [])
    && (result.Ok? ==> result.value == (|r.log.toLocal|, |r.log.toRemote|))
  }

  /** Pending reports of writability are for pending buffers. */
  predicate Backed(r: Relay, reports: seq<(Source, Report)>) {
    forall i :: 0 <= i < |reports| && reports[i].1.Ready? && reports[i].1.write ==>
      if reports[i].0 == Local then r.inBuf != [] else r.outBuf != []
  }

  predicate Holds(r: Relay, v: Verdict) {
    if v.Go? then Conserved(r) else Delivered(r, v.result)
  }

  lemma {:induction false} WriteLocalConserves(r: Relay)
    requires Conserved(r) && r.inBuf != []
    ensures var (r', v) := WriteLocal(r); Holds(r', v) && r'.outBuf == r.outBuf
  {
    var (_, put) := r.stream.Write(r.inBuf);
    if put.Ok? {
      assert r.inBuf == r.inBuf[..put.value] + r.inBuf[put.value..];
      assert r.log.fromRemote == (r.log.toLocal + r.inBuf[..put.value]) + r.inBuf[put.value..];
    }
  }

  lemma {:induction false} WriteRemoteConserves(r: Relay)
    requires Conserved(r) && r.outBuf != []
    ensures var (r', v) := WriteRemote(r); Holds(r', v) && r'.inBuf == r.inBuf
  {
    var (_, put) := Write(r.session, r.outBuf);
    if put.Ok? {
      assert r.outBuf == r.outBuf[..put.value] + r.outBuf[put.value..];
      assert r.log.fromLocal == (r.log.toRemote + r.outBuf[..put.value]) + r.outBuf[put.value..];
    }
  }

  lemma {:induction false} ReadLocalConserves(r: Relay)
    requires Conserved(r)
    ensures var (r', v) := ReadLocal(r); Holds(r', v) && r'.inBuf == r.inBuf && r.outBuf <= r'.outBuf
  {
    var (_, got) := r.stream.Read(READ_BUFFER_SIZE);
    if got.Ok? { assert r.log.fromLocal + got.value == r.log.toRemote + (r.outBuf + got.value); }
  }

  lemma {:induction false} ReadRemoteConserves(r: Relay)
    requires Conserved(r)
    ensures var (r', v) := ReadRemote(r); Holds(r', v) && r'.outBuf == r.outBuf && r.inBuf <= r'.inBuf
  {
    var (_, got) := Read(r.session, READ_BUFFER_SIZE);
    if got.Ok? { assert r.log.fromRemote + got.value == r.log.toLocal + (r.inBuf + got.value); }
  }

  /** One report keeps everything, and the writability reports still pending stay backed. */
  lemma {:induction false} ReportConserves(r: Relay, reports: seq<(Source, Report)>)
    requires Conserved(r) && reports != [] && Distinct(reports) && Backed(r, reports)
    ensures var (r', v) := OnReport(r, reports[0].0, reports[0].1);
            Holds(r', v) && Distinct(reports[1..]) && (v.Go? ==> Backed(r', reports[1..]))
  {
    var (source, report) := reports[0];
    if report.Ready? {
      if report.write {
        if source == Local { WriteLocalConserves(r); } else { WriteRemoteConserves(r); }
      }
      var (r0, v0) := if !report.write then (r, Go) else if source == Local then WriteLocal(r) else WriteRemote(r);
      if v0.Go? && report.read {
        if source == Local { ReadLocalConserves(r0); } else { ReadRemoteConserves(r0); }
      }
    }
  }

  lemma {:induction false} BatchConserves(r: Relay, reports: seq<(Source, Report)>)
    requires Conserved(r) && Distinct(reports) && Backed(r, reports)
    ensures var (r', v) := OnBatch(r, reports); Holds(r', v)
    decreases |reports|
  {
    if reports == [] {
    } else {
      ReportConserves(r, reports);
      var (r1, v) := OnReport(r, reports[0].0, reports[0].1);
      if v.Go? { BatchConserves(r1, reports[1..]); }
    }
  }

  /** Relay conservation: over every sequence of polls of a polite poller, and whatever the sockets
      answer, the relay delivers in each direction a prefix of what it got, reports exactly the
      delivered lengths, and never offers an empty buffer to a write. */
  lemma {:induction false} RelayConserves(r: Relay, polls: seq<Poll>)
    requires Conserved(r) && Polite(polls)
    ensures var (r', result) := Relays(r, polls); Delivered(r', result)
    decreases |polls|
  {
    if polls != [] && polls[0].Batch? {
      var reports := Within(r, polls[0].reports);
      BatchConserves(r, reports);
      var (r1, v) := OnBatch(r, reports);
      if v.Go? { RelayConserves(r1, polls[1..]); }
    }
  }

  /** A poller that reports a source twice makes the relay write nothing and take that for the end:
      here what is pending from the remote is delivered by the first report, and the second report
      ends the relay although both sides go on. */
  lemma {:induction false} TwiceInABatchEndsTheRelay(stream: Conn, session: Tower, data: Bytes)
    requires stream.tx == [] && stream.flushes == [] && data != []
    ensures var r := Open(stream, session).(inBuf := data, localWrite := true, log := Log([], [], data, [], []));
            var twice := [(Local, Ready(false, true)), (Local, Ready(false, true))];
            var (r', v) := OnBatch(r, Within(r, twice));
            && Conserved(r)
            && v == Over(Ok((|data|, 0))) && r'.log.offered == [data, []]
  {
    var r := Open(stream, session).(inBuf := data, localWrite := true, log := Log([], [], data, [], []));
    var report := (Local, Ready(false, true));
    assert Within(r, [report, report]) == [report, report];
    var (r1, v1) := OnReport(r, Local, Ready(false, true));
    assert data[..|data|] == data && data[|data|..] == [];
    assert v1 == Go && r1.inBuf == [] && r1.log.offered == [data];
    var (r2, v2) := OnReport(r1, Local, Ready(false, true));
    assert v2 == Over(Ok((|data|, 0))) && r2.log.offered == [data, []];
    assert [report, report][1..] == [report];
  }

  // ---------- The wires ----------

  /** What the log says crossed is what crossed the sockets, as seen from the relay `r0`. */
  predicate Accounted(r0: Relay, r: Relay) {
    var c0, c := ConnOf(r0.session), ConnOf(r.session);
    && r.stream.sent == r0.stream.sent + r.log.toLocal
    && r.stream.taken == r0.stream.taken + r.log.fromLocal
    && c.sent == c0.sent + r.log.toRemote
    && c.taken == c0.taken + r.log.fromRemote
  }

  predicate OnTheWire(r0: Relay, r: Relay) {
    Accounted(r0, r) && Established(r.session)
  }

  lemma {:induction false} WireWriteLocal(r0: Relay, r: Relay)
    requires OnTheWire(r0, r)
    ensures OnTheWire(r0, WriteLocal(r).0)
  {
    var (_, put) := r.stream.Write(r.inBuf);
    if put.Ok? {
      assert r0.stream.sent + (r.log.toLocal + r.inBuf[..put.value]) == r.stream.sent + r.inBuf[..put.value];
    }
    assert r.stream.sent + [] == r.stream.sent;
  }

  lemma {:induction false} WireWriteRemote(r0: Relay, r: Relay)
    requires OnTheWire(r0, r)
    ensures OnTheWire(r0, WriteRemote(r).0)
  {
    var c0, c := ConnOf(r0.session), ConnOf(r.session);
    var (c1, put) := c.Write(r.outBuf);
    ArtifactIgnoresTraffic(r.session, c1);
    ArtifactIgnoresTraffic(WithConn(r.session, c1), c1.Flush().0);
    if put.Ok? { assert c0.sent + (r.log.toRemote + r.outBuf[..put.value]) == c.sent + r.outBuf[..put.value]; }
    assert c.sent + [] == c.sent;
  }

  lemma {:induction false} WireReadLocal(r0: Relay, r: Relay)
    requires OnTheWire(r0, r)
    ensures OnTheWire(r0, ReadLocal(r).0)
  {
    var (_, got) := r.stream.Read(READ_BUFFER_SIZE);
    if got.Ok? { assert r0.stream.taken + (r.log.fromLocal + got.value) == r.stream.taken + got.value; }
  }

  lemma {:induction false} WireReadRemote(r0: Relay, r: Relay)
    requires OnTheWire(r0, r)
    ensures OnTheWire(r0, ReadRemote(r).0)
  {
    var (c1, got) := ConnOf(r.session).Read(READ_BUFFER_SIZE);
    ArtifactIgnoresTraffic(r.session, c1);
    if got.Ok? {
      assert ConnOf(r0.session).taken + (r.log.fromRemote + got.value) == ConnOf(r.session).taken + got.value;
    }
  }

  lemma {:induction false} WireReport(r0: Relay, r: Relay, source: Source, report: Report)
    requires OnTheWire(r0, r)
    ensures OnTheWire(r0, OnReport(r, source, report).0)
  {
    if report.Ready? {
      if source == Local { WireWriteLocal(r0, r); } else { WireWriteRemote(r0, r); }
      var r1 := if !report.write then r else if source == Local then WriteLocal(r).0 else WriteRemote(r).0;
      if source == Local { WireReadLocal(r0, r1); } else { WireReadRemote(r0, r1); }
    }
  }

  lemma {:induction false} WireBatch(r0: Relay, r: Relay, reports: seq<(Source, Report)>)
    requires OnTheWire(r0, r)
    ensures OnTheWire(r0, OnBatch(r, reports).0)
    decreases |reports|
  {
    if reports == [] {
    } else {
      var (source, report) := reports[0];
      WireReport(r0, r, source, report);
      var (r1, v) := OnReport(r, source, report);
      if v.Go? { WireBatch(r0, r1, reports[1..]); }
    }
  }

  /** With an established session, the bytes delivered and got are those that crossed the sockets. */
  lemma {:induction false} RelayOnTheWire(r0: Relay, r: Relay, polls: seq<Poll>)
    requires OnTheWire(r0, r)
    ensures OnTheWire(r0, Relays(r, polls).0)
    decreases |polls|
  {
    if polls != [] && polls[0].Batch? {
      var reports := Within(r, polls[0].reports);
      WireBatch(r0, r, reports);
      var (r1, v) := OnBatch(r, reports);
      if v.Go? { RelayOnTheWire(r0, r1, polls[1..]); }
    }
  }

  // ---------- What exactly a report does ----------

  /** The socket of a side, what is pending for it, what was delivered to it, and its write interest. */
  function Socket(s: Source, r: Relay): Conn {
    if s == Local then r.stream else ConnOf(r.session)
  }

  function Pending(s: Source, r: Relay): Bytes {
    if s == Local then r.inBuf else r.outBuf
  }

  function Count(s: Source, r: Relay): nat {
    if s == Local then r.inCount else r.outCount
  }

  function Asks(s: Source, r: Relay): bool {
    if s == Local then r.localWrite else r.remoteWrite
  }

  function Other(s: Source): Source {
    if s == Local then Remote else Local
  }

  function Tally(r: Relay): Counts {
    (r.inCount, r.outCount)
  }

  /** Whatever happens at a side, its session stays what it is, over its socket. */
  ghost predicate SameSession(r: Relay, r': Relay) {
    r'.session == WithConn(r.session, ConnOf(r'.session)) && ArtifactOf(r'.session) == ArtifactOf(r.session)
  }

  /** The pending bytes were offered to the side: a refusal, nothing taken and a failing flush end the
      relay as such; otherwise what was taken is delivered, counted and pending no more. */
  ghost predicate Wrote(s: Source, r: Relay, r': Relay, v: Verdict) {
    var c, c', b := Socket(s, r), Socket(s, r'), Pending(s, r);
    var k := Share(c.tx, |b|);
    && SameSession(r, r') && Socket(Other(s), r') == Socket(Other(s), r)
    && Pending(Other(s), r') == Pending(Other(s), r) && Count(Other(s), r') == Count(Other(s), r)
    && Asks(Other(s), r') == Asks(Other(s), r)
    && c'.sent == c.sent + b[..k] && c'.taken == c.taken && c'.rx == c.rx
    && if TakesNext(c) && k > 0 && NextFlush(c).Ok? then
         && v == Go && Pending(s, r') == b[k..] && Count(s, r') == Count(s, r) + k
         && (Asks(s, r') <==> Asks(s, r) && k < |b|)
       else
         && Pending(s, r') == b && Count(s, r') == Count(s, r) && Asks(s, r') == Asks(s, r)
         && v == Over(if !TakesNext(c) then Err(c.tx[0].kind)
                      else if k == 0 then Ok(Tally(r)) else Err(NextFlush(c).error))
  }

  /** The side was read: silence and errors end the relay as such, an empty read ends it well; otherwise
      what has arrived, as much as fits, is taken and pending for the other side, which asks to write. */
  ghost predicate Got(s: Source, r: Relay, r': Relay, v: Verdict) {
    var c, c', o := Socket(s, r), Socket(s, r'), Other(s);
    && SameSession(r, r') && Socket(o, r') == Socket(o, r) && Tally(r') == Tally(r)
    && Pending(s, r') == Pending(s, r) && Asks(s, r') == Asks(s, r)
    && c'.sent == c.sent && c'.tx == c.tx && Stream(c') == Stream(c)
    && if c.rx != [] && c.rx[0].Chunk? && c.rx[0].data != [] then
         var data := c.rx[0].data;
         var got := if |data| <= READ_BUFFER_SIZE then data else data[..READ_BUFFER_SIZE];
         v == Go && c'.taken == c.taken + got && Pending(o, r') == Pending(o, r) + got && Asks(o, r')
       else
         && c'.taken == c.taken && Pending(o, r') == Pending(o, r) && Asks(o, r') == Asks(o, r)
         && v == Over(if c.rx == [] then Err(WouldBlock)
                      else if c.rx[0].RxErr? then Err(c.rx[0].kind) else Ok(Tally(r)))
  }

  /** The relay can use a side: the remote one once its session is established. */
  predicate Usable(s: Source, r: Relay) {
    s == Remote ==> Established(r.session)
  }

  lemma {:induction false} SessionMoves(r: Relay, c: Conn)
    requires c.peer == ConnOf(r.session).peer
    ensures SameSession(r, r.(session := WithConn(r.session, c)))
  {
    ArtifactIgnoresTraffic(r.session, c);
  }

  lemma {:induction false} SessionStays(r: Relay)
    ensures WithConn(r.session, ConnOf(r.session)) == r.session
  {
    WithConnTwice(r.session, ConnOf(r.session), ConnOf(r.session));
  }

  lemma {:induction false} LocalWrote(r: Relay)
    ensures Wrote(Local, r, WriteLocal(r).0, WriteLocal(r).1)
  {
    SessionStays(r);
    WriteShares(r.stream, r.inBuf);
  }

  lemma {:induction false} RemoteWrote(r: Relay)
    requires Established(r.session)
    ensures Wrote(Remote, r, WriteRemote(r).0, WriteRemote(r).1)
  {
    RemoteSession(r);
    WriteShares(ConnOf(r.session), r.outBuf);
  }

  lemma {:induction false} RemoteSession(r: Relay)
    requires Established(r.session)
    ensures var (c, put) := ConnOf(r.session).Write(r.outBuf); var r' := WriteRemote(r).0;
            && SameSession(r, r')
            && ConnOf(r'.session) == if put.Ok? && put.value > 0 then c.Flush().0 else c
  {
    var c := ConnOf(r.session).Write(r.outBuf).0;
    SessionMoves(r, c);
    SessionMoves(r, c.Flush().0);
    WithConnTwice(r.session, c, c.Flush().0);
  }

  lemma {:induction false} LocalGot(r: Relay)
    ensures Got(Local, r, ReadLocal(r).0, ReadLocal(r).1)
  {
    SessionStays(r);
    ReadKeepsStream(r.stream, READ_BUFFER_SIZE);
    assert r.stream.taken + [] == r.stream.taken;
  }

  lemma {:induction false} RemoteGot(r: Relay)
    requires Established(r.session)
    ensures Got(Remote, r, ReadRemote(r).0, ReadRemote(r).1)
  {
    var c := ConnOf(r.session);
    SessionMoves(r, c.Read(READ_BUFFER_SIZE).0);
    ReadKeepsStream(c, READ_BUFFER_SIZE);
    assert c.taken + [] == c.taken;
  }

  /** A report of readiness: first what is pending is written, if the side is writable, then, unless that
      was the end, the side is read, if it is readable. */
  ghost predicate Handled(s: Source, read: bool, write: bool, r: Relay, r': Relay, v: Verdict) {
    exists r1, v1 :: WroteIf(write, s, r, r1, v1) && GotIf(read && v1.Go?, s, r1, v1, r', v)
  }

  ghost predicate WroteIf(write: bool, s: Source, r: Relay, r': Relay, v: Verdict) {
    if write then Wrote(s, r, r', v) else r' == r && v == Go
  }

  ghost predicate GotIf(read: bool, s: Source, r: Relay, v: Verdict, r': Relay, v': Verdict) {
    if read then Got(s, r, r', v') else r' == r && v' == v
  }

  /** What a report does, exactly: readiness is handled, a hang-up ends the relay well, a failure does not. */
  ghost predicate Reacts(r: Relay, s: Source, report: Report, r': Relay, v: Verdict) {
    match report
    case Connectivity => r' == r && v == Over(Ok((r.inCount, r.outCount)))
    case Os => r' == r && v == Over(Err(BrokenPipe))
    case Ready(read, write) => Usable(s, r) ==> Handled(s, read, write, r, r', v)
  }

  lemma {:induction false} ReportExactly(r: Relay, s: Source, report: Report)
    ensures var (r', v) := OnReport(r, s, report); Reacts(r, s, report, r', v)
  {
    if report.Ready? && Usable(s, r) {
      var (r1, v1) := if !report.write then (r, Go) else if s == Local then WriteLocal(r) else WriteRemote(r);
      var (r', v) := OnReport(r, s, report);
      WritePart(r, s, report.write);
      ReadPart(r1, v1, s, report.read);
      assert WroteIf(report.write, s, r, r1, v1) && GotIf(report.read && v1.Go?, s, r1, v1, r', v);
    }
  }

  lemma {:induction false} WritePart(r: Relay, s: Source, write: bool)
    requires Usable(s, r)
    ensures var (r', v) := if !write then (r, Go) else if s == Local then WriteLocal(r) else WriteRemote(r);
            WroteIf(write, s, r, r', v) && Usable(s, r')
  {
    if write { if s == Local { LocalWrote(r); } else { RemoteWrote(r); } }
  }

  lemma {:induction false} ReadPart(r: Relay, v: Verdict, s: Source, read: bool)
    requires Usable(s, r)
    ensures var (r', v') := if v.Over? || !read then (r, v) else if s == Local then ReadLocal(r) else ReadRemote(r);
            GotIf(read && v.Go?, s, r, v, r', v')
  {
    if read && v.Go? { if s == Local { LocalGot(r); } else { RemoteGot(r); } }
  }

  /** In particular, bytes that have arrived at a readable side are pending for the other one. */
  lemma {:induction false} ReportRelays(r: Relay, s: Source, write: bool, data: Bytes)
    requires Usable(s, r) && Socket(s, r).rx != [] && Socket(s, r).rx[0] == Chunk(data)
    requires 0 < |data| <= READ_BUFFER_SIZE
    requires write ==> var c := Socket(s, r); TakesNext(c) && Share(c.tx, |Pending(s, r)|) > 0 && NextFlush(c).Ok?
    ensures var (r', v) := OnReport(r, s, Ready(true, write));
            && v == Go && Socket(s, r').taken == Socket(s, r).taken + data
            && Pending(Other(s), r') == Pending(Other(s), r) + data && Asks(Other(s), r')
  {
    ReportExactly(r, s, Ready(true, write));
  }

  /** Bytes that have arrived at one side reach the other in two reports, behind all that was pending. */
  lemma {:induction false} ReportsForward(r: Relay, s: Source, data: Bytes)
    requires Established(r.session)
    requires Socket(s, r).rx != [] && Socket(s, r).rx[0] == Chunk(data) && 0 < |data| <= READ_BUFFER_SIZE
    requires Socket(Other(s), r).tx == [] && Socket(Other(s), r).flushes == []
    ensures var (r1, v1) := OnReport(r, s, Ready(true, false));
            var (r2, v2) := OnReport(r1, Other(s), Ready(false, true));
            && v1 == Go && v2 == Go && Pending(Other(s), r2) == [] && !Asks(Other(s), r2)
            && Socket(Other(s), r2).sent == Socket(Other(s), r).sent + Pending(Other(s), r) + data
            && Count(Other(s), r2) == Count(Other(s), r) + |Pending(Other(s), r)| + |data|
  {
    ReportRelays(r, s, false, data);
    ReportExactly(r, s, Ready(true, false));
    var r1 := OnReport(r, s, Ready(true, false)).0;
    ReportExactly(r1, Other(s), Ready(false, true));
    var b := Pending(Other(s), r1);
    assert b[..|b|] == b && b[|b|..] == [];
  }

  /** Every report of a batch is handled, in order, until one ends the relay. */
  lemma {:induction false} BatchInOrder(r: Relay, first: seq<(Source, Report)>, rest: seq<(Source, Report)>)
    ensures var (r1, v) := OnBatch(r, first);
            OnBatch(r, first + rest) == if v.Over? then (r1, v) else OnBatch(r1, rest)
    decreases |first|
  {
    if first == [] {
      assert first + rest == rest;
    } else {
      assert (first + rest)[0] == first[0] && (first + rest)[1..] == first[1..] + rest;
      BatchInOrder(OnReport(r, first[0].0, first[0].1).0, first[1..], rest);
    }
  }

  lemma {:induction false} BatchOfOne(r: Relay, s: Source, report: Report)
    ensures OnBatch(r, [(s, report)]) == OnReport(r, s, report)
  {
    assert [(s, report)][1..] == [];
  }

  /** The relay relays: bytes that have arrived at one side are on the other's wire after two polls, behind
      all that was pending, and are counted. */
  lemma {:induction false} RelayForwards(r: Relay, s: Source, data: Bytes)
    requires Established(r.session)
    requires Socket(s, r).rx != [] && Socket(s, r).rx[0] == Chunk(data) && 0 < |data| <= READ_BUFFER_SIZE
    requires Socket(Other(s), r).tx == [] && Socket(Other(s), r).flushes == []
    ensures var o := Other(s);
            var polls := [Batch([(s, Ready(true, false))]), Batch([(o, Ready(false, true))])];
            var r' := Relays(r, polls).0;
            && Socket(o, r').sent == Socket(o, r).sent + Pending(o, r) + data && Pending(o, r') == []
            && Count(o, r') == Count(o, r) + |Pending(o, r)| + |data|
  {
    var o := Other(s);
    var ask, tell := (s, Ready(true, false)), (o, Ready(false, true));
    var polls := [Batch([ask]), Batch([tell])];
    ReportsForward(r, s, data);
    ReportRelays(r, s, false, data);
    var r1 := OnReport(r, s, Ready(true, false)).0;
    assert Within(r, [ask]) == [ask] && Within(r1, [tell]) == [tell];
    BatchOfOne(r, s, Ready(true, false));
    BatchOfOne(r1, o, Ready(false, true));
    var r2 := OnReport(r1, o, Ready(false, true)).0;
    assert polls[1..] == [Batch([tell])] && polls[1..][1..] == [];
    assert Relays(r1, polls[1..]) == Relays(r2, []);
  }

  /** The polls are batches, none of them empty, that are handled to the end without ending the relay. */
  ghost predicate Goes(r: Relay, polls: seq<Poll>, r': Relay)
    decreases |polls|
  {
    if polls == [] then r' == r
    else
      && polls[0].Batch? && polls[0].reports != []
      && var (r1, v) := OnBatch(r, Within(r, polls[0].reports)); v.Go? && Goes(r1, polls[1..], r')
  }

  /** How the relay ends: after some batches, on a failing poll with its error, on an empty batch as timed
      out, or on a report that ends it; there is no other end while there are polls. */
  ghost predicate EndsAt(r: Relay, polls: seq<Poll>, n: nat, last: Relay, r': Relay, result: Result<Counts>) {
    && n <= |polls| && Goes(r, polls[..n], last)
    && if n == |polls| then r' == last && result == Err(TimedOut)
       else match polls[n]
         case PollErr(e) => r' == last && result == Err(e)
         case Batch(reports) =>
           if reports == [] then r' == last && result == Err(TimedOut)
           else OnBatch(last, Within(last, reports)) == (r', Over(result))
  }

  ghost predicate Ends(r: Relay, polls: seq<Poll>, r': Relay, result: Result<Counts>) {
    exists n, last :: EndsAt(r, polls, n, last, r', result)
  }

  lemma {:induction false} RelayEndsAs(r: Relay, polls: seq<Poll>) returns (n: nat, last: Relay)
    ensures EndsAt(r, polls, n, last, Relays(r, polls).0, Relays(r, polls).1)
    decreases |polls|
  {
    n, last := 0, r;
    if polls != [] && polls[0].Batch? && polls[0].reports != [] {
      var (r1, v) := OnBatch(r, Within(r, polls[0].reports));
      if v.Go? {
        n, last := RelayEndsAs(r1, polls[1..]);
        n := n + 1;
        assert polls[..n][0] == polls[0] && polls[..n][1..] == polls[1..][..n - 1];
      }
    }
  }

  // ---------- Everything that a part of the relay keeps ----------

  /** From `r` to `r'`: the log stays what crossed the sockets since `start`; and provided that writes
      are offered something, everything is conserved, or the relay ends with the delivered lengths. */
  predicate Keeps(start: Relay, r: Relay, r': Relay, v: Verdict, backed: bool) {
    && (OnTheWire(start, r) ==> OnTheWire(start, r'))
    && (Conserved(r) && backed ==> Holds(r', v))
  }

  lemma {:induction false} WriteLocalKeeps(start: Relay, r: Relay)
    ensures Keeps(start, r, WriteLocal(r).0, WriteLocal(r).1, r.inBuf != [])
  {
    if OnTheWire(start, r) { WireWriteLocal(start, r); }
    if Conserved(r) && r.inBuf != [] { WriteLocalConserves(r); }
  }

  lemma {:induction false} WriteRemoteKeeps(start: Relay, r: Relay)
    ensures Keeps(start, r, WriteRemote(r).0, WriteRemote(r).1, r.outBuf != [])
  {
    if OnTheWire(start, r) { WireWriteRemote(start, r); }
    if Conserved(r) && r.outBuf != [] { WriteRemoteConserves(r); }
  }

  lemma {:induction false} ReadLocalKeeps(start: Relay, r: Relay)
    ensures Keeps(start, r, ReadLocal(r).0, ReadLocal(r).1, true)
  {
    if OnTheWire(start, r) { WireReadLocal(start, r); }
    if Conserved(r) { ReadLocalConserves(r); }
  }

  lemma {:induction false} ReadRemoteKeeps(start: Relay, r: Relay)
    ensures Keeps(start, r, ReadRemote(r).0, ReadRemote(r).1, true)
  {
    if OnTheWire(start, r) { WireReadRemote(start, r); }
    if Conserved(r) { ReadRemoteConserves(r); }
  }

  lemma {:induction false} ReportKeeps(start: Relay, r: Relay, source: Source, report: Report)
    ensures Keeps(start, r, OnReport(r, source, report).0, OnReport(r, source, report).1, Backed(r, [(source, report)]))
  {
    if OnTheWire(start, r) { WireReport(start, r, source, report); }
    if Conserved(r) && Backed(r, [(source, report)]) { ReportConserves(r, [(source, report)]); }
  }

  lemma {:induction false} RelayKeeps(start: Relay, r: Relay, polls: seq<Poll>)
    ensures Keeps(start, r, Relays(r, polls).0, Over(Relays(r, polls).1), Polite(polls))
  {
    if OnTheWire(start, r) { RelayOnTheWire(start, r, polls); }
    if Conserved(r) && Polite(polls) { RelayConserves(r, polls); }
  }

  /** Over a session that is still in its handshake a read of the remote side always ends the relay, and
      the accounts hold exactly if there is nothing for the handshake to take. */
  lemma {:induction false} RelayNeedsEstablished(r0: Relay, r: Relay)
    requires DisciplinedTower(r.session) && Accounted(r0, r)
    ensures var (r', v) := ReadRemote(r); var c := ConnOf(r.session); var got := c.Read(READ_BUFFER_SIZE).1;
            var below, ms := Below(r.session), MachinesOf(r.session);
            && (v.Go? <==> Established(r.session) && got.Ok? && got.value != [])
            && (StackArtifact(below, ms).None? <==> !Established(r.session))
            && (Accounted(r0, r') <==> Established(r.session) || Need(below, ms) == 0 || Available(c.rx) == [])
  {
    var t, c := r.session, ConnOf(r.session);
    var below, ms := Below(t), MachinesOf(t);
    ArtifactRefines(t);
    if Established(t) {
      WireReadRemote(r0, r);
    } else {
      CallDiscipline(t, ReadCall(READ_BUFFER_SIZE));
      CallRefines(t, ReadCall(READ_BUFFER_SIZE));
      StackTraffic(below, ms, c, ReadCall(READ_BUFFER_SIZE));
    }
  }

  /** A write to the remote side lets the relay go on exactly if the session is established, its socket
      takes something and flushes; in the handshake it ends the relay with an error, and nothing counts
      as delivered. */
  lemma {:induction false} WritingNeedsEstablished(r: Relay)
    requires DisciplinedTower(r.session) && Outspoken(MachinesOf(r.session)) && r.outBuf != []
    ensures var (r', v) := WriteRemote(r); var (c, put) := ConnOf(r.session).Write(r.outBuf);
            && (v.Go? <==> Established(r.session) && put.Ok? && put.value > 0 && c.Flush().1.Ok?)
            && (!Established(r.session) ==> v.Over? && v.result.Err? && r'.log.toRemote == r.log.toRemote)
  {
    if !Established(r.session) { HandshakeRefusesWrites(r.session, r.outBuf); }
  }
}

/** The relay as it runs: nested loops over the polls and their reports, with the buffers, counters and
    interests updated in place. The local variables of `tunnel_once` are the fields of this class. */
module Tunneling {
  import opened Io
  import opened Connection
  import opened Session
  import opened R = Tunnels

  class Tunnel {
    var stream: Conn
    var session: Tower
    var inBuf: Bytes
    var outBuf: Bytes
    var inCount: nat
    var outCount: nat
    var localWrite: bool
    var remoteWrite: bool
    ghost var log: Log
    ghost var start: Relay

    ghost function View(): Relay
      reads this
    {
      Relay(stream, session, inBuf, outBuf, inCount, outCount, localWrite, remoteWrite, log)
    }

    constructor (stream: Conn, session: Tower)
      ensures View() == Open(stream, session) && start == View()
      ensures this.stream == stream && this.session == session && inBuf == [] && outBuf == []
      ensures inCount == 0 && outCount == 0 && !localWrite && !remoteWrite
      ensures Conserved(View()) && (OnTheWire(start, View()) <==> Established(session))
    {
      this.stream, this.session := stream, session;
      inBuf, outBuf, inCount, outCount := [], [], 0, 0;
      localWrite, remoteWrite := false, false;
      log := Log([], [], [], [], []);
      start := Open(stream, session);
    }

    /** Delivers the front of what is pending for the local side, and counts it; of a pending buffer
        everything is conserved, or the relay ends with the delivered lengths. */
    method WriteLocal() returns (v: Verdict)
      modifies this
      ensures (View(), v) == R.WriteLocal(old(View()))
      ensures start == old(start)
      ensures Keeps(start, old(View()), View(), v, old(inBuf) != [])
    {
      ghost var before := View();
      log := log.(offered := log.offered + [inBuf]);
      var (stream', put) := stream.Write(inBuf);
      stream := stream';
      if put.Err? {
        v := Over(Err(put.error));
      } else if put.value == 0 {
        v := Over(Ok((inCount, outCount)));
      } else {
        log := log.(toLocal := log.toLocal + inBuf[..put.value]);
        var (stream'', flushed) := stream.Flush();
        stream := stream'';
        if flushed.Err? {
          v := Over(Err(flushed.error));
        } else {
          inBuf := inBuf[put.value..];
          inCount := inCount + put.value;
          if inBuf == [] { localWrite := false; }
          v := Go;
        }
      }
      assert (View(), v) == R.WriteLocal(before);
      WriteLocalKeeps(start, before);
    }

    /** Queues what the local side sends behind what is pending for the remote one. */
    method ReadLocal() returns (v: Verdict)
      modifies this
      ensures (View(), v) == R.ReadLocal(old(View()))
      ensures start == old(start) && Keeps(start, old(View()), View(), v, true)
    {
      ReadLocalKeeps(start, View());
      var (stream', got) := stream.Read(READ_BUFFER_SIZE);
      stream := stream';
      match got {
        case Err(e) => return Over(Err(e));
        case Ok(data) =>
          if data == [] { return Over(Ok((inCount, outCount))); }
          log := log.(fromLocal := log.fromLocal + data);
          outBuf := outBuf + data;
          remoteWrite := true;
          return Go;
      }
    }

    /** Delivers the front of what is pending for the remote side, and counts it. */
    method WriteRemote() returns (v: Verdict)
      modifies this
      ensures (View(), v) == R.WriteRemote(old(View()))
      ensures start == old(start)
      ensures Keeps(start, old(View()), View(), v, old(outBuf) != [])
    {
      ghost var before := View();
      log := log.(offered := log.offered + [outBuf]);
      var (session', put) := Write(session, outBuf);
      session := session';
      if put.Err? {
        v := Over(Err(put.error));
      } else if put.value == 0 {
        v := Over(Ok((inCount, outCount)));
      } else {
        log := log.(toRemote := log.toRemote + outBuf[..put.value]);
        var (session'', flushed) := Flush(session);
        session := session'';
        if flushed.Err? {
          v := Over(Err(flushed.error));
        } else {
          outBuf := outBuf[put.value..];
          outCount := outCount + put.value;
          if outBuf == [] { remoteWrite := false; }
          v := Go;
        }
      }
      assert (View(), v) == R.WriteRemote(before);
      WriteRemoteKeeps(start, before);
    }

    /** Queues what the remote side sends behind what is pending for the local one. */
    method ReadRemote() returns (v: Verdict)
      modifies this
      ensures (View(), v) == R.ReadRemote(old(View()))
      ensures start == old(start) && Keeps(start, old(View()), View(), v, true)
    {
      ReadRemoteKeeps(start, View());
      var (session', got) := Read(session, READ_BUFFER_SIZE);
      session := session';
      match got {
        case Err(e) => return Over(Err(e));
        case Ok(data) =>
          if data == [] { return Over(Ok((inCount, outCount))); }
          log := log.(fromRemote := log.fromRemote + data);
          inBuf := inBuf + data;
          localWrite := true;
          return Go;
      }
    }

    /** `tunnel_once`, from the accepted local stream on. With a polite poller everything is conserved
        at every point of both loops, and at the end the counts are the delivered lengths. */
    method TunnelOnce(polls: seq<Poll>) returns (result: Result<Counts>)
      modifies this
      ensures (View(), result) == Relays(old(View()), polls)
      ensures start == old(start) && Keeps(start, old(View()), View(), Over(result), Polite(polls))
      ensures Ends(old(View()), polls, View(), result)
    {
      RelayKeeps(start, View(), polls);
      ghost var n, last := RelayEndsAs(View(), polls);
      result := RelayLoop(polls);
    }

    /** The nested loops. */
    method RelayLoop(polls: seq<Poll>) returns (result: Result<Counts>)
      modifies this
      ensures start == old(start) && (View(), result) == Relays(old(View()), polls)
    {
      ghost var all, polite := Relays(View(), polls), Conserved(View()) && Polite(polls);
      var i := 0;
      while i < |polls|
        invariant i <= |polls|
        invariant Relays(View(), polls[i..]) == all
        invariant polite ==> Conserved(View())
        invariant start == old(start)
      {
        if polls[i].PollErr? { return Err(polls[i].kind); }
        if polls[i].reports == [] { return Err(TimedOut); }
        var pending := Masked(localWrite, remoteWrite, polls[i].reports);
        ghost var end := OnBatch(View(), pending);
        while pending != []
          invariant OnBatch(View(), pending) == end
          invariant polite ==> Conserved(View()) && Distinct(pending) && Backed(View(), pending)
          invariant start == old(start)
          decreases |pending|
        {
          if polite { ReportConserves(View(), pending); }
          var (source, report) := pending[0];
          var v := OnReport(source, report);
          if v.Over? { return v.result; }
          pending := pending[1..];
        }
        i := i + 1;
      }
      return Err(TimedOut);
    }

    /** One report of a batch: what is conserved stays so, what still waits in the batch stays backed, and
        if the relay ends it reports the delivered lengths. */
    method OnReport(source: Source, report: Report) returns (v: Verdict)
      modifies this
      ensures (View(), v) == R.OnReport(old(View()), source, report)
      ensures start == old(start) && Keeps(start, old(View()), View(), v, Backed(old(View()), [(source, report)]))
      ensures Reacts(old(View()), source, report, View(), v)
    {
      ReportKeeps(start, View(), source, report);
      ReportExactly(View(), source, report);
      match report {
        case Connectivity => return Over(Ok((inCount, outCount)));
        case Os => return Over(Err(BrokenPipe));
        case Ready(read, write) =>
          v := Go;
          if source == Local {
            if write { v := WriteLocal(); }
            if v.Go? && read { v := ReadLocal(); }
          } else {
            if write { v := WriteRemote(); }
            if v.Go? && read { v := ReadRemote(); }
          }
      }
    }
  }
}
