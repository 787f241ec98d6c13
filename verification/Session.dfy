/** Sessions (`NetSession`): protocol layers of any depth over a base connection. */
module Session {
  import opened Io
  import opened Connection
  import opened Machines

  /** `TcpStream`, or a `NetProtocol` over an inner session. */
  datatype Tower = Base(conn: Conn) | Layer(state: Machine, session: Tower)

  function Depth(t: Tower): nat {
    if t.Base? then 0 else 1 + Depth(t.session)
  }

  /** `as_connection`. */
  function ConnOf(t: Tower): Conn {
    if t.Base? then t.conn else ConnOf(t.session)
  }

  /** The session after its connection has changed to `c` under `as_connection_mut`. */
  function WithConn(t: Tower, c: Conn): (t': Tower)
    ensures ConnOf(t') == c && Depth(t') == Depth(t)
  {
    if t.Base? then Base(c) else t.(session := WithConn(t.session, c))
  }

  function ArtifactOf(t: Tower): Option<Artifact> {
    match t
    case Base(c) => if c.peer.Some? then Some(PeerAddr(c.peer.value)) else None
    case Layer(m, s) =>
      var below := ArtifactOf(s);
      if below.Some? && m.IsComplete() then Some(Protocol(below.value, m.Artifact().value)) else None
  }

  predicate Established(t: Tower) {
    ArtifactOf(t).Some?
  }

  function Init(m: Machine, s: Tower): Machine {
    match ArtifactOf(s)
    case Some(below) => m.Start(below)
    case None => m
  }

  /** A session whose connection has only moved its bytes keeps its artifact. */
  lemma {:induction false} ArtifactIgnoresTraffic(t: Tower, c: Conn)
    requires c.peer == ConnOf(t).peer
    ensures ArtifactOf(WithConn(t, c)) == ArtifactOf(t)
  {
    if t.Base? {
    } else {
      ArtifactIgnoresTraffic(t.session, c);
    }
  }

  lemma {:induction false} WithConnTwice(t: Tower, c: Conn, d: Conn)
    ensures WithConn(WithConn(t, c), d) == WithConn(t, d)
    ensures WithConn(t, ConnOf(t)) == t
  {
    if t.Base? {
    } else {
      WithConnTwice(t.session, c, d);
    }
  }

  /** `NetProtocol::read`. On an established session it is the read of the connection. */
  function Read(t: Tower, n: nat): (r: (Tower, Result<Bytes>))
    ensures Established(t) ==> r == (WithConn(t, ConnOf(t).Read(n).0), ConnOf(t).Read(n).1)
    decreases Depth(t), 0, 0
  {
    match t
    case Base(c) => var (c', r) := c.Read(n); (Base(c'), r)
    case Layer(m, s) =>
      if m.IsComplete() || !Established(s) then
        var (s', r) := Read(s, n);
        (Layer(m, s'), r)
      else
        var m1 := Init(m, s);
        var (s1, got) := ReadExact(s, m1.NextReadLen());
        if got.Err? then (Layer(m1, s1), got)
        else if got.value == [] then (Layer(m1, s1), Ok([]))
        else
          var (m2, output) := m1.Advance(got.value);
          if output.None? then (Layer(m2, s1), Err(ConnectionAborted))
          else if output.value == [] then (Layer(m2, s1), Ok([]))
          else
            var (s2, put) := WriteAll(s1, output.value);
            (Layer(m2, s2), if put.Ok? then Ok([]) else Err(put.error))
  }

  /** `read_exact` over `NetProtocol::read`, which only ever runs over an established session. */
  function ReadExact(t: Tower, n: nat): (r: (Tower, Result<Bytes>))
    requires Established(t)
    ensures r == (WithConn(t, ConnOf(t).ReadExact(n).0), ConnOf(t).ReadExact(n).1)
    ensures Established(r.0)
    decreases Depth(t), 1, n + |ConnOf(t).rx|
  {
    ArtifactIgnoresTraffic(t, ConnOf(t).Read(n).0);
    ArtifactIgnoresTraffic(t, ConnOf(t).ReadExact(n).0);
    WithConnTwice(t, ConnOf(t).Read(n).0, ConnOf(t).ReadExact(n).0);
    if n == 0 then (t, Ok([]))
    else
      var (t1, r1) := Read(t, n);
      match r1
      case Ok(data) =>
        if data == [] then (t1, Err(UnexpectedEof))
        else
          var (t2, r2) := ReadExact(t1, n - |data|);
          (t2, if r2.Ok? then Ok(data + r2.value) else r2)
      case Err(e) => if e == Interrupted then ReadExact(t1, n) else (t1, Err(e))
  }

  /** `NetProtocol::write`. On an established session it is the write of the connection. */
  function Write(t: Tower, buf: Bytes): (r: (Tower, Result<nat>))
    ensures Established(t) ==> r == (WithConn(t, ConnOf(t).Write(buf).0), ConnOf(t).Write(buf).1)
    ensures r.1.Ok? ==> r.1.value <= |buf|
    decreases Depth(t), 0, 0
  {
    match t
    case Base(c) => var (c', r) := c.Write(buf); (Base(c'), r)
    case Layer(m, s) =>
      if m.IsComplete() || !Established(s) then
        var (s', r) := Write(s, buf);
        (Layer(m, s'), r)
      else
        var m1 := Init(m, s);
        var idle := if buf == [] then Ok(0) else Err(Interrupted);
        if m1.NextReadLen() != 0 then (Layer(m1, s), idle)
        else
          var (m2, act) := m1.Advance([]);
          if act.None? then (Layer(m2, s), Err(ConnectionAborted))
          else if act.value != [] then
            var (s2, put) := WriteAll(s, act.value);
            (Layer(m2, s2), if put.Ok? then idle else Err(put.error))
          else
            var (s2, r) := Write(s, buf);
            (Layer(m2, s2), r)
  }

  /** `write_all` over `NetProtocol::write`, which only ever runs over an established session. */
  function WriteAll(t: Tower, buf: Bytes): (r: (Tower, Result<()>))
    requires Established(t)
    ensures r == (WithConn(t, ConnOf(t).WriteAll(buf).0), ConnOf(t).WriteAll(buf).1)
    ensures Established(r.0)
    decreases Depth(t), 1, |buf| + |ConnOf(t).tx|
  {
    ArtifactIgnoresTraffic(t, ConnOf(t).Write(buf).0);
    ArtifactIgnoresTraffic(t, ConnOf(t).WriteAll(buf).0);
    WithConnTwice(t, ConnOf(t).Write(buf).0, ConnOf(t).WriteAll(buf).0);
    if buf == [] then (t, Ok(()))
    else
      var (t1, r1) := Write(t, buf);
      match r1
      case Ok(k) => if k == 0 then (t1, Err(WriteZero)) else WriteAll(t1, buf[k..])
      case Err(e) => if e == Interrupted then WriteAll(t1, buf) else (t1, Err(e))
  }

  /** `flush` goes straight to the connection. */
  function Flush(t: Tower): (r: (Tower, Result<()>))
    ensures r == (WithConn(t, ConnOf(t).Flush().0), ConnOf(t).Flush().1)
  {
    match t
    case Base(c) => var (c', r) := c.Flush(); (Base(c'), r)
    case Layer(m, s) => var (s', r) := Flush(s); (Layer(m, s'), r)
  }
}
