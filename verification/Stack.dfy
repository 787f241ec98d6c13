/** The reference form of a session: its machines as one list, lowest first, over one connection.
    A call goes to the lowest machine without an artifact, or to the connection if there is none. */
module Stack {
  import opened Io
  import opened Connection
  import opened Machines
  import opened Session

  datatype Call = ReadCall(n: nat) | WriteCall(buf: Bytes)

  datatype Reply = Got(got: Result<Bytes>) | Put(put: Result<nat>)

  /** Whether a call failed, and how. */
  function Outcome(r: Reply): Result<()> {
    match r
    case Got(Err(e)) => Err(e)
    case Put(Err(e)) => Err(e)
    case _ => Ok(())
  }

  function ConnDo(c: Conn, call: Call): (Conn, Reply) {
    match call
    case ReadCall(n) => var (c', r) := c.Read(n); (c', Got(r))
    case WriteCall(buf) => var (c', r) := c.Write(buf); (c', Put(r))
  }

  function TowerDo(t: Tower, call: Call): (Tower, Reply) {
    match call
    case ReadCall(n) => var (t', r) := Read(t, n); (t', Got(r))
    case WriteCall(buf) => var (t', r) := Write(t, buf); (t', Put(r))
  }

  /** What a call does to the one machine that handles it; `below` is the artifact of the completed
      machines underneath. */
  function MachineDo(m: Machine, below: Artifact, c: Conn, call: Call): (Machine, Conn, Reply) {
    var m1 := m.Start(below);
    match call
    case ReadCall(_) =>
      var (c1, got) := c.ReadExact(m1.NextReadLen());
      if got.Err? then (m1, c1, Got(got))
      else if got.value == [] then (m1, c1, Got(Ok([])))
      else
        var (m2, output) := m1.Advance(got.value);
        if output.None? then (m2, c1, Got(Err(ConnectionAborted)))
        else
          var (c2, put) := c1.WriteAll(output.value);
          (m2, c2, Got(if put.Ok? then Ok([]) else Err(put.error)))
    case WriteCall(buf) =>
      var idle := Put(if buf == [] then Ok(0) else Err(Interrupted));
      if m1.NextReadLen() != 0 then (m1, c, idle)
      else
        var (m2, act) := m1.Advance([]);
        if act.None? then (m2, c, Put(Err(ConnectionAborted)))
        else if act.value != [] then
          var (c2, put) := c.WriteAll(act.value);
          (m2, c2, if put.Ok? then idle else Put(Err(put.error)))
        else
          var (c2, r) := c.Write(buf);
          (m2, c2, Put(r))
  }

  function StackDo(below: Artifact, ms: seq<Machine>, c: Conn, call: Call): (r: (seq<Machine>, Conn, Reply))
    ensures |r.0| == |ms|
    decreases |ms|
  {
    if ms == [] then
      var (c', r) := ConnDo(c, call);
      ([], c', r)
    else if ms[0].IsComplete() then
      var (ms', c', r) := StackDo(Protocol(below, ms[0].Artifact().value), ms[1..], c, call);
      ([ms[0]] + ms', c', r)
    else
      var (m', c', r) := MachineDo(ms[0], below, c, call);
      ([m'] + ms[1..], c', r)
  }

  function StackArtifact(below: Artifact, ms: seq<Machine>): Option<Artifact>
    decreases |ms|
  {
    if ms == [] then Some(below)
    else if ms[0].IsComplete() then StackArtifact(Protocol(below, ms[0].Artifact().value), ms[1..])
    else None
  }

  /** The machines of a session, lowest first. */
  function MachinesOf(t: Tower): seq<Machine> {
    if t.Base? then [] else MachinesOf(t.session) + [t.state]
  }

  /** The artifact of the base connection, below all machines. */
  function Below(t: Tower): Artifact
    requires ConnOf(t).peer.Some?
  {
    PeerAddr(ConnOf(t).peer.value)
  }

  /** A session is its machines and its connection. */
  lemma {:induction false} TowerIsItsParts(t: Tower, u: Tower)
    requires MachinesOf(t) == MachinesOf(u) && ConnOf(t) == ConnOf(u)
    ensures t == u
  {
    if t.Layer? && u.Layer? {
      var a, b := MachinesOf(t.session), MachinesOf(u.session);
      assert a == (a + [t.state])[..|a|] && b == (b + [u.state])[..|b|];
      assert t.state == (a + [t.state])[|a|] && u.state == (b + [u.state])[|b|];
      TowerIsItsParts(t.session, u.session);
    }
  }

  lemma {:induction false} MachinesIgnoreConn(t: Tower, c: Conn)
    ensures MachinesOf(WithConn(t, c)) == MachinesOf(t)
  {
    if t.Base? {
    } else {
      MachinesIgnoreConn(t.session, c);
    }
  }

  lemma {:induction false} ArtifactOnTop(below: Artifact, ms: seq<Machine>, m: Machine)
    ensures StackArtifact(below, ms + [m]) ==
            match StackArtifact(below, ms)
            case Some(a) => if m.IsComplete() then Some(Protocol(a, m.Artifact().value)) else None
            case None => None
    decreases |ms|
  {
    if ms == [] {
      assert ms + [m] == [m] && [m][1..] == [];
    } else {
      assert (ms + [m])[1..] == ms[1..] + [m];
      if ms[0].IsComplete() { ArtifactOnTop(Protocol(below, ms[0].Artifact().value), ms[1..], m); }
    }
  }

  lemma {:induction false} DoOnTop(below: Artifact, ms: seq<Machine>, m: Machine, c: Conn, call: Call)
    ensures StackDo(below, ms + [m], c, call) ==
            match StackArtifact(below, ms)
            case None => var (ms', c', r) := StackDo(below, ms, c, call); (ms' + [m], c', r)
            case Some(a) =>
              if m.IsComplete() then var (c', r) := ConnDo(c, call); (ms + [m], c', r)
              else var (m', c', r) := MachineDo(m, a, c, call); (ms + [m'], c', r)
    decreases |ms|
  {
    if ms == [] {
      assert ms + [m] == [m] && [m][1..] == [];
      var m' := MachineDo(m, below, c, call).0;
      assert [m'] + [] == ms + [m'] && [m] + [] == ms + [m];
    } else {
      assert (ms + [m])[1..] == ms[1..] + [m];
      if ms[0].IsComplete() {
        var below' := Protocol(below, ms[0].Artifact().value);
        DoOnTop(below', ms[1..], m, c, call);
        var (ms', c', r) := StackDo(below', ms[1..], c, call);
        assert [ms[0]] + (ms' + [m]) == ([ms[0]] + ms') + [m];
        assert forall x :: [ms[0]] + (ms[1..] + [x]) == ms + [x];
      } else {
        var (m', _, _) := MachineDo(ms[0], below, c, call);
        assert [m'] + (ms[1..] + [m]) == ([m'] + ms[1..]) + [m];
      }
    }
  }

  /** The artifact of a session is the artifact of its stack. */
  lemma {:induction false} ArtifactRefines(t: Tower)
    requires ConnOf(t).peer.Some?
    ensures ArtifactOf(t) == StackArtifact(Below(t), MachinesOf(t))
  {
    if t.Base? {
    } else {
      ArtifactRefines(t.session);
      ArtifactOnTop(Below(t), MachinesOf(t.session), t.state);
    }
  }

  /** The peer address an artifact stands on, and what the protocols above it have yielded, lowest first. */
  function Address(a: Artifact): nat {
    if a.PeerAddr? then a.addr else Address(a.session)
  }

  function Yields(a: Artifact): seq<Bytes> {
    if a.PeerAddr? then [] else Yields(a.session) + [a.state]
  }

  /** An established session has an artifact of every machine, and yields these, over its peer's address. */
  lemma {:induction false} ArtifactYields(t: Tower)
    requires Established(t)
    ensures var a, ms := ArtifactOf(t).value, MachinesOf(t);
            && ConnOf(t).peer == Some(Address(a))
            && |Yields(a)| == |ms|
            && forall i :: 0 <= i < |ms| ==> ms[i].kind.artifact(ms[i].past) == Some(Yields(a)[i])
  {
    if t.Base? {
    } else {
      ArtifactYields(t.session);
    }
  }

  lemma {:induction false} AllComplete(below: Artifact, ms: seq<Machine>, c: Conn, call: Call)
    requires StackArtifact(below, ms).Some?
    ensures var (c', r) := ConnDo(c, call); StackDo(below, ms, c, call) == (ms, c', r)
    ensures forall i :: 0 <= i < |ms| ==> ms[i].IsComplete()
    decreases |ms|
  {
    if ms == [] {
    } else {
      AllComplete(Protocol(below, ms[0].Artifact().value), ms[1..], c, call);
      assert [ms[0]] + ms[1..] == ms;
    }
  }

  /** Refinement: the nested calls of a session of any depth, each layer re-examining everything
      below it, do what the stack does, over every connection that has a peer. */
  lemma {:induction false} CallRefines(t: Tower, call: Call)
    requires ConnOf(t).peer.Some?
    ensures var (t', r) := TowerDo(t, call);
            StackDo(Below(t), MachinesOf(t), ConnOf(t), call) == (MachinesOf(t'), ConnOf(t'), r)
  {
    if t.Base? {
    } else {
      var m, s, c := t.state, t.session, ConnOf(t);
      var below := Below(t);
      CallRefines(s, call);
      ArtifactRefines(s);
      DoOnTop(below, MachinesOf(s), m, c, call);
      if Established(s) {
        LayerDo(t, call);
        AllComplete(below, MachinesOf(s), c, call);
      }
    }
  }

  /** A layer over an established session handles the call itself until it is complete. */
  lemma {:induction false} LayerDo(t: Tower, call: Call)
    requires t.Layer? && Established(t.session)
    ensures var (t', r) := TowerDo(t, call); var s := t.session;
            if t.state.IsComplete() then
              var (c', r') := ConnDo(ConnOf(s), call);
              t' == Layer(t.state, WithConn(s, c')) && r == r' && MachinesOf(t') == MachinesOf(t)
            else
              var (m', c', r') := MachineDo(t.state, ArtifactOf(s).value, ConnOf(s), call);
              t' == Layer(m', WithConn(s, c')) && r == r' && MachinesOf(t') == MachinesOf(s) + [m']
  {
    MachinesIgnoreConn(t.session, ConnOf(TowerDo(t, call).0));
    match call
    case ReadCall(n) => if !t.state.IsComplete() { LayerRead(t, n); }
    case WriteCall(buf) => if !t.state.IsComplete() { LayerWrite(t, buf); }
  }

  lemma {:induction false} LayerRead(t: Tower, n: nat)
    requires t.Layer? && Established(t.session) && !t.state.IsComplete()
    ensures var (m', c', r) := MachineDo(t.state, ArtifactOf(t.session).value, ConnOf(t.session), ReadCall(n));
            Read(t, n) == (Layer(m', WithConn(t.session, c')), r.got)
  {
    var s := t.session;
    var m1 := Init(t.state, s);
    var (c1, got) := ConnOf(s).ReadExact(m1.NextReadLen());
    if got.Ok? && got.value != [] && m1.Advance(got.value).1.Some? {
      WithConnTwice(s, c1, c1.WriteAll(m1.Advance(got.value).1.value).0);
    }
  }

  lemma {:induction false} LayerWrite(t: Tower, buf: Bytes)
    requires t.Layer? && Established(t.session) && !t.state.IsComplete()
    ensures var (m', c', r) := MachineDo(t.state, ArtifactOf(t.session).value, ConnOf(t.session), WriteCall(buf));
            Write(t, buf) == (Layer(m', WithConn(t.session, c')), r.put)
  {
    WithConnTwice(t.session, ConnOf(t.session), ConnOf(t.session));
  }
}
