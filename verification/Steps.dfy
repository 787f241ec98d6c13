/** What one call on a session does, by what has arrived and what the connection absorbs. */
module Steps {
  import opened Io
  import opened Connection
  import opened Machines
  import opened Session
  import opened Stack
  import opened Discipline

  /** The machine with the artifact below it, if it is one that needs it and has not got it yet. */
  function Initialised(m: Machine, below: Artifact): Machine {
    if m.kind.selfInit || m.past.init.Some? then m else m.(past := m.past.(init := Some(below)))
  }

  /** The connection has sent `act` if it absorbs it, and otherwise a proper prefix of it. */
  ghost predicate Sends(c: Conn, c': Conn, act: Bytes) {
    if Absorbs(c.tx, |act|) then c'.sent == c.sent + act
    else exists k :: 0 <= k < |act| && c'.sent == c.sent + act[..k]
  }

  /** A write call on the machine `m`: if it waits for something, nothing happens; otherwise it is given
      an empty input. Its act is sent instead of the application's bytes, which the caller is told to
      offer again; but if the act is empty, the application's bytes go to the connection. */
  ghost predicate WritesAs(m: Machine, c: Conn, buf: Bytes, m': Machine, c': Conn, r: Result<nat>) {
    var again := if buf == [] then Ok(0) else Err(Interrupted);
    if m.kind.readLen(m.past) > 0 then m' == m && c' == c && r == again
    else
      && m' == m.(past := m.past.Push([]))
      && match m.kind.act(m.past.Push([]))
         case None => c' == c && r == Err(ConnectionAborted)
         case Some(act) =>
           if act == [] then (c', r) == c.Write(buf)
           else
             && c'.rx == c.rx && c'.taken == c.taken && Sends(c, c', act)
             && r == if Absorbs(c.tx, |act|) then again else Err(Refusal(c.tx, |act|))
  }

  /** A read call on the machine `m`: if it waits for nothing, nothing happens; otherwise it is given
      what it waits for, if that has arrived, and its act is sent. The application gets no bytes. */
  ghost predicate ReadsAs(m: Machine, c: Conn, m': Machine, c': Conn, r: Result<Bytes>) {
    var need, all := m.kind.readLen(m.past), Available(c.rx);
    if need == 0 then m' == m && c' == c && r == Ok([])
    else if need > |all| then m' == m && c'.sent == c.sent && c'.taken == c.taken + all && r == Err(Stop(c.rx))
    else
      && m' == m.(past := m.past.Push(all[..need]))
      && c'.taken == c.taken + all[..need] && Available(c'.rx) == all[need..]
      && match m.kind.act(m.past.Push(all[..need]))
         case None => c'.sent == c.sent && r == Err(ConnectionAborted)
         case Some(act) =>
           Sends(c, c', act) && r == if Absorbs(c.tx, |act|) then Ok([]) else Err(Refusal(c.tx, |act|))
  }

  ghost predicate CallsAs(m: Machine, c: Conn, call: Call, m': Machine, c': Conn, r: Reply) {
    match call
    case ReadCall(_) => r.Got? && ReadsAs(m, c, m', c', r.got)
    case WriteCall(buf) => r.Put? && WritesAs(m, c, buf, m', c', r.put)
  }

  lemma {:induction false} MachineReads(m: Machine, below: Artifact, c: Conn, n: nat)
    ensures var (m', c', r) := MachineDo(m, below, c, ReadCall(n));
            CallsAs(Initialised(m, below), c, ReadCall(n), m', c', r)
  {
    var m1 := Initialised(m, below);
    var need := m1.NextReadLen();
    ReadExactTakes(c, need);
    ReadExactStops(c, need);
    if 0 < need <= |Available(c.rx)| {
      AnswersAct(m, below, c, n);
      var act := m1.kind.act(m1.past.Push(Available(c.rx)[..need]));
      if act.Some? { PutsAct(c.ReadExact(need).0, act.value); }
    }
  }

  lemma {:induction false} MachineWrites(m: Machine, below: Artifact, c: Conn, buf: Bytes)
    ensures var (m', c', r) := MachineDo(m, below, c, WriteCall(buf));
            CallsAs(Initialised(m, below), c, WriteCall(buf), m', c', r)
  {
    var m1 := Initialised(m, below);
    var act := m1.kind.act(m1.past.Push([]));
    if act.Some? { PutsAct(c, act.value); }
  }

  lemma {:induction false} PutsAct(c: Conn, act: Bytes)
    ensures var (c', r) := c.WriteAll(act);
            && Sends(c, c', act)
            && (r.Ok? <==> Absorbs(c.tx, |act|)) && (r.Err? ==> r.error == Refusal(c.tx, |act|))
  {
    WriteAllPuts(c, act);
    WriteAllRefuses(c, act);
  }

  /** The call goes to the lowest incomplete machine, over the artifact of those below. */
  ghost predicate LowestCalled(
      below: Artifact, ms: seq<Machine>, c: Conn, call: Call, ms': seq<Machine>, c': Conn, r: Reply) {
    var k := Lowest(ms);
    && k < |ms| && |ms'| == |ms| && ms' == ms[k := ms'[k]]
    && StackArtifact(below, ms[..k]).Some?
    && CallsAs(Initialised(ms[k], StackArtifact(below, ms[..k]).value), c, call, ms'[k], c', r)
  }

  lemma {:induction false} LowestOnTop(
      below: Artifact, m: Machine, tail: seq<Machine>, c: Conn, call: Call, tail': seq<Machine>, c': Conn,
      r: Reply)
    requires m.IsComplete() && LowestCalled(Protocol(below, m.Artifact().value), tail, c, call, tail', c', r)
    ensures LowestCalled(below, [m] + tail, c, call, [m] + tail', c', r)
  {
    var ms, k := [m] + tail, Lowest(tail);
    assert ms[1..] == tail && Lowest(ms) == k + 1;
    assert ms[..k + 1][1..] == tail[..k];
  }

  lemma {:induction false} StackCalls(below: Artifact, ms: seq<Machine>, c: Conn, call: Call)
    requires StackArtifact(below, ms).None?
    ensures var (ms', c', r) := StackDo(below, ms, c, call); LowestCalled(below, ms, c, call, ms', c', r)
    decreases |ms|
  {
    if ms[0].IsComplete() {
      var below' := Protocol(below, ms[0].Artifact().value);
      StackCalls(below', ms[1..], c, call);
      var (tail', c', r) := StackDo(below', ms[1..], c, call);
      LowestOnTop(below, ms[0], ms[1..], c, call, tail', c', r);
      assert [ms[0]] + ms[1..] == ms;
    } else {
      if call.ReadCall? { MachineReads(ms[0], below, c, call.n); } else { MachineWrites(ms[0], below, c, call.buf); }
      assert ms[..0] == [];
    }
  }

  /** What a call on a session of any depth does before it is established. */
  lemma {:induction false} CallExactly(t: Tower, call: Call)
    requires ConnOf(t).peer.Some? && !Established(t)
    ensures var (t', r) := TowerDo(t, call);
            LowestCalled(Below(t), MachinesOf(t), ConnOf(t), call, MachinesOf(t'), ConnOf(t'), r)
  {
    ArtifactRefines(t);
    CallRefines(t, call);
    StackCalls(Below(t), MachinesOf(t), ConnOf(t), call);
  }

  /** Whatever a session of any depth, established or not, reports as accepted is on the wire. */
  lemma {:induction false} AcceptedIsSent(t: Tower, buf: Bytes)
    requires ConnOf(t).peer.Some?
    ensures var (t', r) := Write(t, buf);
            r.Ok? && r.value > 0 ==> r.value <= |buf| && ConnOf(t').sent == ConnOf(t).sent + buf[..r.value]
  {
    assert TowerDo(t, WriteCall(buf)) == (Write(t, buf).0, Put(Write(t, buf).1));
    if !Established(t) { CallExactly(t, WriteCall(buf)); }
  }
}
