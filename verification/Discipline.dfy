/** What every call keeps of a session of any depth: which machine it may touch, and how the bytes
    that cross the connection split into handshake acts and application data. */
module Discipline {
  import opened Io
  import opened Connection
  import opened Machines
  import opened Session
  import opened Stack

  /** The index of the lowest machine without an artifact. */
  function Lowest(ms: seq<Machine>): (k: nat)
    ensures k <= |ms|
    ensures k < |ms| ==> !ms[k].IsComplete()
    ensures forall i :: 0 <= i < k ==> ms[i].IsComplete()
  {
    if ms == [] || !ms[0].IsComplete() then 0 else 1 + Lowest(ms[1..])
  }

  /** `m` became `m'` by being initialised with `below` if it was not initialised yet, and then by
      at most one `advance`. */
  ghost predicate OneAdvance(m: Machine, m': Machine, below: Artifact) {
    && m'.kind == m.kind
    && m'.IsInit()
    && m'.past.init == (if m.kind.selfInit || m.past.init.Some? then m.past.init else Some(below))
    && (m'.past.inputs == m.past.inputs || exists x :: m'.past.inputs == m.past.inputs + [x])
  }

  lemma {:induction false} MachineAdvancesOnce(m: Machine, below: Artifact, c: Conn, call: Call)
    ensures var (m', c', r) := MachineDo(m, below, c, call);
            && OneAdvance(m, m', below)
            && c'.peer == c.peer
            && (call.ReadCall? ==> r.Got? && (r.got.Ok? ==> r.got.value == []))
            && (call.WriteCall? ==> r.Put?)
  {
  }

  /** Layer discipline: a call on a session that is not established changes one machine only, the
      lowest incomplete one, over completed machines, initialised with their artifact; and a read
      delivers nothing. A call on an established session changes none and is answered by the
      connection. */
  ghost predicate KeepsDiscipline(
      below: Artifact, ms: seq<Machine>, c: Conn, call: Call, ms': seq<Machine>, c': Conn, r: Reply) {
    var k := Lowest(ms);
    && |ms'| == |ms|
    && c'.peer == c.peer
    && (k == |ms| <==> StackArtifact(below, ms).Some?)
    && (k == |ms| ==> ms' == ms && (c', r) == ConnDo(c, call))
    && (k < |ms| ==>
        && StackArtifact(below, ms[..k]).Some?
        && OneAdvance(ms[k], ms'[k], StackArtifact(below, ms[..k]).value)
        && ms' == ms[k := ms'[k]]
        && (call.ReadCall? ==> r.Got? && (r.got.Ok? ==> r.got.value == [])))
  }

  lemma {:induction false} StackDiscipline(below: Artifact, ms: seq<Machine>, c: Conn, call: Call)
    ensures var (ms', c', r) := StackDo(below, ms, c, call); KeepsDiscipline(below, ms, c, call, ms', c', r)
    decreases |ms|
  {
    if ms == [] {
    } else {
      if ms[0].IsComplete() {
        var below' := Protocol(below, ms[0].Artifact().value);
        var (tail', c', r) := StackDo(below', ms[1..], c, call);
        StackDiscipline(below', ms[1..], c, call);
        DisciplineOnTop(below, ms[0], ms[1..], c, call, tail', c', r);
        assert [ms[0]] + ms[1..] == ms;
      } else {
        MachineAdvancesOnce(ms[0], below, c, call);
      }
    }
  }

  /** Completed machines only pass the call on. */
  lemma {:induction false} DisciplineOnTop(
      below: Artifact, m: Machine, tail: seq<Machine>, c: Conn, call: Call, tail': seq<Machine>, c': Conn,
      r: Reply)
    requires m.IsComplete() && KeepsDiscipline(Protocol(below, m.Artifact().value), tail, c, call, tail', c', r)
    ensures KeepsDiscipline(below, [m] + tail, c, call, [m] + tail', c', r)
  {
    var ms, k := [m] + tail, Lowest(tail);
    assert ms[1..] == tail && Lowest(ms) == k + 1;
    assert ms[..k + 1][1..] == tail[..k];
  }

  /** The same of the nested session, for both calls. */
  lemma {:induction false} CallDiscipline(t: Tower, call: Call)
    requires ConnOf(t).peer.Some?
    ensures var (t', r) := TowerDo(t, call); var ms, ms' := MachinesOf(t), MachinesOf(t');
            var below := Below(t); var k := Lowest(ms);
            && |ms'| == |ms|
            && ConnOf(t').peer == ConnOf(t).peer
            && (Established(t) <==> k == |ms|)
            && (Established(t) ==>
                ms' == ms && (ConnOf(t'), r) == ConnDo(ConnOf(t), call) && ArtifactOf(t') == ArtifactOf(t))
            && (!Established(t) ==>
                && StackArtifact(below, ms[..k]).Some?
                && OneAdvance(ms[k], ms'[k], StackArtifact(below, ms[..k]).value)
                && ms' == ms[k := ms'[k]]
                && (call.ReadCall? ==> r.got.Err? || r.got == Ok([])))
  {
    CallRefines(t, call);
    ArtifactRefines(t);
    StackDiscipline(Below(t), MachinesOf(t), ConnOf(t), call);
    ArtifactRefines(TowerDo(t, call).0);
  }

  /** Over a connection without a peer no layer acts: every call goes to the connection. */
  lemma {:induction false} NoPeerPassesDown(t: Tower, call: Call)
    requires ConnOf(t).peer.None?
    ensures !Established(t)
    ensures var (c', r) := ConnDo(ConnOf(t), call); TowerDo(t, call) == (WithConn(t, c'), r)
  {
    if t.Base? {
    } else {
      NoPeerPassesDown(t.session, call);
    }
  }

  // ---------- What holds over every run of calls ----------

  predicate Untouched(m: Machine) {
    m.past == Past(None, [])
  }

  /** Every machine that was initialised was initialised with the artifact of the machines below
      it, was initialised before it advanced, and no machine above an incomplete one was used. */
  ghost predicate Disciplined(below: Artifact, ms: seq<Machine>)
    decreases |ms|
  {
    ms != [] ==>
      && (ms[0].past.init.Some? ==> ms[0].past.init == Some(below))
      && (ms[0].past.inputs != [] ==> ms[0].IsInit())
      && if ms[0].IsComplete() then Disciplined(Protocol(below, ms[0].Artifact().value), ms[1..])
         else forall j :: 1 <= j < |ms| ==> Untouched(ms[j])
  }

  lemma {:induction false} FreshIsDisciplined(below: Artifact, ms: seq<Machine>)
    requires forall j :: 0 <= j < |ms| ==> Untouched(ms[j])
    ensures Disciplined(below, ms)
    decreases |ms|
  {
    if ms != [] && ms[0].IsComplete() {
      FreshIsDisciplined(Protocol(below, ms[0].Artifact().value), ms[1..]);
    }
  }

  lemma {:induction false} CallKeepsDiscipline(below: Artifact, ms: seq<Machine>, c: Conn, call: Call)
    requires Disciplined(below, ms)
    ensures Disciplined(below, StackDo(below, ms, c, call).0)
    decreases |ms|
  {
    if ms == [] {
    } else {
      var ms' := StackDo(below, ms, c, call).0;
      if ms[0].IsComplete() {
        CallKeepsDiscipline(Protocol(below, ms[0].Artifact().value), ms[1..], c, call);
        assert ms'[1..] == StackDo(Protocol(below, ms[0].Artifact().value), ms[1..], c, call).0;
      } else {
        MachineAdvancesOnce(ms[0], below, c, call);
        assert ms'[1..] == ms[1..];
        if ms'[0].IsComplete() {
          FreshIsDisciplined(Protocol(below, ms'[0].Artifact().value), ms[1..]);
        }
      }
    }
  }

  /** A session after a run of calls. */
  function After(t: Tower, calls: seq<Call>): Tower
    decreases |calls|
  {
    if calls == [] then t else After(TowerDo(t, calls[0]).0, calls[1..])
  }

  ghost predicate DisciplinedTower(t: Tower) {
    ConnOf(t).peer.Some? && Disciplined(Below(t), MachinesOf(t))
  }

  /** Over every run of reads and writes from a disciplined session (a fresh one is): discipline is
      kept, and what was established stays established with the same artifact and machines. */
  lemma {:induction false} RunKeepsDiscipline(t: Tower, calls: seq<Call>)
    requires DisciplinedTower(t)
    ensures DisciplinedTower(After(t, calls))
    ensures Established(t) ==>
              ArtifactOf(After(t, calls)) == ArtifactOf(t) && MachinesOf(After(t, calls)) == MachinesOf(t)
    decreases |calls|
  {
    if calls == [] {
    } else {
      CallDiscipline(t, calls[0]);
      CallRefines(t, calls[0]);
      CallKeepsDiscipline(Below(t), MachinesOf(t), ConnOf(t), calls[0]);
      RunKeepsDiscipline(TowerDo(t, calls[0]).0, calls[1..]);
    }
  }

  // ---------- Application bytes during the handshake ----------

  /** Machines that only complete by advancing, and never with an empty act to an empty input. */
  ghost predicate Outspoken(ms: seq<Machine>) {
    forall i :: 0 <= i < |ms| ==> CompletesByAdvancing(ms[i].kind) && Vocal(ms[i].kind)
  }

  lemma {:induction false} StackRefuses(below: Artifact, ms: seq<Machine>, c: Conn, buf: Bytes)
    requires Disciplined(below, ms) && Outspoken(ms) && StackArtifact(below, ms).None? && buf != []
    ensures var r := StackDo(below, ms, c, WriteCall(buf)).2; r.Put? && r.put.Err?
    decreases |ms|
  {
    if ms[0].IsComplete() {
      StackRefuses(Protocol(below, ms[0].Artifact().value), ms[1..], c, buf);
    } else {
      assert !ms[0].Start(below).IsComplete();
    }
  }

  /** A session of outspoken machines accepts application bytes only once it is established. */
  lemma {:induction false} HandshakeRefusesWrites(t: Tower, buf: Bytes)
    requires DisciplinedTower(t) && Outspoken(MachinesOf(t)) && !Established(t) && buf != []
    ensures Write(t, buf).1.Err?
  {
    ArtifactRefines(t);
    CallRefines(t, WriteCall(buf));
    StackRefuses(Below(t), MachinesOf(t), ConnOf(t), buf);
  }

  // ---------- How the traffic splits ----------

  /** The connection has only taken what has arrived, in order, and added to what was sent. */
  ghost predicate Crosses(c: Conn, c': Conn) {
    && c'.peer == c.peer && Stream(c') == Stream(c) && c.sent <= c'.sent
    && (Calm(c.rx) ==> Calm(c'.rx)) && (Willing(c.tx) ==> Willing(c'.tx)) && |c'.tx| <= |c.tx|
  }

  lemma {:induction false} MachineCrosses(m: Machine, below: Artifact, c: Conn, call: Call)
    ensures Crosses(c, MachineDo(m, below, c, call).1)
  {
    var m1 := m.Start(below);
    if call.ReadCall? {
      var (c1, got) := c.ReadExact(m1.NextReadLen());
      ReadExactKeepsStream(c, m1.NextReadLen());
      if got.Ok? && m1.Advance(got.value).1.Some? { WriteAllCrosses(c1, m1.Advance(got.value).1.value); }
    } else {
      var act := m1.Advance([]).1;
      if act.Some? { WriteAllCrosses(c, act.value); }
    }
  }

  lemma {:induction false} WriteAllCrosses(c: Conn, buf: Bytes)
    ensures Crosses(c, c.WriteAll(buf).0)
  {
    WriteAllPuts(c, buf);
    if Willing(c.tx) { WriteAllKeepsWilling(c, buf); }
  }

  lemma {:induction false} StackCrosses(below: Artifact, ms: seq<Machine>, c: Conn, call: Call)
    ensures Crosses(c, StackDo(below, ms, c, call).1)
    decreases |ms|
  {
    if ms == [] {
      if call.ReadCall? { ReadKeepsStream(c, call.n); }
    } else if ms[0].IsComplete() {
      StackCrosses(Protocol(below, ms[0].Artifact().value), ms[1..], c, call);
    } else {
      MachineCrosses(ms[0], below, c, call);
    }
  }

  /** What a handshake call leaves of what has arrived. */
  lemma {:induction false} StackLeaves(below: Artifact, ms: seq<Machine>, c: Conn, call: Call)
    requires StackArtifact(below, ms).None?
    ensures StackDo(below, ms, c, call).1.rx == if call.ReadCall? then c.ReadExact(Need(below, ms)).0.rx else c.rx
    decreases |ms|
  {
    if ms[0].IsComplete() { StackLeaves(Protocol(below, ms[0].Artifact().value), ms[1..], c, call); }
  }

  /** Every call of a session of any depth takes from the connection in order and only adds to it. */
  lemma {:induction false} CallCrosses(t: Tower, call: Call)
    requires ConnOf(t).peer.Some?
    ensures Crosses(ConnOf(t), ConnOf(TowerDo(t, call).0))
  {
    CallRefines(t, call);
    StackCrosses(Below(t), MachinesOf(t), ConnOf(t), call);
  }

  /** All handshake inputs, in layer order. */
  function Inputs(ms: seq<Machine>): Bytes {
    if ms == [] then [] else Concat(ms[0].past.inputs) + Inputs(ms[1..])
  }

  /** All handshake acts, in layer order. */
  function Outputs(ms: seq<Machine>): Bytes {
    if ms == [] then [] else Acts(ms[0].kind, ms[0].past) + Outputs(ms[1..])
  }

  /** How many bytes the lowest incomplete machine waits for. */
  function Need(below: Artifact, ms: seq<Machine>): nat
    requires StackArtifact(below, ms).None?
    decreases |ms|
  {
    if ms[0].IsComplete() then Need(Protocol(below, ms[0].Artifact().value), ms[1..])
    else ms[0].Start(below).NextReadLen()
  }

  /** The act the lowest incomplete machine answers to `input`. */
  function Answer(below: Artifact, ms: seq<Machine>, input: Bytes): Bytes
    requires StackArtifact(below, ms).None?
    decreases |ms|
  {
    if ms[0].IsComplete() then Answer(Protocol(below, ms[0].Artifact().value), ms[1..], input)
    else
      var act := ms[0].Start(below).Advance(input).1;
      if act.Some? then act.value else []
  }

  /** A handshake read finds a whole act or nothing. */
  predicate WholeIn(need: nat, rx: seq<Rx>) {
    need <= |Available(rx)| || Available(rx) == []
  }

  /** A handshake read of this call finds a whole act or nothing, and the act it answers with, if
      any, is absorbed. */
  ghost predicate WholeCall(below: Artifact, ms: seq<Machine>, c: Conn, call: Call) {
    StackArtifact(below, ms).None? ==>
      && (call.ReadCall? ==> WholeIn(Need(below, ms), c.rx))
      && Absorbs(c.tx, |Act(below, ms, c, call)|)
  }

  /** The call that a transport makes during a handshake. */
  predicate HandshakeCall(call: Call) {
    call.WriteCall? ==> call.buf == []
  }

  /** The act a handshake call puts on the wire, if it can. */
  function Act(below: Artifact, ms: seq<Machine>, c: Conn, call: Call): Bytes
    requires StackArtifact(below, ms).None?
  {
    var need := Need(below, ms);
    match call
    case ReadCall(_) =>
      if need > 0 && need <= |Available(c.rx)| then Answer(below, ms, Available(c.rx)[..need]) else []
    case WriteCall(_) => if need == 0 then Answer(below, ms, []) else []
  }

  lemma {:induction false} ActsPush(kind: Kind, past: Past, input: Bytes)
    ensures Acts(kind, past.Push(input)) ==
            Acts(kind, past) + if kind.act(past.Push(input)).Some? then kind.act(past.Push(input)).value else []
  {
    assert past.Push(input).inputs[..|past.inputs|] == past.inputs;
  }

  lemma {:induction false} ActsAfterStart(m: Machine, below: Artifact)
    requires m.past.inputs != [] ==> m.IsInit()
    ensures m.Start(below).past.inputs == m.past.inputs
    ensures Acts(m.kind, m.Start(below).past) == Acts(m.kind, m.past)
  {
  }

  /** A handshake call that needs `need` bytes and answers `act` moves the connection from `c` to
      `c'`, the inputs heard from `heard` to `heard'` and the acts answered from `said` to `said'`. */
  ghost predicate Moves(
      call: Call, need: nat, act: Bytes, c: Conn, c': Conn, heard: Bytes, heard': Bytes, said: Bytes,
      said': Bytes) {
    var all := Available(c.rx);
    && said' == said + act
    && (Absorbs(c.tx, |act|) ==> c'.sent == c.sent + act)
    && (!Absorbs(c.tx, |act|) ==> exists k :: 0 <= k < |act| && c'.sent == c.sent + act[..k])
    && (call.WriteCall? ==> c'.taken == c.taken && heard' == heard)
    && (call.ReadCall? && need <= |all| ==> c'.taken == c.taken + all[..need] && heard' == heard + all[..need])
    && (call.ReadCall? && need > |all| ==> c'.taken == c.taken + all && heard' == heard)
  }

  /** The traffic of one handshake call on one machine. */
  lemma {:induction false} MachineTraffic(m: Machine, below: Artifact, c: Conn, call: Call)
    requires HandshakeCall(call) && !m.IsComplete()
    requires m.past.inputs != [] ==> m.IsInit()
    ensures var (m', c', _) := MachineDo(m, below, c, call);
            Moves(call, Need(below, [m]), Act(below, [m], c, call), c, c',
                  Concat(m.past.inputs), Concat(m'.past.inputs), Acts(m.kind, m.past), Acts(m'.kind, m'.past))
  {
    ActsAfterStart(m, below);
    if call.ReadCall? { ReadTraffic(m, below, c, call.n); } else { WriteTraffic(m, below, c); }
  }

  lemma {:induction false} ReadTraffic(m: Machine, below: Artifact, c: Conn, n: nat)
    requires !m.IsComplete() && m.Start(below).past.inputs == m.past.inputs
    requires Acts(m.kind, m.Start(below).past) == Acts(m.kind, m.past)
    ensures var (m', c', _) := MachineDo(m, below, c, ReadCall(n));
            Moves(ReadCall(n), Need(below, [m]), Act(below, [m], c, ReadCall(n)), c, c',
                  Concat(m.past.inputs), Concat(m'.past.inputs), Acts(m.kind, m.past), Acts(m'.kind, m'.past))
  {
    var m1, act := m.Start(below), Act(below, [m], c, ReadCall(n));
    var need := m1.NextReadLen();
    ReadExactTakes(c, need);
    if 0 < need <= |Available(c.rx)| {
      var input := Available(c.rx)[..need];
      ActsPush(m.kind, m1.past, input);
      ConcatPush(m.past.inputs, input);
      WriteAllPuts(c.ReadExact(need).0, act);
      AnswersAct(m, below, c, n);
    }
  }

  /** A whole act that has arrived is given to the machine, and its answer is sent. */
  lemma {:induction false} AnswersAct(m: Machine, below: Artifact, c: Conn, n: nat)
    requires 0 < m.Start(below).NextReadLen() <= |Available(c.rx)|
    ensures var (m', c', _) := MachineDo(m, below, c, ReadCall(n)); var need := m.Start(below).NextReadLen();
            var (m1, output) := m.Start(below).Advance(Available(c.rx)[..need]);
            && m' == m1
            && c' == c.ReadExact(need).0.WriteAll(if output.Some? then output.value else []).0
  {
    ReadExactTakes(c, m.Start(below).NextReadLen());
  }

  lemma {:induction false} WriteTraffic(m: Machine, below: Artifact, c: Conn)
    requires !m.IsComplete() && m.Start(below).past.inputs == m.past.inputs
    requires Acts(m.kind, m.Start(below).past) == Acts(m.kind, m.past)
    ensures var (m', c', _) := MachineDo(m, below, c, WriteCall([]));
            Moves(WriteCall([]), Need(below, [m]), Act(below, [m], c, WriteCall([])), c, c',
                  Concat(m.past.inputs), Concat(m'.past.inputs), Acts(m.kind, m.past), Acts(m'.kind, m'.past))
  {
    var m1, act := m.Start(below), Act(below, [m], c, WriteCall([]));
    if m1.NextReadLen() == 0 {
      ActsPush(m.kind, m1.past, []);
      ConcatPush(m.past.inputs, []);
      WriteAllPuts(c, act);
    }
  }

  lemma {:induction false} UntouchedIsSilent(ms: seq<Machine>)
    requires forall j :: 0 <= j < |ms| ==> Untouched(ms[j])
    ensures Inputs(ms) == [] && Outputs(ms) == []
  {
    if ms == [] {
    } else {
      UntouchedIsSilent(ms[1..]);
    }
  }

  /** The traffic of one handshake call on the whole stack: it is always added at the end of what
      all layers together have heard and said. */
  lemma {:induction false} StackTraffic(below: Artifact, ms: seq<Machine>, c: Conn, call: Call)
    requires Disciplined(below, ms) && StackArtifact(below, ms).None? && HandshakeCall(call)
    ensures var (ms', c', _) := StackDo(below, ms, c, call);
            Moves(call, Need(below, ms), Act(below, ms, c, call), c, c', Inputs(ms), Inputs(ms'), Outputs(ms),
                Outputs(ms'))
    decreases |ms|
  {
    var (ms', c', _) := StackDo(below, ms, c, call);
    if ms[0].IsComplete() {
      var below' := Protocol(below, ms[0].Artifact().value);
      StackTraffic(below', ms[1..], c, call);
      assert ms'[1..] == StackDo(below', ms[1..], c, call).0;
      MovesAfter(call, Need(below, ms), Act(below, ms, c, call), c, c', Inputs(ms[1..]), Inputs(ms'[1..]),
                 Outputs(ms[1..]), Outputs(ms'[1..]), Concat(ms[0].past.inputs), Acts(ms[0].kind, ms[0].past));
    } else {
      MachineTraffic(ms[0], below, c, call);
      UntouchedIsSilent(ms[1..]);
      assert ms'[1..] == ms[1..];
      assert Act(below, ms, c, call) == Act(below, [ms[0]], c, call);
      assert Inputs(ms) == Concat(ms[0].past.inputs) && Inputs(ms') == Concat(ms'[0].past.inputs);
      assert Outputs(ms) == Acts(ms[0].kind, ms[0].past) && Outputs(ms') == Acts(ms'[0].kind, ms'[0].past);
    }
  }

  lemma {:induction false} MovesAfter(
      call: Call, need: nat, act: Bytes, c: Conn, c': Conn, heard: Bytes, heard': Bytes, said: Bytes,
      said': Bytes, h: Bytes, s: Bytes)
    requires Moves(call, need, act, c, c', heard, heard', said, said')
    ensures Moves(call, need, act, c, c', h + heard, h + heard', s + said, s + said')
  {
  }

  /** Inbound partition, step by step and exactly: while a session is not established, the bytes
      taken stay equal to the handshake inputs if and only if no read meets a torn act. */
  lemma {:induction false} InboundExact(below: Artifact, ms: seq<Machine>, c: Conn, call: Call)
    requires Disciplined(below, ms) && StackArtifact(below, ms).None? && HandshakeCall(call)
    requires c.taken == Inputs(ms)
    ensures var (ms', c', _) := StackDo(below, ms, c, call);
            c'.taken == Inputs(ms') <==> (call.ReadCall? ==> WholeIn(Need(below, ms), c.rx))
  {
    StackTraffic(below, ms, c, call);
  }

  /** Outbound partition, step by step and exactly: the bytes sent stay equal to the handshake acts
      if and only if the connection absorbs the act of this step. */
  lemma {:induction false} OutboundExact(below: Artifact, ms: seq<Machine>, c: Conn, call: Call)
    requires Disciplined(below, ms) && StackArtifact(below, ms).None? && HandshakeCall(call)
    requires c.sent == Outputs(ms)
    ensures var (ms', c', _) := StackDo(below, ms, c, call);
            c'.sent == Outputs(ms') <==> Absorbs(c.tx, |Act(below, ms, c, call)|)
  {
    StackTraffic(below, ms, c, call);
  }
}
