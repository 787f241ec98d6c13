/** The blocking handshake (`run_handshake`) and the non-blocking one, driven by alternating write
    and read events, are the same handshake for an initiator of any depth. */
module Blocking {
  import opened Io
  import opened Connection
  import opened Machines
  import opened Session
  import opened Stack
  import opened Discipline

  // ---------- The blocking form ----------

  function Budget(m: Machine): nat {
    if |m.past.inputs| >= m.kind.rounds then 0 else m.kind.rounds - |m.past.inputs|
  }

  /** `NetStateMachine::run_handshake` from the point where `input` is to be advanced. */
  function Loop(m: Machine, input: Bytes, c: Conn): (r: (Machine, Conn, Result<()>))
    requires Bounded(m.kind)
    ensures r.0.kind == m.kind && (r.2.Ok? ==> r.2 == Ok(()) && r.0.IsComplete())
    ensures r.1.peer == c.peer
    decreases Budget(m)
  {
    if m.IsComplete() then (m, c, Ok(()))
    else
      var (m1, act) := m.Advance(input);
      if act.None? then (m1, c, Err(ConnectionAborted))
      else
        var (c1, put) := c.WriteAll(act.value);
        if put.Err? then (m1, c1, put)
        else if m1.IsComplete() then (m1, c1, Ok(()))
        else
          var (c2, got) := c1.ReadExact(m1.NextReadLen());
          if got.Err? then (m1, c2, Err(got.error)) else Loop(m1, got.value, c2)
  }

  /** The loop itself. */
  method RunMachine(m0: Machine, c0: Conn) returns (m: Machine, c: Conn, res: Result<()>)
    requires Bounded(m0.kind)
    ensures (m, c, res) == Loop(m0, [], c0)
  {
    m, c := m0, c0;
    var input := [];
    while !m.IsComplete()
      invariant m.kind == m0.kind
      invariant Loop(m, input, c) == Loop(m0, [], c0)
      decreases !m.IsComplete(), Budget(m)
    {
      var (m1, act) := m.Advance(input);
      m := m1;
      if act.None? {
        return m, c, Err(ConnectionAborted);
      }
      if act.value != [] {
        var (c1, put) := c.WriteAll(act.value);
        c := c1;
        if put.Err? {
          return m, c, put;
        }
      }
      if !m.IsComplete() {
        var (c2, got) := c.ReadExact(m.NextReadLen());
        c := c2;
        if got.Err? {
          return m, c, Err(got.error);
        }
        input := got.value;
      }
    }
    return m, c, Ok(());
  }

  ghost predicate Lawful(m: Machine) {
    && Bounded(m.kind) && CompletesByAdvancing(m.kind)
    && (m.past.inputs != [] ==> m.IsInit())
  }

  ghost predicate AllLawful(ms: seq<Machine>) {
    forall i :: 0 <= i < |ms| ==> Lawful(ms[i])
  }

  ghost predicate LawfulTower(t: Tower) {
    t.Layer? ==> Lawful(t.state) && LawfulTower(t.session)
  }

  /** `NetSession::run_handshake`: everything below first, then this layer, straight on the connection. */
  ghost function RunHandshake(t: Tower): (Tower, Result<()>)
    requires LawfulTower(t)
  {
    match t
    case Base(_) => (t, Ok(()))
    case Layer(m, s) =>
      var (s1, below) := if Established(s) then (s, Ok(())) else RunHandshake(s);
      if below.Err? then (Layer(m, s1), below)
      else
        var (m2, c2, r) := Loop(Init(m, s1), [], ConnOf(s1));
        (Layer(m2, WithConn(s1, c2)), r)
  }

  /** The same on the stack. */
  ghost function BlockStack(below: Artifact, ms: seq<Machine>, c: Conn): (r: (seq<Machine>, Conn, Result<()>))
    requires AllLawful(ms)
    ensures |r.0| == |ms| && r.1.peer == c.peer
    decreases |ms|
  {
    if ms == [] then ([], c, Ok(()))
    else
      var (m', c', r) := Loop(ms[0].Start(below), [], c);
      if r.Err? then ([m'] + ms[1..], c', r)
      else
        var (ms', c'', r') := BlockStack(Protocol(below, m'.Artifact().value), ms[1..], c');
        ([m'] + ms', c'', r')
  }

  lemma {:induction false} BlockComplete(below: Artifact, ms: seq<Machine>, c: Conn)
    requires AllLawful(ms) && StackArtifact(below, ms).Some?
    ensures BlockStack(below, ms, c) == (ms, c, Ok(()))
    decreases |ms|
  {
    if ms == [] {
    } else {
      BlockComplete(Protocol(below, ms[0].Artifact().value), ms[1..], c);
      assert [ms[0]] + ms[1..] == ms;
    }
  }

  lemma {:induction false} BlockOnTop(below: Artifact, ms: seq<Machine>, m: Machine, c: Conn)
    requires AllLawful(ms) && Lawful(m) && AllLawful(ms + [m])
    ensures var (ms', c', r) := BlockStack(below, ms, c);
            && (r.Ok? ==> StackArtifact(below, ms').Some?)
            && BlockStack(below, ms + [m], c) ==
               if r.Err? then (ms' + [m], c', r)
               else
                 var (m', c'', r') := Loop(m.Start(StackArtifact(below, ms').value), [], c');
                 (ms' + [m'], c'', r')
    decreases |ms|
  {
    if ms == [] {
      assert ms + [m] == [m] && [m][1..] == [];
      var (m', c', r) := Loop(m.Start(below), [], c);
      assert [m'] + [] == [m'] == ms + [m'];
      assert BlockStack(below, ms, c) == ([], c, Ok(()));
      if r.Ok? {
        assert BlockStack(Protocol(below, m'.Artifact().value), [], c') == ([], c', Ok(()));
      }
      assert BlockStack(below, [m], c) == ([m'], c', r);
    } else {
      assert (ms + [m])[1..] == ms[1..] + [m];
      var (m', c', r) := Loop(ms[0].Start(below), [], c);
      if r.Err? {
        assert [m'] + (ms[1..] + [m]) == ([m'] + ms[1..]) + [m];
      } else {
        var below' := Protocol(below, m'.Artifact().value);
        BlockOnTop(below', ms[1..], m, c');
        var (ms', _, _) := BlockStack(below', ms[1..], c');
        assert ([m'] + ms')[1..] == ms';
        assert forall x: Machine :: [m'] + (ms' + [x]) == ([m'] + ms') + [x];
      }
    }
  }

  lemma {:induction false} LawfulMachines(t: Tower)
    requires LawfulTower(t)
    ensures AllLawful(MachinesOf(t))
  {
    if t.Base? {
    } else {
      LawfulMachines(t.session);
    }
  }

  /** Refinement: the blocking handshake of the nested session is that of the stack. */
  lemma {:induction false} BlockingRefines(t: Tower)
    requires LawfulTower(t) && ConnOf(t).peer.Some?
    ensures AllLawful(MachinesOf(t))
    ensures var (t', r) := RunHandshake(t);
            BlockStack(Below(t), MachinesOf(t), ConnOf(t)) == (MachinesOf(t'), ConnOf(t'), r)
  {
    LawfulMachines(t);
    if t.Layer? {
      var m, s, c := t.state, t.session, ConnOf(t);
      var below := Below(t);
      BlockingRefines(s);
      BlockOnTop(below, MachinesOf(s), m, c);
      ArtifactRefines(s);
      var (s1, r1) := if Established(s) then (s, Ok(())) else RunHandshake(s);
      if Established(s) { BlockComplete(below, MachinesOf(s), c); }
      ArtifactRefines(s1);
      if r1.Ok? {
        MachinesIgnoreConn(s1, Loop(Init(m, s1), [], ConnOf(s1)).1);
      }
    }
  }

  // ---------- How the blocking form of a machine ends ----------

  /** The past of a machine after its first `i` inputs. */
  function Until(past: Past, i: nat): Past
    requires i <= |past.inputs|
  {
    past.(inputs := past.inputs[..i])
  }

  /** From its past `from` on the machine has come to `past` by a first input and then by inputs exactly as
      long as it asked for, always answering, and never complete before. */
  ghost predicate Asked(kind: Kind, from: Past, input: Bytes, past: Past) {
    var n := |from.inputs|;
    && n < |past.inputs| && Until(past, n) == from && past.inputs[n] == input
    && forall i :: n < i < |past.inputs| ==>
         var before := Until(past, i);
         kind.act(before).Some? && kind.artifact(before).None? && |past.inputs[i]| == kind.readLen(before)
  }

  /** After the last input: the machine fails; or the connection refuses its act; or it is complete; or
      what it asks for next has not arrived. There is no other end. */
  ghost predicate EndsFrom(m: Machine, c: Conn, c': Conn, r: Result<()>) {
    match m.kind.act(m.past)
    case None => c' == c && r == Err(ConnectionAborted)
    case Some(act) =>
      var c1 := c.WriteAll(act).0;
      if !Absorbs(c.tx, |act|) then c' == c1 && r == Err(Refusal(c.tx, |act|))
      else
        && c1.sent == c.sent + act && c1.rx == c.rx && c1.taken == c.taken
        && if m.kind.artifact(m.past).Some? then c' == c1 && r.Ok?
           else
             var need := m.kind.readLen(m.past);
             && need > |Available(c.rx)| && r == Err(Stop(c.rx)) && c' == c1.ReadExact(need).0
  }

  /** The machine, which was `m`, was run to `m'` with the result `r`: up to its last input, at the
      connection `c0`, everything it asked for was taken and every act it answered was sent, and nothing
      else; and there it ended. */
  ghost predicate RunsTo(
      m: Machine, input: Bytes, c: Conn, m': Machine, c': Conn, r: Result<()>, c0: Conn, said: Bytes) {
    && m'.kind == m.kind && Asked(m.kind, m.past, input, m'.past)
    && c0.taken == c.taken + Concat(m'.past.inputs[|m.past.inputs| + 1..]) && c0.sent == c.sent + said
    && Acts(m.kind, Until(m'.past, |m'.past.inputs| - 1)) == Acts(m.kind, m.past) + said
    && EndsFrom(m', c0, c', r)
  }

  /** The machine is given a next input: its act was sent, it is not complete, and enough has arrived. */
  predicate GoesOn(m: Machine, input: Bytes, c: Conn) {
    var (m1, act) := m.Advance(input);
    && act.Some? && !m1.IsComplete() && Absorbs(c.tx, |act.value|)
    && m1.NextReadLen() <= |Available(c.rx)|
  }

  /** The machine, its next input and the connection then. */
  function Onward(m: Machine, input: Bytes, c: Conn): (Machine, Bytes, Conn)
    requires GoesOn(m, input, c)
  {
    var (m1, act) := m.Advance(input);
    var need := m1.NextReadLen();
    (m1, Available(c.rx)[..need], c.WriteAll(act.value).0.ReadExact(need).0)
  }

  /** The blocking form of a machine runs until it has to end. */
  lemma {:induction false} LoopEndsAs(m: Machine, input: Bytes, c: Conn) returns (c0: Conn, said: Bytes)
    requires Bounded(m.kind) && !m.IsComplete()
    ensures var (m', c', r) := Loop(m, input, c); RunsTo(m, input, c, m', c', r, c0, said)
    decreases Budget(m)
  {
    if GoesOn(m, input, c) {
      var (m1, next, c2) := Onward(m, input, c);
      OneRound(m, input, c);
      var more;
      c0, more := LoopEndsAs(m1, next, c2);
      var (m', c', r) := Loop(m1, next, c2);
      said := m.Advance(input).1.value + more;
      AskedOnce(m, input, next, m', c, c2, c', r, c0, more);
    } else {
      LoopStops(m, input, c);
      c0, said := c, [];
    }
  }

  /** One round of the loop that goes on. */
  lemma {:induction false} OneRound(m: Machine, input: Bytes, c: Conn)
    requires Bounded(m.kind) && !m.IsComplete() && GoesOn(m, input, c)
    ensures var (m1, next, c2) := Onward(m, input, c); var act := m.Advance(input).1.value;
            && Loop(m, input, c) == Loop(m1, next, c2) && |next| == m1.NextReadLen()
            && c2.taken == c.taken + next && c2.sent == c.sent + act
  {
    var (m1, act) := m.Advance(input);
    WriteAllPuts(c, act.value);
    ReadExactTakes(c.WriteAll(act.value).0, m1.NextReadLen());
  }

  /** Otherwise it has come to its end. */
  lemma {:induction false} LoopStops(m: Machine, input: Bytes, c: Conn)
    requires Bounded(m.kind) && !m.IsComplete() && !GoesOn(m, input, c)
    ensures var (m', c', r) := Loop(m, input, c); RunsTo(m, input, c, m', c', r, c, [])
  {
    var (m1, act) := m.Advance(input);
    var n := |m.past.inputs|;
    assert m1.past.inputs[..n] == m.past.inputs && m1.past.inputs[n + 1..] == [];
    assert c.taken + [] == c.taken && c.sent + [] == c.sent;
    assert Acts(m.kind, m.past) + [] == Acts(m.kind, m.past);
    if act.Some? {
      WriteAllPuts(c, act.value);
      WriteAllRefuses(c, act.value);
      ReadExactTakes(c.WriteAll(act.value).0, m1.NextReadLen());
      ReadExactStops(c.WriteAll(act.value).0, m1.NextReadLen());
    }
  }

  /** What was run from the second input on was run from the first. */
  lemma {:induction false} AskedOnce(
      m: Machine, input: Bytes, next: Bytes, m': Machine, c: Conn, c2: Conn, c': Conn, r: Result<()>, c0: Conn,
      more: Bytes)
    requires m.Advance(input).1.Some? && !m.Advance(input).0.IsComplete()
    requires RunsTo(m.Advance(input).0, next, c2, m', c', r, c0, more)
    requires |next| == m.Advance(input).0.NextReadLen()
    requires c2.taken == c.taken + next && c2.sent == c.sent + m.Advance(input).1.value
    ensures RunsTo(m, input, c, m', c', r, c0, m.Advance(input).1.value + more)
  {
    var n, m1, inputs := |m.past.inputs|, m.Advance(input).0, m'.past.inputs;
    assert inputs[..n + 1] == m1.past.inputs;
    assert inputs[..n] == m1.past.inputs[..n] == m.past.inputs && inputs[n] == input;
    assert Until(m'.past, n + 1) == m1.past && Until(m'.past, n) == m.past;
    ActsPush(m.kind, m.past, input);
    AskedLonger(m.kind, m.past, input, next, m'.past);
    TakenLonger(inputs, n, next, c.taken, c2.taken, c0.taken);
    SaidLonger(c.sent, m.Advance(input).1.value, more);
    SaidLonger(Acts(m.kind, m.past), m.Advance(input).1.value, more);
  }

  lemma {:induction false} TakenLonger(
      inputs: seq<Bytes>, n: nat, next: Bytes, before: Bytes, between: Bytes, after: Bytes)
    requires n + 1 < |inputs| && inputs[n + 1] == next && between == before + next
    requires after == between + Concat(inputs[n + 2..])
    ensures after == before + Concat(inputs[n + 1..])
  {
    assert inputs[n + 1..][1..] == inputs[n + 2..];
    assert Concat(inputs[n + 1..]) == next + Concat(inputs[n + 2..]);
    SaidLonger(before, next, Concat(inputs[n + 2..]));
  }

  lemma {:induction false} SaidLonger(a: Bytes, b: Bytes, c: Bytes)
    ensures (a + b) + c == a + (b + c)
  {
  }

  lemma {:induction false} AskedLonger(kind: Kind, from: Past, input: Bytes, next: Bytes, past: Past)
    requires Asked(kind, from.Push(input), next, past)
    requires kind.act(from.Push(input)).Some? && kind.artifact(from.Push(input)).None?
    requires |next| == kind.readLen(from.Push(input))
    ensures Asked(kind, from, input, past)
  {
    var n := |from.inputs|;
    assert past.inputs[..n + 1] == from.Push(input).inputs;
    assert past.inputs[..n] == from.Push(input).inputs[..n] == from.inputs;
    forall i | n < i < |past.inputs|
      ensures var before := Until(past, i);
              kind.act(before).Some? && kind.artifact(before).None? && |past.inputs[i]| == kind.readLen(before)
    {
      if i == n + 1 { assert Until(past, i) == from.Push(input); }
    }
  }

  /** A blocking handshake that succeeds leaves an established session. */
  lemma {:induction false} BlockingEstablishes(t: Tower)
    requires LawfulTower(t) && ConnOf(t).peer.Some? && RunHandshake(t).1.Ok?
    ensures Established(RunHandshake(t).0)
  {
    if t.Base? {
    } else {
      var (s1, below) := if Established(t.session) then (t.session, Ok(())) else RunHandshake(t.session);
      if !Established(t.session) { BlockingEstablishes(t.session); }
      ArtifactIgnoresTraffic(s1, Loop(Init(t.state, s1), [], ConnOf(s1)).1);
    }
  }

  // ---------- The non-blocking form ----------

  /** One write event, then, unless that was the end, one read event. */
  function Round(t: Tower): (Tower, Result<()>) {
    var (t1, w) := TowerDo(t, WriteCall([]));
    if Outcome(w).Err? || Established(t1) then (t1, Outcome(w))
    else
      var (t2, r) := TowerDo(t1, ReadCall(READ_BUFFER_SIZE));
      (t2, Outcome(r))
  }

  /** Up to `k` rounds, until the session is established or a call fails. */
  function Alternate(t: Tower, k: nat): (Tower, Result<()>)
    decreases k
  {
    if k == 0 || Established(t) then (t, Ok(()))
    else
      var (t1, r) := Round(t);
      if r.Err? then (t1, r) else Alternate(t1, k - 1)
  }

  function StackRound(below: Artifact, ms: seq<Machine>, c: Conn): (r: (seq<Machine>, Conn, Result<()>))
    ensures |r.0| == |ms|
  {
    var (ms1, c1, w) := StackDo(below, ms, c, WriteCall([]));
    if Outcome(w).Err? || StackArtifact(below, ms1).Some? then (ms1, c1, Outcome(w))
    else
      var (ms2, c2, r) := StackDo(below, ms1, c1, ReadCall(READ_BUFFER_SIZE));
      (ms2, c2, Outcome(r))
  }

  /** The rounds of the nested session are those of the stack. */
  lemma {:induction false} RoundRefines(t: Tower)
    requires ConnOf(t).peer.Some?
    ensures var (t', r) := Round(t);
            StackRound(Below(t), MachinesOf(t), ConnOf(t)) == (MachinesOf(t'), ConnOf(t'), r)
            && ConnOf(t').peer == ConnOf(t).peer
  {
    CallRefines(t, WriteCall([]));
    CallDiscipline(t, WriteCall([]));
    var t1 := TowerDo(t, WriteCall([])).0;
    ArtifactRefines(t1);
    CallRefines(t1, ReadCall(READ_BUFFER_SIZE));
    CallDiscipline(t1, ReadCall(READ_BUFFER_SIZE));
  }

  // ---------- What is left of the blocking form in the middle of the non-blocking one ----------

  /** The machine waits for its first input without reading: it opens the handshake. */
  ghost predicate Opens(m: Machine) {
    !m.IsComplete() ==> forall a: Artifact :: m.Start(a).NextReadLen() == 0
  }

  /** The blocking form of one machine from the point where it waits for its next input. */
  function Awaits(m: Machine, c: Conn): (r: (Machine, Conn, Result<()>))
    requires Bounded(m.kind)
    ensures r.0.kind == m.kind && (r.2.Ok? && !m.IsComplete() ==> r.0.IsComplete())
  {
    if m.IsComplete() then (m, c, Ok(()))
    else
      var (c1, got) := c.ReadExact(m.NextReadLen());
      if got.Err? then (m, c1, Err(got.error)) else Loop(m, got.value, c1)
  }

  /** The blocking form of the stack from the point where its lowest incomplete machine waits. */
  ghost function Cont(below: Artifact, ms: seq<Machine>, c: Conn): (r: (seq<Machine>, Conn, Result<()>))
    requires AllLawful(ms)
    ensures |r.0| == |ms|
    decreases |ms|, 1
  {
    if ms == [] then ([], c, Ok(())) else ContFrom(below, ms[0], ms[1..], c)
  }

  ghost function ContFrom(
      below: Artifact, m: Machine, tail: seq<Machine>, c: Conn): (r: (seq<Machine>, Conn, Result<()>))
    requires Lawful(m) && AllLawful(tail)
    ensures |r.0| == 1 + |tail|
    decreases |tail| + 1, 0
  {
    var (m', c', r) := Awaits(m.Start(below), c);
    if r.Err? then ([m'] + tail, c', r)
    else
      var (ms', c'', r') := Cont(Protocol(below, m'.Artifact().value), tail, c');
      ([m'] + ms', c'', r')
  }

  /** Every machine the blocking form comes to opens its handshake. */
  ghost predicate OpensAlong(below: Artifact, ms: seq<Machine>, c: Conn)
    requires AllLawful(ms)
    decreases |ms|
  {
    ms != [] ==>
      var m := ms[0].Start(below);
      var (m', c', r) := Loop(m, [], c);
      && (m.IsComplete() || m.NextReadLen() == 0)
      && (r.Ok? ==> OpensAlong(Protocol(below, m'.Artifact().value), ms[1..], c'))
  }

  lemma {:induction false} AllOpenAlong(below: Artifact, ms: seq<Machine>, c: Conn)
    requires AllLawful(ms) && forall i :: 0 <= i < |ms| ==> Opens(ms[i])
    ensures OpensAlong(below, ms, c)
    decreases |ms|
  {
    if ms == [] {
    } else {
      var (m', c', r) := Loop(ms[0].Start(below), [], c);
      if r.Ok? { AllOpenAlong(Protocol(below, m'.Artifact().value), ms[1..], c'); }
    }
  }

  /** There the blocking form is what is left of it at its beginning. */
  lemma {:induction false} BlockFromOpening(below: Artifact, ms: seq<Machine>, c: Conn)
    requires AllLawful(ms) && OpensAlong(below, ms, c)
    ensures BlockStack(below, ms, c) == Cont(below, ms, c)
    decreases |ms|
  {
    if ms == [] {
    } else {
      var m := ms[0].Start(below);
      assert Loop(m, [], c) == Awaits(m, c);
      var (m', c', r) := Awaits(m, c);
      if r.Ok? { BlockFromOpening(Protocol(below, m'.Artifact().value), ms[1..], c'); }
    }
  }

  /** One step of the blocking form of a machine: the next input, its answer, and what then is left. */
  lemma {:induction false} AwaitsUnfolds(m: Machine, c: Conn)
    requires Bounded(m.kind) && !m.IsComplete()
    ensures var (c1, got) := c.ReadExact(m.NextReadLen());
            Awaits(m, c) ==
            if got.Err? then (m, c1, Err(got.error))
            else
              var (m1, act) := m.Advance(got.value);
              if act.None? then (m1, c1, Err(ConnectionAborted))
              else
                var (c2, put) := c1.WriteAll(act.value);
                if put.Err? then (m1, c2, put) else Awaits(m1, c2)
  {
  }

  predicate Event(call: Call) {
    call == WriteCall([]) || call == ReadCall(READ_BUFFER_SIZE)
  }

  /** How much a machine may still have to do. */
  function Weight(m: Machine): nat {
    if m.IsComplete() then 0 else 1 + Budget(m)
  }

  /** The machine is about to answer an empty act to an empty input. Its write call then passes an empty
      write on to the connection, which the blocking form does not. */
  predicate Mute(m: Machine) {
    m.NextReadLen() == 0 && m.Advance([]).1 == Some([])
  }

  /** A call took the machine `m` over `c` to `m'` over `c'` as a part of its blocking form: what was
      left of it before is what it made of it now and what is left after. */
  ghost predicate IsPartOf(m: Machine, c: Conn, m': Machine, c': Conn, r: Result<()>)
    requires Bounded(m.kind) && m'.kind == m.kind
  {
    && c'.peer == c.peer && |c'.tx| <= |c.tx|
    && (r.Err? ==> Awaits(m, c) == (m', c', r))
    && (r.Ok? ==> Awaits(m, c) == Awaits(m', c'))
  }

  lemma {:induction false} WriteIsPart(m: Machine, below: Artifact, c: Conn)
    requires Lawful(m) && !m.IsComplete() && (Mute(m.Start(below)) ==> c.tx == [])
    ensures var (m', c', r) := MachineDo(m, below, c, WriteCall([])); var m1 := m.Start(below);
            && IsPartOf(m1, c, m', c', Outcome(r))
            && (m1.NextReadLen() != 0 ==> m' == m1)
            && (m1.NextReadLen() == 0 ==> m' == m1.Advance([]).0)
            && (Outcome(r).Ok? && m1.NextReadLen() == 0 ==> m1.Advance([]).1.Some?)
  {
    var m1 := m.Start(below);
    AwaitsUnfolds(m1, c);
    if m1.NextReadLen() == 0 {
      assert c.ReadExact(0) == (c, Ok([]));
      if m1.Advance([]).1 == Some([]) {
        assert c.tx == [] && c.sent + [] == c.sent;
        assert c.Write([]) == (c, Ok(0));
      }
    }
  }

  lemma {:induction false} ReadIsPart(m: Machine, below: Artifact, c: Conn, n: nat)
    requires Lawful(m) && !m.IsComplete()
    ensures var (m', c', r) := MachineDo(m, below, c, ReadCall(n)); var m1 := m.Start(below);
            && IsPartOf(m1, c, m', c', Outcome(r))
            && (m1.NextReadLen() == 0 ==> m' == m1)
            && (Outcome(r).Ok? && m1.NextReadLen() != 0 ==>
                exists x :: m' == m1.Advance(x).0 && m1.Advance(x).1.Some?)
  {
    var m1 := m.Start(below);
    AwaitsUnfolds(m1, c);
    ReadExactTakes(c, m1.NextReadLen());
  }

  /** A call weighs a machine down exactly when it is the one the machine waits for. */
  lemma {:induction false} CallIsPart(m: Machine, below: Artifact, c: Conn, call: Call)
    requires Lawful(m) && !m.IsComplete() && Event(call) && (call.WriteCall? && Mute(m.Start(below)) ==> c.tx == [])
    ensures var (m', c', r) := MachineDo(m, below, c, call); var m1 := m.Start(below);
            && Lawful(m') && m'.kind == m.kind && m'.Start(below) == m'
            && IsPartOf(m1, c, m', c', Outcome(r))
            && (Outcome(r).Ok? ==> if (m1.NextReadLen() == 0) == call.WriteCall? then Weight(m') < Weight(m)
                else m' == m1 && Weight(m') == Weight(m))
  {
    MachineAdvancesOnce(m, below, c, call);
    if call.WriteCall? { WriteIsPart(m, below, c); } else { ReadIsPart(m, below, c, call.n); }
  }

  function StackWeight(ms: seq<Machine>): nat {
    if ms == [] then 0 else Weight(ms[0]) + StackWeight(ms[1..])
  }

  /** The lowest incomplete machine is about to answer an empty act to an empty input. */
  predicate MuteNext(below: Artifact, ms: seq<Machine>)
    requires StackArtifact(below, ms).None?
    decreases |ms|
  {
    if ms[0].IsComplete() then MuteNext(Protocol(below, ms[0].Artifact().value), ms[1..]) else Mute(ms[0].Start(below))
  }

  /** A write call passes no empty write on, or there is no listed outcome for it to use up. */
  predicate Quiet(below: Artifact, ms: seq<Machine>, c: Conn) {
    StackArtifact(below, ms).None? && MuteNext(below, ms) ==> c.tx == []
  }

  /** The call took the stack from `ms` over `c` to `ms'` over `c'` as a part of its blocking form. */
  ghost predicate IsPart(
      below: Artifact, ms: seq<Machine>, c: Conn, call: Call, ms': seq<Machine>, c': Conn, r: Result<()>)
    requires StackArtifact(below, ms).None? && AllLawful(ms)
  {
    && AllLawful(ms') && c'.peer == c.peer
    && (r.Err? ==> Cont(below, ms, c) == (ms', c', r))
    && (r.Ok? ==> Cont(below, ms, c) == Cont(below, ms', c'))
    && (r.Ok? && (Need(below, ms) == 0) == call.WriteCall? ==> StackWeight(ms') < StackWeight(ms))
    && (r.Ok? && (Need(below, ms) == 0) != call.WriteCall? ==>
        StackArtifact(below, ms').None? && Need(below, ms') == Need(below, ms) && StackWeight(ms') == StackWeight(ms))
  }

  /** Completed machines only pass the call on. */
  lemma {:induction false} PartOfTail(
      below: Artifact, m: Machine, tail: seq<Machine>, c: Conn, call: Call, tail': seq<Machine>, c': Conn,
      r: Result<()>)
    requires Lawful(m) && m.IsComplete() && AllLawful(tail)
    requires StackArtifact(Protocol(below, m.Artifact().value), tail).None?
    requires IsPart(Protocol(below, m.Artifact().value), tail, c, call, tail', c', r)
    ensures AllLawful([m] + tail) && StackArtifact(below, [m] + tail).None?
    ensures IsPart(below, [m] + tail, c, call, [m] + tail', c', r)
  {
    assert ([m] + tail)[1..] == tail && ([m] + tail')[1..] == tail';
    ContOverComplete(below, m, tail, c);
    ContOverComplete(below, m, tail', c');
  }

  lemma {:induction false} ContOverComplete(below: Artifact, m: Machine, tail: seq<Machine>, c: Conn)
    requires Lawful(m) && m.IsComplete() && AllLawful(tail)
    ensures AllLawful([m] + tail)
    ensures var (ms', c', r) := Cont(Protocol(below, m.Artifact().value), tail, c);
        Cont(below, [m] + tail, c) == ([m] + ms', c', r)
  {
    assert ([m] + tail)[1..] == tail;
  }

  /** A call on the stack is a part of its blocking form, too. */
  lemma {:induction false} StackCallIsPart(below: Artifact, ms: seq<Machine>, c: Conn, call: Call)
    requires AllLawful(ms) && StackArtifact(below, ms).None? && Event(call) && (call.WriteCall? ==> Quiet(below, ms, c))
    ensures var (ms', c', r) := StackDo(below, ms, c, call); IsPart(below, ms, c, call, ms', c', Outcome(r))
    decreases |ms|
  {
    var (ms', c', r) := StackDo(below, ms, c, call);
    if ms[0].IsComplete() {
      var below' := Protocol(below, ms[0].Artifact().value);
      StackCallIsPart(below', ms[1..], c, call);
      PartOfTail(below, ms[0], ms[1..], c, call, StackDo(below', ms[1..], c, call).0, c', Outcome(r));
      assert [ms[0]] + ms[1..] == ms;
    } else {
      PartOfHead(below, ms, c, call);
    }
  }

  lemma {:induction false} PartOfHead(below: Artifact, ms: seq<Machine>, c: Conn, call: Call)
    requires AllLawful(ms) && ms != [] && !ms[0].IsComplete() && Event(call)
        && (call.WriteCall? ==> Quiet(below, ms, c))
    ensures var (m', c', r) := MachineDo(ms[0], below, c, call);
        IsPart(below, ms, c, call, [m'] + ms[1..], c', Outcome(r))
  {
    var (m', c', r) := MachineDo(ms[0], below, c, call);
    var ms' := [m'] + ms[1..];
    CallIsPart(ms[0], below, c, call);
    assert ms'[1..] == ms[1..];
    assert Cont(below, ms', c') == ContFrom(below, m', ms[1..], c');
    assert Cont(below, ms, c) == ContFrom(below, ms[0], ms[1..], c);
  }

  lemma {:induction false} ContComplete(below: Artifact, ms: seq<Machine>, c: Conn)
    requires AllLawful(ms) && StackArtifact(below, ms).Some?
    ensures Cont(below, ms, c) == (ms, c, Ok(()))
    decreases |ms|
  {
    if ms == [] {
    } else {
      ContComplete(Protocol(below, ms[0].Artifact().value), ms[1..], c);
      assert [ms[0]] + ms[1..] == ms;
    }
  }

  /** A round keeps what is left of the blocking form, and makes it less. */
  lemma {:induction false} RoundIsPart(below: Artifact, ms: seq<Machine>, c: Conn)
    requires AllLawful(ms) && StackArtifact(below, ms).None? && Quiet(below, ms, c)
    ensures var (ms', c', r) := StackRound(below, ms, c);
            && AllLawful(ms')
            && (r.Err? ==> Cont(below, ms, c) == (ms', c', r))
            && (r.Ok? ==> Cont(below, ms, c) == Cont(below, ms', c') && StackWeight(ms') < StackWeight(ms))
  {
    StackCallIsPart(below, ms, c, WriteCall([]));
    var (ms1, c1, w) := StackDo(below, ms, c, WriteCall([]));
    if Outcome(w).Ok? && StackArtifact(below, ms1).None? {
      StackCallIsPart(below, ms1, c1, ReadCall(READ_BUFFER_SIZE));
    }
  }

  predicate QuietNow(t: Tower) {
    ConnOf(t).peer.Some? ==> Quiet(Below(t), MachinesOf(t), ConnOf(t))
  }

  /** At no round of the non-blocking form an empty write uses up a listed outcome. */
  ghost predicate QuietRun(t: Tower) {
    forall k: nat :: Alternate(t, k).1.Ok? ==> QuietNow(Alternate(t, k).0)
  }

  lemma {:induction false} QuietFromHere(t: Tower)
    requires QuietRun(t)
    ensures QuietNow(t)
    ensures !Established(t) && Round(t).1.Ok? ==> QuietRun(Round(t).0)
  {
    assert Alternate(t, 0) == (t, Ok(()));
    if !Established(t) && Round(t).1.Ok? {
      forall k: nat ensures Alternate(Round(t).0, k) == Alternate(t, k + 1) {
      }
    }
  }

  /** One round of the session, as a part of its blocking form. */
  lemma {:induction false} TowerRoundIsPart(t: Tower)
    requires ConnOf(t).peer.Some? && AllLawful(MachinesOf(t)) && QuietNow(t) && !Established(t)
    ensures var (t', r) := Round(t); var below := Below(t);
            var ms, c, ms', c' := MachinesOf(t), ConnOf(t), MachinesOf(t'), ConnOf(t');
            && AllLawful(ms') && c'.peer == c.peer
            && (r.Err? ==> Cont(below, ms, c) == (ms', c', r))
            && (r.Ok? ==> Cont(below, ms, c) == Cont(below, ms', c') && StackWeight(ms') < StackWeight(ms))
  {
    ArtifactRefines(t);
    RoundRefines(t);
    RoundIsPart(Below(t), MachinesOf(t), ConnOf(t));
  }

  /** `k` rounds of the non-blocking form reach what is left of the blocking one. */
  ghost predicate Reaches(t: Tower, k: nat)
    requires ConnOf(t).peer.Some? && AllLawful(MachinesOf(t))
  {
    var (t', r) := Alternate(t, k);
    Cont(Below(t), MachinesOf(t), ConnOf(t)) == (MachinesOf(t'), ConnOf(t'), r)
  }

  lemma {:induction false} ReachedByFailing(t: Tower)
    requires ConnOf(t).peer.Some? && AllLawful(MachinesOf(t)) && QuietRun(t)
    requires !Established(t) && Round(t).1.Err?
    ensures Reaches(t, 1)
  {
    QuietFromHere(t);
    TowerRoundIsPart(t);
  }

  lemma {:induction false} ReachedOneLater(t: Tower, k: nat)
    requires ConnOf(t).peer.Some? && AllLawful(MachinesOf(t)) && QuietRun(t)
    requires !Established(t) && Round(t).1.Ok?
    requires var t1 := Round(t).0; ConnOf(t1).peer.Some? && AllLawful(MachinesOf(t1)) && Reaches(t1, k)
    ensures Reaches(t, k + 1)
  {
    QuietFromHere(t);
    TowerRoundIsPart(t);
  }

  lemma {:induction false} RoundLeavesLess(t: Tower)
    requires ConnOf(t).peer.Some? && AllLawful(MachinesOf(t)) && QuietRun(t) && !Established(t) && Round(t).1.Ok?
    ensures var t1 := Round(t).0;
            && ConnOf(t1).peer.Some? && AllLawful(MachinesOf(t1)) && QuietRun(t1)
            && StackWeight(MachinesOf(t1)) < StackWeight(MachinesOf(t))
  {
    QuietFromHere(t);
    TowerRoundIsPart(t);
  }

  lemma {:induction false} ReachedAlready(t: Tower)
    requires ConnOf(t).peer.Some? && AllLawful(MachinesOf(t)) && Established(t)
    ensures Reaches(t, 0)
  {
    ArtifactRefines(t);
    ContComplete(Below(t), MachinesOf(t), ConnOf(t));
  }

  lemma {:induction false} AlternateReaches(t: Tower) returns (k: nat)
    requires ConnOf(t).peer.Some? && AllLawful(MachinesOf(t)) && QuietRun(t)
    ensures Reaches(t, k)
    decreases StackWeight(MachinesOf(t))
  {
    if Established(t) {
      ReachedAlready(t);
      k := 0;
    } else if Round(t).1.Err? {
      ReachedByFailing(t);
      k := 1;
    } else {
      RoundLeavesLess(t);
      var more := AlternateReaches(Round(t).0);
      ReachedOneLater(t, more);
      k := more + 1;
    }
  }

  lemma {:induction false} OpeningReaches(t: Tower)
    requires ConnOf(t).peer.Some? && LawfulTower(t) && AllLawful(MachinesOf(t)) && QuietRun(t)
    requires OpensAlong(Below(t), MachinesOf(t), ConnOf(t))
    ensures exists k :: Alternate(t, k) == RunHandshake(t)
  {
    BlockingRefines(t);
    BlockFromOpening(Below(t), MachinesOf(t), ConnOf(t));
    var k := AlternateReaches(t);
    TowerIsItsParts(Alternate(t, k).0, RunHandshake(t).0);
  }

  /** For an initiator of any depth (every incomplete machine opens its handshake), the blocking
      handshake and the alternating non-blocking one are the same, successful or not, whatever the
      connection delivers, takes in parts or refuses: the same `advance` calls on every machine (they
      are the machines' pasts), the same bytes taken and sent, and the same result. */
  lemma {:induction false} BlockingEqualsAlternating(t: Tower)
    requires ConnOf(t).peer.Some? && LawfulTower(t) && QuietRun(t)
    requires forall i :: 0 <= i < |MachinesOf(t)| ==> Opens(MachinesOf(t)[i])
    ensures exists k :: Alternate(t, k) == RunHandshake(t)
  {
    LawfulMachines(t);
    AllOpenAlong(Below(t), MachinesOf(t), ConnOf(t));
    OpeningReaches(t);
  }

  // ---------- Why the machines have to open their handshakes ----------

  /** The blocking form gives an incomplete machine an empty input first, whatever it waits for. */
  lemma {:induction false} LoopBegins(m: Machine, input: Bytes, c: Conn)
    requires Bounded(m.kind) && !m.IsComplete()
    ensures m.past.inputs + [input] <= Loop(m, input, c).0.past.inputs
    decreases Budget(m)
  {
    var (m1, act) := m.Advance(input);
    if act.Some? {
      var (c1, put) := c.WriteAll(act.value);
      if put.Ok? && !m1.IsComplete() {
        var (c2, got) := c1.ReadExact(m1.NextReadLen());
        if got.Ok? { LoopBegins(m1, got.value, c2); }
      }
    }
  }

  /** Over the artifact `a` the machine `m` waits for its peer first. */
  predicate WaitsFirst(m: Machine, a: Artifact) {
    !m.Start(a).IsComplete() && m.Start(a).NextReadLen() > 0
  }

  /** If some machine the blocking form comes to waits first, that one is given an empty input. */
  lemma {:induction false} BlocksOnEmpty(below: Artifact, ms: seq<Machine>, c: Conn) returns (j: nat, a: Artifact)
    requires AllLawful(ms) && !OpensAlong(below, ms, c)
    ensures j < |ms| && WaitsFirst(ms[j], a)
    ensures var ms' := BlockStack(below, ms, c).0;
            StackArtifact(below, ms'[..j]) == Some(a) && ms[j].past.inputs + [[]] <= ms'[j].past.inputs
    decreases |ms|
  {
    var m := ms[0].Start(below);
    if WaitsFirst(ms[0], below) {
      j, a := 0, below;
      LoopBegins(m, [], c);
      assert BlockStack(below, ms, c).0[..0] == [];
    } else {
      var (m', c', _) := Loop(m, [], c);
      var below' := Protocol(below, m'.Artifact().value);
      var i;
      i, a := BlocksOnEmpty(below', ms[1..], c');
      j := i + 1;
      PrefixOnTop(below, m', BlockStack(below', ms[1..], c').0, i);
    }
  }

  lemma {:induction false} PrefixOnTop(below: Artifact, m: Machine, tail: seq<Machine>, i: nat)
    requires m.IsComplete() && i <= |tail|
    ensures StackArtifact(below, ([m] + tail)[..i + 1]) == StackArtifact(Protocol(below, m.Artifact().value), tail[..i])
  {
    assert ([m] + tail)[..i + 1] == [m] + tail[..i];
  }

  /** The machine at `j`, which was `m0`, has not been used yet, or over the artifact `a` it has
      advanced by nothing yet or by a non-empty input first. */
  ghost predicate NeverEmptyFirst(below: Artifact, m0: Machine, a: Artifact, ms: seq<Machine>, j: nat) {
    && j < |ms|
    && var m, i := ms[j], |m0.past.inputs|;
       match StackArtifact(below, ms[..j])
       case None => m == m0
       case Some(b) => b == a ==> m == m0 || m == m0.Start(a) || (|m.past.inputs| > i && m.past.inputs[i] != [])
  }

  lemma {:induction false} MachineNeverEmptyFirst(m0: Machine, a: Artifact, m: Machine, c: Conn, call: Call)
    requires WaitsFirst(m0, a) && NeverEmptyFirst(a, m0, a, [m], 0)
    ensures NeverEmptyFirst(a, m0, a, [MachineDo(m, a, c, call).0], 0)
  {
    var m', i := MachineDo(m, a, c, call).0, |m0.past.inputs|;
    assert [m][..0] == [] && [m'][..0] == [];
    MachineAdvancesOnce(m, a, c, call);
    if m == m0 || m == m0.Start(a) {
      assert m.Start(a) == m0.Start(a);
    } else {
      assert m'.past.inputs[i] == m.past.inputs[i];
    }
  }

  lemma {:induction false} CallNeverEmptyFirst(
      below: Artifact, m0: Machine, a: Artifact, ms: seq<Machine>, j: nat, c: Conn, call: Call)
    requires WaitsFirst(m0, a) && NeverEmptyFirst(below, m0, a, ms, j)
    ensures NeverEmptyFirst(below, m0, a, StackDo(below, ms, c, call).0, j)
    decreases |ms|
  {
    var ms' := StackDo(below, ms, c, call).0;
    if ms[0].IsComplete() {
      if j > 0 {
        var below' := Protocol(below, ms[0].Artifact().value);
        assert ms[..j][1..] == ms[1..][..j - 1];
        CallNeverEmptyFirst(below', m0, a, ms[1..], j - 1, c, call);
        assert ms'[1..] == StackDo(below', ms[1..], c, call).0;
        assert ms'[..j][1..] == ms'[1..][..j - 1];
      } else {
        assert ms'[0] == ms[0] && ms'[..0] == ms[..0];
      }
    } else if j == 0 {
      assert ms[..0] == [] && ms'[..0] == [];
      if below == a { MachineNeverEmptyFirst(m0, a, ms[0], c, call); }
    } else {
      assert ms'[j] == ms[j] == m0;
    }
  }

  lemma {:induction false} AlternateNeverEmptyFirst(t: Tower, m0: Machine, a: Artifact, j: nat, k: nat)
    requires ConnOf(t).peer.Some? && WaitsFirst(m0, a)
    requires NeverEmptyFirst(Below(t), m0, a, MachinesOf(t), j)
    ensures NeverEmptyFirst(Below(t), m0, a, MachinesOf(Alternate(t, k).0), j)
    decreases k
  {
    if k > 0 && !Established(t) {
      var below, ms, c := Below(t), MachinesOf(t), ConnOf(t);
      RoundRefines(t);
      CallNeverEmptyFirst(below, m0, a, ms, j, c, WriteCall([]));
      var (ms1, c1, _) := StackDo(below, ms, c, WriteCall([]));
      CallNeverEmptyFirst(below, m0, a, ms1, j, c1, ReadCall(READ_BUFFER_SIZE));
      if Round(t).1.Ok? { AlternateNeverEmptyFirst(Round(t).0, m0, a, j, k - 1); }
    }
  }

  /** If some machine the blocking form comes to waits for its peer first (as a responder's does), the
      two forms are never in the same state, not even half-way: the blocking one has given that
      machine an empty input. */
  lemma {:induction false} ResponderDiffers(t: Tower, k: nat)
    requires ConnOf(t).peer.Some? && LawfulTower(t) && AllLawful(MachinesOf(t))
    requires !OpensAlong(Below(t), MachinesOf(t), ConnOf(t))
    ensures Alternate(t, k).0 != RunHandshake(t).0
  {
    var below, ms := Below(t), MachinesOf(t);
    BlockingRefines(t);
    var j, a := BlocksOnEmpty(below, ms, ConnOf(t));
    AlternateNeverEmptyFirst(t, ms[j], a, j, k);
    var i, blocked := |ms[j].past.inputs|, MachinesOf(RunHandshake(t).0);
    assert blocked[j].past.inputs[i] == (ms[j].past.inputs + [[]])[i] == [];
  }

  /** So the two forms agree if and only if no machine that the handshake comes to waits for its
      peer first: at any depth, over any connection. */
  lemma {:induction false} AgreeIffOpens(t: Tower)
    requires ConnOf(t).peer.Some? && LawfulTower(t) && QuietRun(t)
    ensures AllLawful(MachinesOf(t))
    ensures (exists k :: Alternate(t, k) == RunHandshake(t)) <==>
            OpensAlong(Below(t), MachinesOf(t), ConnOf(t))
  {
    LawfulMachines(t);
    if OpensAlong(Below(t), MachinesOf(t), ConnOf(t)) {
      OpeningReaches(t);
    } else {
      forall k: nat ensures Alternate(t, k) != RunHandshake(t) {
        ResponderDiffers(t, k);
      }
    }
  }

  // ---------- Why empty acts matter ----------

  /** Machines that have something to say whenever they wait for nothing are quiet over every
      connection; all machines are quiet over a connection that lists no outcomes of writes. */
  ghost predicate Smooth(t: Tower) {
    || ConnOf(t).tx == []
    || forall i :: 0 <= i < |MachinesOf(t)| ==> Vocal(MachinesOf(t)[i].kind)
  }

  lemma {:induction false} VocalIsNotMute(below: Artifact, ms: seq<Machine>)
    requires AllLawful(ms) && StackArtifact(below, ms).None? && forall i :: 0 <= i < |ms| ==> Vocal(ms[i].kind)
    ensures !MuteNext(below, ms)
    decreases |ms|
  {
    if ms[0].IsComplete() {
      VocalIsNotMute(Protocol(below, ms[0].Artifact().value), ms[1..]);
    } else {
      assert !ms[0].Start(below).IsComplete();
    }
  }

  lemma {:induction false} CallStaysSmooth(t: Tower, call: Call)
    requires ConnOf(t).peer.Some? && AllLawful(MachinesOf(t)) && Smooth(t)
    ensures var t' := TowerDo(t, call).0; ConnOf(t').peer.Some? && AllLawful(MachinesOf(t')) && Smooth(t')
  {
    CallDiscipline(t, call);
    CallCrosses(t, call);
  }

  lemma {:induction false} SmoothAfter(t: Tower, k: nat)
    requires ConnOf(t).peer.Some? && AllLawful(MachinesOf(t)) && Smooth(t)
    ensures var t' := Alternate(t, k).0; ConnOf(t').peer.Some? && AllLawful(MachinesOf(t')) && Smooth(t')
    decreases k
  {
    if k > 0 && !Established(t) {
      CallStaysSmooth(t, WriteCall([]));
      CallStaysSmooth(TowerDo(t, WriteCall([])).0, ReadCall(READ_BUFFER_SIZE));
      if Round(t).1.Ok? { SmoothAfter(Round(t).0, k - 1); }
    }
  }

  lemma {:induction false} SmoothIsQuiet(t: Tower)
    requires ConnOf(t).peer.Some? && LawfulTower(t) && Smooth(t)
    ensures QuietRun(t)
  {
    LawfulMachines(t);
    forall k: nat ensures QuietNow(Alternate(t, k).0) {
      SmoothAfter(t, k);
      var t' := Alternate(t, k).0;
      if ConnOf(t').tx != [] && StackArtifact(Below(t'), MachinesOf(t')).None? {
        VocalIsNotMute(Below(t'), MachinesOf(t'));
      }
    }
  }

  /** A machine that completes on its first input and says nothing. */
  function MuteKind(): Kind {
    Kind(true, (_: Past) => 0, (_: Past) => Some([]), (past: Past) => if past.inputs == [] then None else Some([]), 1)
  }

  /** Over a connection that refuses an empty write, the two forms differ for a machine that has nothing
      to say: the non-blocking one passes an empty write on, and fails. */
  lemma {:induction false} EmptyActDiffers(k: nat)
    ensures var t := Layer(Machine(MuteKind(), Past(None, [])),
        Base(Conn(Some(0), [], [TxErr(WouldBlock)], [], [], [])));
            LawfulTower(t) && Opens(t.state) && Alternate(t, k) != RunHandshake(t)
  {
    var m := Machine(MuteKind(), Past(None, []));
    var c := Conn(Some(0), [], [TxErr(WouldBlock)], [], [], []);
    var t := Layer(m, Base(c));
    assert Init(m, Base(c)) == m && !m.IsComplete() && m.Advance([]).0.IsComplete();
    assert RunHandshake(t) == (Layer(m.Advance([]).0, Base(c)), Ok(()));
    assert Write(t, []).1 == Err(WouldBlock);
    if k > 0 { assert Alternate(t, k).1 == Err(WouldBlock); }
  }
}
