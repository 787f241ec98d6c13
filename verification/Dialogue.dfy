/** What it means for the machines of two peers to match: for each layer there is a dialogue, the
    acts in order with their speakers, that the machine of either side follows. */
module Dialogue {
  import opened Io
  import opened Connection
  import opened Machines
  import opened Stack
  import opened Discipline

  datatype Side = Left | Right {
    function Other(): Side {
      if this.Left? then Right else Left
    }
  }

  /** An act of a dialogue. A reply is answered at once to the peer's act before it, in the read call
      that gets that act; the others are spoken unasked, in a write call. */
  datatype Turn = Turn(speaker: Side, data: Bytes, reply: bool)

  /** A turn of the dialogue of a layer. */
  datatype Tagged = Tagged(layer: nat, turn: Turn)

  /** An act, as the machines of a layer have heard or said it. */
  datatype Spoken = Spoken(layer: nat, data: Bytes)

  /** On the peer's turn: the next turn is the reply to it. */
  predicate Replies(me: Side, turns: seq<Turn>) {
    |turns| > 1 && turns[1].speaker == me && turns[1].reply
  }

  /** What is left after the peer's turn and, if there is one, the reply to it. */
  function AfterPeer(me: Side, turns: seq<Turn>): (left: seq<Turn>)
    requires turns != []
    ensures |left| < |turns|
  {
    if Replies(me, turns) then turns[2..] else turns[1..]
  }

  /** Law of a machine that takes part in a dialogue: on its own turn it waits for nothing and
      answers its act to an empty input; on the peer's turn it waits for exactly that act and answers
      its reply or nothing; and it is complete exactly at the end. */
  ghost predicate Follows(kind: Kind, past: Past, me: Side, turns: seq<Turn>)
    decreases |turns|
  {
    if turns == [] then kind.artifact(past).Some?
    else
      && kind.artifact(past).None?
      && turns[0].data != []
      && if turns[0].speaker == me then
           && kind.readLen(past) == 0
           && kind.act(past.Push([])) == Some(turns[0].data)
           && !turns[0].reply
           && Follows(kind, past.Push([]), me, turns[1..])
         else
           && kind.readLen(past) == |turns[0].data|
           && (Replies(me, turns) ==> turns[1].data != [])
           && kind.act(past.Push(turns[0].data)) == Some(if Replies(me, turns) then turns[1].data else [])
           && Follows(kind, past.Push(turns[0].data), me, AfterPeer(me, turns))
  }

  /** The past of the machine at the end of the dialogue. */
  function FinalPast(past: Past, me: Side, turns: seq<Turn>): Past
    decreases |turns|
  {
    if turns == [] then past
    else if turns[0].speaker == me then FinalPast(past.Push([]), me, turns[1..])
    else FinalPast(past.Push(turns[0].data), me, AfterPeer(me, turns))
  }

  function FinalArtifact(m: Machine, me: Side, turns: seq<Turn>): Bytes {
    var a := m.kind.artifact(FinalPast(m.past, me, turns));
    if a.Some? then a.value else []
  }

  /** The machines of one side follow what is left of the dialogue of every layer, each once it is
      initialised with the artifact of the completed machines below. */
  ghost predicate OnTrack(me: Side, below: Artifact, ms: seq<Machine>, rest: seq<seq<Turn>>)
    decreases |ms|
  {
    && |ms| == |rest|
    && (ms != [] ==>
      var m := ms[0].Start(below);
      && Follows(m.kind, m.past, me, rest[0])
      && (ms[0].IsComplete() <==> rest[0] == [])
      && (rest[0] == [] ==> ms[0].IsInit())
      && OnTrack(me, Protocol(below, FinalArtifact(m, me, rest[0])), ms[1..], rest[1..]))
  }

  function Tag(layer: nat, turns: seq<Turn>): seq<Tagged> {
    if turns == [] then [] else [Tagged(layer, turns[0])] + Tag(layer, turns[1..])
  }

  /** All that is left to say, in order. */
  function Script(layer: nat, rest: seq<seq<Turn>>): seq<Tagged>
    decreases |rest|
  {
    if rest == [] then [] else Tag(layer, rest[0]) + Script(layer + 1, rest[1..])
  }

  // ---------- What the machines have heard and said ----------

  function HeardBy(layer: nat, inputs: seq<Bytes>): seq<Spoken> {
    if inputs == [] then []
    else
      var last := inputs[|inputs| - 1];
      HeardBy(layer, inputs[..|inputs| - 1]) + if last == [] then [] else [Spoken(layer, last)]
  }

  function SaidBy(layer: nat, kind: Kind, past: Past): seq<Spoken>
    decreases |past.inputs|
  {
    if past.inputs == [] then []
    else
      SaidBy(layer, kind, past.(inputs := past.inputs[..|past.inputs| - 1]))
      + match kind.act(past) case Some(a) => if a == [] then [] else [Spoken(layer, a)] case None => []
  }

  /** The acts all machines of a side have been given, with the layer that was given each. */
  function Heard(layer: nat, ms: seq<Machine>): seq<Spoken>
    decreases |ms|
  {
    if ms == [] then [] else HeardBy(layer, ms[0].past.inputs) + Heard(layer + 1, ms[1..])
  }

  /** The acts all machines of a side have answered, with the layer that answered each. */
  function Said(layer: nat, ms: seq<Machine>): seq<Spoken>
    decreases |ms|
  {
    if ms == [] then [] else SaidBy(layer, ms[0].kind, ms[0].past) + Said(layer + 1, ms[1..])
  }

  /** The bytes of some acts. */
  function Words(z: seq<Spoken>): Bytes {
    if z == [] then [] else z[0].data + Words(z[1..])
  }

  lemma {:induction false} WordsAppend(y: seq<Spoken>, z: seq<Spoken>)
    ensures Words(y + z) == Words(y) + Words(z)
  {
    if y == [] {
      assert y + z == z;
    } else {
      assert (y + z)[1..] == y[1..] + z;
      WordsAppend(y[1..], z);
    }
  }

  lemma {:induction false} WordsPush(z: seq<Spoken>, layer: nat, data: Bytes)
    ensures Words(z + if data == [] then [] else [Spoken(layer, data)]) == Words(z) + data
  {
    if data == [] {
      assert z + [] == z;
    } else {
      WordsAppend(z, [Spoken(layer, data)]);
      assert Words([Spoken(layer, data)]) == data;
    }
  }

  lemma {:induction false} HeardByWords(layer: nat, inputs: seq<Bytes>)
    ensures Words(HeardBy(layer, inputs)) == Concat(inputs)
    decreases |inputs|
  {
    if inputs == [] {
    } else {
      var n := |inputs| - 1;
      HeardByWords(layer, inputs[..n]);
      ConcatPush(inputs[..n], inputs[n]);
      assert inputs == inputs[..n] + [inputs[n]];
      WordsPush(HeardBy(layer, inputs[..n]), layer, inputs[n]);
    }
  }

  lemma {:induction false} SaidByWords(layer: nat, kind: Kind, past: Past)
    ensures Words(SaidBy(layer, kind, past)) == Acts(kind, past)
    decreases |past.inputs|
  {
    if past.inputs == [] {
    } else {
      var before := past.(inputs := past.inputs[..|past.inputs| - 1]);
      SaidByWords(layer, kind, before);
      if kind.act(past).Some? {
        WordsPush(SaidBy(layer, kind, before), layer, kind.act(past).value);
      } else {
        assert SaidBy(layer, kind, past) == SaidBy(layer, kind, before);
        assert Acts(kind, past) == Acts(kind, before);
      }
    }
  }

  /** The acts heard and said are the handshake inputs and acts of the traffic. */
  lemma {:induction false} HistoryIsTraffic(layer: nat, ms: seq<Machine>)
    ensures Words(Heard(layer, ms)) == Inputs(ms) && Words(Said(layer, ms)) == Outputs(ms)
    decreases |ms|
  {
    if ms == [] {
    } else {
      HeardByWords(layer, ms[0].past.inputs);
      SaidByWords(layer, ms[0].kind, ms[0].past);
      HistoryIsTraffic(layer + 1, ms[1..]);
      WordsAppend(HeardBy(layer, ms[0].past.inputs), Heard(layer + 1, ms[1..]));
      WordsAppend(SaidBy(layer, ms[0].kind, ms[0].past), Said(layer + 1, ms[1..]));
    }
  }

  lemma {:induction false} UntouchedHistory(layer: nat, ms: seq<Machine>)
    requires forall j :: 0 <= j < |ms| ==> Untouched(ms[j])
    ensures Heard(layer, ms) == [] && Said(layer, ms) == []
    decreases |ms|
  {
    if ms == [] {
    } else {
      UntouchedHistory(layer + 1, ms[1..]);
    }
  }

  /** An advance by `input`, heard and answered in this layer. */
  lemma {:induction false} PushHistory(layer: nat, m: Machine, below: Artifact, input: Bytes)
    requires m.past.inputs != [] ==> m.IsInit()
    ensures var (m', a) := m.Start(below).Advance(input);
            && HeardBy(layer, m'.past.inputs)
                == HeardBy(layer, m.past.inputs) + (if input == [] then [] else [Spoken(layer, input)])
            && SaidBy(layer, m'.kind, m'.past) ==
               SaidBy(layer, m.kind, m.past)
               + (match a case Some(x) => if x == [] then [] else [Spoken(layer, x)] case None => [])
  {
    var m1 := m.Start(below);
    assert (m1.past.inputs + [input])[..|m1.past.inputs|] == m1.past.inputs;
  }

  // ---------- One call on one side ----------

  /** The turns a call has taken: the peer's, if it has heard one, and one's own, if it has said one. */
  datatype Taken = Taken(heard: Option<Tagged>, said: Option<Tagged>) {
    function Turns(): seq<Tagged> {
      (if heard.Some? then [heard.value] else []) + (if said.Some? then [said.value] else [])
    }

    predicate By(me: Side) {
      && (heard.Some? ==> heard.value.turn.speaker != me)
      && (said.Some? ==> said.value.turn.speaker == me && (said.value.turn.reply <==> heard.Some?))
    }
  }

  function Spoke(t: Option<Tagged>): seq<Spoken> {
    if t.Some? then [Spoken(t.value.layer, t.value.turn.data)] else []
  }

  /** The bytes of a turn. */
  function Line(t: Option<Tagged>): Bytes {
    if t.Some? then t.value.turn.data else []
  }

  lemma {:induction false} LineIsSpoken(t: Option<Tagged>)
    ensures Words(Spoke(t)) == Line(t)
  {
    if t.Some? { assert Spoke(t)[1..] == []; }
  }

  /** What a call makes of a side whose script was `g`. */
  ghost predicate Took(
      me: Side, g: seq<Tagged>, g': seq<Tagged>, c: Conn, c': Conn, call: Call, r: Reply, taken: Taken) {
    && taken.By(me)
    && c'.sent == c.sent + Line(taken.said) && c'.taken == c.taken + Line(taken.heard)
    && g == taken.Turns() + g'
    && (taken.heard.Some? ==> call.ReadCall?)
    && (taken.said.Some? && taken.heard.None? ==> call.WriteCall?)
    && (call.ReadCall? ==> r.Got? && (r.got == Ok([]) || (taken == Taken(None, None) && r.got == Err(Stop(c.rx)))))
    && (call.WriteCall? ==> r == Put(if call.buf == [] then Ok(0) else Err(Interrupted)))
  }

  /** Whether the side takes its next turn in this call. */
  predicate Takes(me: Side, g: seq<Tagged>, c: Conn, call: Call) {
    g != [] && if g[0].turn.speaker == me then call.WriteCall? else call.ReadCall? && Available(c.rx) != []
  }

  /** On the peer's turn a read finds the whole act available, or nothing. */
  predicate Expected(me: Side, g: seq<Tagged>, c: Conn, call: Call) {
    call.ReadCall? && g != [] && g[0].turn.speaker != me && Available(c.rx) != [] ==> g[0].turn.data <= Available(c.rx)
  }

  /** The machine `m'` has taken the turns `taken` of its dialogue. */
  ghost predicate TookTurns(
      layer: nat, me: Side, below: Artifact, m: Machine, m': Machine, turns: seq<Turn>, turns': seq<Turn>,
      taken: Taken) {
    && m'.kind == m.kind && m'.IsInit()
    && Follows(m'.kind, m'.past, me, turns')
    && FinalPast(m'.past, me, turns') == FinalPast(m.Start(below).past, me, turns)
    && HeardBy(layer, m'.past.inputs) == HeardBy(layer, m.past.inputs) + Spoke(taken.heard)
    && SaidBy(layer, m'.kind, m'.past) == SaidBy(layer, m.kind, m.past) + Spoke(taken.said)
  }

  ghost predicate Playing(layer: nat, me: Side, below: Artifact, m: Machine, turns: seq<Turn>, c: Conn, call: Call) {
    && turns != [] && !m.IsComplete() && (m.past.inputs != [] ==> m.IsInit())
    && Follows(m.kind, m.Start(below).past, me, turns)
    && Expected(me, Tag(layer, turns), c, call) && Absorbs(c.tx, |Act(below, [m], c, call)|)
  }

  lemma {:induction false} SpeakingCall(m: Machine, below: Artifact, c: Conn, buf: Bytes)
    requires !m.IsComplete() && m.Start(below).NextReadLen() == 0
    requires m.Start(below).Advance([]).1.Some? && m.Start(below).Advance([]).1.value != []
    requires Absorbs(c.tx, |Act(below, [m], c, WriteCall(buf))|)
    ensures var (m', c', r) := MachineDo(m, below, c, WriteCall(buf)); var (m1, act) := m.Start(below).Advance([]);
            && m' == m1 && r == Put(if buf == [] then Ok(0) else Err(Interrupted))
            && c'.sent == c.sent + act.value && c'.taken == c.taken
  {
    WriteAllPuts(c, m.Start(below).Advance([]).1.value);
  }

  lemma {:induction false} OwnTurnTaken(layer: nat, me: Side, below: Artifact, m: Machine, turns: seq<Turn>)
    requires turns != [] && turns[0].speaker == me && (m.past.inputs != [] ==> m.IsInit())
    requires Follows(m.kind, m.Start(below).past, me, turns)
    ensures TookTurns(layer, me, below, m, m.Start(below).Advance([]).0, turns, turns[1..],
        Taken(None, Some(Tagged(layer, turns[0]))))
  {
    PushHistory(layer, m, below, []);
  }

  lemma {:induction false} MachineSpeaks(
      layer: nat, me: Side, below: Artifact, m: Machine, turns: seq<Turn>, c: Conn, buf: Bytes)
    requires Playing(layer, me, below, m, turns, c, WriteCall(buf)) && turns[0].speaker == me
    ensures var (m', c', r) := MachineDo(m, below, c, WriteCall(buf));
            var taken := Taken(None, Some(Tagged(layer, turns[0])));
            && TookTurns(layer, me, below, m, m', turns, turns[1..], taken)
            && Took(me, Tag(layer, turns), Tag(layer, turns[1..]), c, c', WriteCall(buf), r, taken)
  {
    OwnTurnTaken(layer, me, below, m, turns);
    SpeakingCall(m, below, c, buf);
    assert Taken(None, Some(Tagged(layer, turns[0]))).Turns() == [Tagged(layer, turns[0])];
  }

  lemma {:induction false} HearingCall(m: Machine, below: Artifact, c: Conn, data: Bytes, n: nat)
    requires !m.IsComplete() && data != [] && data <= Available(c.rx)
    requires m.Start(below).NextReadLen() == |data| && m.Start(below).Advance(data).1.Some?
    requires Absorbs(c.tx, |Act(below, [m], c, ReadCall(n))|)
    ensures var (m', c', r) := MachineDo(m, below, c, ReadCall(n)); var (m1, act) := m.Start(below).Advance(data);
            && m' == m1 && r == Got(Ok([]))
            && c'.sent == c.sent + act.value && c'.taken == c.taken + data
  {
    assert Available(c.rx)[..|data|] == data;
    ReadExactTakes(c, |data|);
    WriteAllPuts(c.ReadExact(|data|).0, m.Start(below).Advance(data).1.value);
  }

  function PeersTurn(layer: nat, me: Side, turns: seq<Turn>): Taken
    requires turns != []
  {
    Taken(Some(Tagged(layer, turns[0])), if Replies(me, turns) then Some(Tagged(layer, turns[1])) else None)
  }

  lemma {:induction false} PeersTurnTaken(layer: nat, me: Side, below: Artifact, m: Machine, turns: seq<Turn>)
    requires turns != [] && turns[0].speaker != me && (m.past.inputs != [] ==> m.IsInit())
    requires Follows(m.kind, m.Start(below).past, me, turns)
    ensures TookTurns(layer, me, below, m, m.Start(below).Advance(turns[0].data).0, turns, AfterPeer(me, turns),
        PeersTurn(layer, me, turns))
  {
    PushHistory(layer, m, below, turns[0].data);
  }

  lemma {:induction false} TagCuts(layer: nat, me: Side, turns: seq<Turn>)
    requires turns != []
    ensures Tag(layer, turns) == PeersTurn(layer, me, turns).Turns() + Tag(layer, AfterPeer(me, turns))
  {
    var first := [Tagged(layer, turns[0])];
    assert Tag(layer, turns) == first + Tag(layer, turns[1..]);
    if Replies(me, turns) {
      var second, left := [Tagged(layer, turns[1])], Tag(layer, turns[2..]);
      assert turns[1..][1..] == turns[2..];
      assert Tag(layer, turns[1..]) == second + left;
      assert PeersTurn(layer, me, turns).Turns() == first + second;
      assert first + (second + left) == (first + second) + left;
    } else {
      assert PeersTurn(layer, me, turns).Turns() == first;
    }
  }

  lemma {:induction false} MachineHears(
      layer: nat, me: Side, below: Artifact, m: Machine, turns: seq<Turn>, c: Conn, n: nat)
    requires Playing(layer, me, below, m, turns, c, ReadCall(n)) && turns[0].speaker != me && Available(c.rx) != []
    ensures var (m', c', r) := MachineDo(m, below, c, ReadCall(n)); var taken := PeersTurn(layer, me, turns);
            && TookTurns(layer, me, below, m, m', turns, AfterPeer(me, turns), taken)
            && Took(me, Tag(layer, turns), Tag(layer, AfterPeer(me, turns)), c, c', ReadCall(n), r, taken)
  {
    HearingCall(m, below, c, turns[0].data, n);
    PeersTurnTaken(layer, me, below, m, turns);
    var (_, c', r) := MachineDo(m, below, c, ReadCall(n));
    PeersTurnTook(layer, me, turns, c, c', n, r);
  }

  lemma {:induction false} PeersTurnTook(
      layer: nat, me: Side, turns: seq<Turn>, c: Conn, c': Conn, n: nat, r: Reply)
    requires turns != [] && turns[0].speaker != me && r == Got(Ok([])) && c'.taken == c.taken + turns[0].data
    requires c'.sent == c.sent + if Replies(me, turns) then turns[1].data else []
    ensures var taken := PeersTurn(layer, me, turns);
            Took(me, Tag(layer, turns), Tag(layer, AfterPeer(me, turns)), c, c', ReadCall(n), r, taken)
  {
    TagCuts(layer, me, turns);
  }

  lemma {:induction false} WaitingCall(m: Machine, below: Artifact, c: Conn, call: Call)
    requires call.WriteCall? ==> m.Start(below).NextReadLen() > 0
    requires call.ReadCall? && m.Start(below).NextReadLen() > 0 ==> Available(c.rx) == []
    ensures var (m', c', r) := MachineDo(m, below, c, call);
            && m' == m.Start(below) && c'.sent == c.sent && c'.taken == c.taken
            && (call.ReadCall? ==> r.Got? && (r.got == Ok([]) || r.got == Err(Stop(c.rx))))
            && (call.WriteCall? ==> r == Put(if call.buf == [] then Ok(0) else Err(Interrupted)))
  {
    ReadExactTakes(c, m.Start(below).NextReadLen());
    ReadExactStops(c, m.Start(below).NextReadLen());
  }

  lemma {:induction false} MachineWaits(
      layer: nat, me: Side, below: Artifact, m: Machine, turns: seq<Turn>, c: Conn, call: Call)
    requires Playing(layer, me, below, m, turns, c, call) && !Takes(me, Tag(layer, turns), c, call)
    ensures var (m', c', r) := MachineDo(m, below, c, call);
            && TookTurns(layer, me, below, m, m', turns, turns, Taken(None, None))
            && Took(me, Tag(layer, turns), Tag(layer, turns), c, c', call, r, Taken(None, None))
  {
    NoTurnTaken(layer, me, below, m, turns);
    WaitingCall(m, below, c, call);
    assert Taken(None, None).Turns() == [] && c.sent + [] == c.sent && c.taken + [] == c.taken;
  }

  lemma {:induction false} NoTurnTaken(layer: nat, me: Side, below: Artifact, m: Machine, turns: seq<Turn>)
    requires Follows(m.kind, m.Start(below).past, me, turns) && (m.past.inputs != [] ==> m.IsInit())
    ensures TookTurns(layer, me, below, m, m.Start(below), turns, turns, Taken(None, None))
  {
    ActsAfterStart(m, below);
  }

  lemma {:induction false} MachineTakes(
      layer: nat, me: Side, below: Artifact, m: Machine, turns: seq<Turn>, c: Conn, call: Call)
    returns (turns': seq<Turn>, taken: Taken)
    requires Playing(layer, me, below, m, turns, c, call)
    ensures var (m', c', r) := MachineDo(m, below, c, call);
            && TookTurns(layer, me, below, m, m', turns, turns', taken)
            && Took(me, Tag(layer, turns), Tag(layer, turns'), c, c', call, r, taken)
    ensures Takes(me, Tag(layer, turns), c, call) <==> taken != Taken(None, None)
  {
    if !Takes(me, Tag(layer, turns), c, call) {
      MachineWaits(layer, me, below, m, turns, c, call);
      turns', taken := turns, Taken(None, None);
    } else if turns[0].speaker == me {
      MachineSpeaks(layer, me, below, m, turns, c, call.buf);
      turns', taken := turns[1..], Taken(None, Some(Tagged(layer, turns[0])));
    } else {
      MachineHears(layer, me, below, m, turns, c, call.n);
      turns', taken := AfterPeer(me, turns), PeersTurn(layer, me, turns);
    }
  }

  /** The stack `ms'` has taken the turns `taken` of its script. */
  ghost predicate TookScript(
      layer: nat, me: Side, below: Artifact, ms: seq<Machine>, ms': seq<Machine>, rest': seq<seq<Turn>>,
      taken: Taken) {
    && OnTrack(me, below, ms', rest')
    && Heard(layer, ms') == Heard(layer, ms) + Spoke(taken.heard)
    && Said(layer, ms') == Said(layer, ms) + Spoke(taken.said)
  }

  lemma {:induction false} HeadTakes(
      layer: nat, me: Side, below: Artifact, ms: seq<Machine>, rest: seq<seq<Turn>>, m': Machine,
      turns': seq<Turn>, taken: Taken)
    requires OnTrack(me, below, ms, rest) && Disciplined(below, ms) && ms != [] && rest[0] != []
    requires TookTurns(layer, me, below, ms[0], m', rest[0], turns', taken)
    ensures TookScript(layer, me, below, ms, [m'] + ms[1..], [turns'] + rest[1..], taken)
  {
    HeadOnTrack(layer, me, below, ms, rest, m', turns', taken);
    var ms' := [m'] + ms[1..];
    assert ms'[1..] == ms[1..];
    UntouchedHistory(layer + 1, ms[1..]);
    assert Heard(layer, ms) == HeardBy(layer, ms[0].past.inputs) && Heard(layer, ms') == HeardBy(layer, m'.past.inputs);
    assert Said(layer, ms) == SaidBy(layer, ms[0].kind, ms[0].past)
        && Said(layer, ms') == SaidBy(layer, m'.kind, m'.past);
  }

  lemma {:induction false} HeadOnTrack(
      layer: nat, me: Side, below: Artifact, ms: seq<Machine>, rest: seq<seq<Turn>>, m': Machine,
      turns': seq<Turn>, taken: Taken)
    requires OnTrack(me, below, ms, rest) && ms != []
    requires TookTurns(layer, me, below, ms[0], m', rest[0], turns', taken)
    ensures OnTrack(me, below, [m'] + ms[1..], [turns'] + rest[1..])
  {
    var ms', rest' := [m'] + ms[1..], [turns'] + rest[1..];
    assert rest'[1..] == rest[1..] && ms'[1..] == ms[1..];
    assert m'.Start(below) == m';
  }

  /** The call has taken the turns `taken` of the script of a side, as it was to. */
  ghost predicate StackTook(
      layer: nat, me: Side, below: Artifact, ms: seq<Machine>, rest: seq<seq<Turn>>, c: Conn, call: Call,
      rest': seq<seq<Turn>>, taken: Taken) {
    var (ms', c', r) := StackDo(below, ms, c, call);
    && TookScript(layer, me, below, ms, ms', rest', taken)
    && Took(me, Script(layer, rest), Script(layer, rest'), c, c', call, r, taken)
    && (Takes(me, Script(layer, rest), c, call) <==> taken != Taken(None, None))
  }

  lemma {:induction false} TailTakes(
      layer: nat, me: Side, below: Artifact, ms: seq<Machine>, rest: seq<seq<Turn>>, c: Conn, call: Call,
      tail: seq<seq<Turn>>, taken: Taken)
    requires OnTrack(me, below, ms, rest) && ms != [] && rest[0] == []
    requires StackTook(layer + 1, me, Protocol(below, ms[0].Artifact().value), ms[1..], rest[1..], c, call, tail, taken)
    ensures StackTook(layer, me, below, ms, rest, c, call, [[]] + tail, taken)
  {
    TailOnTrack(layer, me, below, ms, rest, StackDo(Protocol(below, ms[0].Artifact().value), ms[1..], c, call).0,
        tail, taken);
    assert ([[]] + tail)[1..] == tail;
    assert Script(layer, rest) == Script(layer + 1, rest[1..]) && Script(layer, [[]] + tail) == Script(layer + 1, tail);
  }

  lemma {:induction false} TailOnTrack(
      layer: nat, me: Side, below: Artifact, ms: seq<Machine>, rest: seq<seq<Turn>>, tail': seq<Machine>,
      restTail': seq<seq<Turn>>, taken: Taken)
    requires OnTrack(me, below, ms, rest) && ms != [] && rest[0] == []
    requires TookScript(layer + 1, me, Protocol(below, ms[0].Artifact().value), ms[1..], tail', restTail', taken)
    ensures TookScript(layer, me, below, ms, [ms[0]] + tail', [[]] + restTail', taken)
  {
    var ms', rest' := [ms[0]] + tail', [[]] + restTail';
    assert rest'[1..] == restTail' && ms'[1..] == tail';
  }

  /** A call on a side that is on track takes the next turn of its script, with its reply, or nothing;
      and leaves it on track: whatever else has arrived behind the act, and however the connection
      takes the answer. */
  lemma {:induction false} StackTakes(
      layer: nat, me: Side, below: Artifact, ms: seq<Machine>, rest: seq<seq<Turn>>, c: Conn, call: Call)
    returns (rest': seq<seq<Turn>>, taken: Taken)
    requires OnTrack(me, below, ms, rest) && Disciplined(below, ms) && Script(layer, rest) != []
    requires Expected(me, Script(layer, rest), c, call) && WholeCall(below, ms, c, call)
    ensures StackTook(layer, me, below, ms, rest, c, call, rest', taken)
    decreases |ms|
  {
    if rest[0] == [] {
      var tail;
      assert Script(layer, rest) == Script(layer + 1, rest[1..]);
      WholeTail(below, ms, c, call);
      tail, taken := StackTakes(layer + 1, me, Protocol(below, ms[0].Artifact().value), ms[1..], rest[1..], c, call);
      rest' := [[]] + tail;
      TailTakes(layer, me, below, ms, rest, c, call, tail, taken);
    } else {
      rest', taken := FirstTakes(layer, me, below, ms, rest, c, call);
    }
  }

  lemma {:induction false} WholeTail(below: Artifact, ms: seq<Machine>, c: Conn, call: Call)
    requires WholeCall(below, ms, c, call) && ms != [] && ms[0].IsComplete()
    ensures WholeCall(Protocol(below, ms[0].Artifact().value), ms[1..], c, call)
  {
  }

  lemma {:induction false} FirstTakes(
      layer: nat, me: Side, below: Artifact, ms: seq<Machine>, rest: seq<seq<Turn>>, c: Conn, call: Call)
    returns (rest': seq<seq<Turn>>, taken: Taken)
    requires OnTrack(me, below, ms, rest) && Disciplined(below, ms) && rest != [] && rest[0] != []
    requires Expected(me, Script(layer, rest), c, call) && WholeCall(below, ms, c, call)
    ensures StackTook(layer, me, below, ms, rest, c, call, rest', taken)
  {
    FirstPlays(layer, me, below, ms, rest, c, call);
    var turns';
    turns', taken := MachineTakes(layer, me, below, ms[0], rest[0], c, call);
    rest' := [turns'] + rest[1..];
    assert rest'[1..] == rest[1..];
    var (m', c', r) := MachineDo(ms[0], below, c, call);
    HeadTakes(layer, me, below, ms, rest, m', turns', taken);
    TookLonger(me, Tag(layer, rest[0]), Tag(layer, turns'), Script(layer + 1, rest[1..]), c, c', call, r, taken);
  }

  lemma {:induction false} FirstPlays(
      layer: nat, me: Side, below: Artifact, ms: seq<Machine>, rest: seq<seq<Turn>>, c: Conn, call: Call)
    requires OnTrack(me, below, ms, rest) && Disciplined(below, ms) && rest != [] && rest[0] != []
    requires Expected(me, Script(layer, rest), c, call) && WholeCall(below, ms, c, call)
    ensures Playing(layer, me, below, ms[0], rest[0], c, call)
    ensures Takes(me, Script(layer, rest), c, call) <==> Takes(me, Tag(layer, rest[0]), c, call)
  {
    assert Script(layer, rest)[0] == Tag(layer, rest[0])[0];
    assert Act(below, ms, c, call) == Act(below, [ms[0]], c, call);
  }

  lemma {:induction false} TookLonger(
      me: Side, g: seq<Tagged>, g': seq<Tagged>, more: seq<Tagged>, c: Conn, c': Conn, call: Call, r: Reply,
      taken: Taken)
    requires Took(me, g, g', c, c', call, r, taken)
    ensures Took(me, g + more, g' + more, c, c', call, r, taken)
  {
    assert taken.Turns() + (g' + more) == (taken.Turns() + g') + more;
  }

  /** A side whose script is over is established; until then it waits for nothing on its own turn and
      for exactly the peer's act on the peer's. */
  lemma {:induction false} ScriptTells(layer: nat, me: Side, below: Artifact, ms: seq<Machine>, rest: seq<seq<Turn>>)
    requires OnTrack(me, below, ms, rest)
    ensures var g := Script(layer, rest);
            && (g == [] <==> StackArtifact(below, ms).Some?)
            && (g != [] ==> Need(below, ms) == if g[0].turn.speaker == me then 0 else |g[0].turn.data|)
    decreases |ms|
  {
    if ms != [] && rest[0] == [] {
      ScriptTells(layer + 1, me, Protocol(below, ms[0].Artifact().value), ms[1..], rest[1..]);
    }
  }

  lemma {:induction false} TagHasData(kind: Kind, past: Past, layer: nat, me: Side, turns: seq<Turn>)
    requires Follows(kind, past, me, turns)
    ensures forall i :: 0 <= i < |Tag(layer, turns)| ==> Tag(layer, turns)[i].turn.data != []
    decreases |turns|
  {
    if turns == [] {
    } else {
      if turns[0].speaker == me {
        TagHasData(kind, past.Push([]), layer, me, turns[1..]);
      } else {
        TagHasData(kind, past.Push(turns[0].data), layer, me, AfterPeer(me, turns));
        if Replies(me, turns) {
          assert turns[1..][1..] == turns[2..];
          assert Tag(layer, turns) == [Tagged(layer, turns[0])] + ([Tagged(layer, turns[1])] + Tag(layer, turns[2..]));
        }
      }
    }
  }

  /** No act of a dialogue that is followed is empty. */
  lemma {:induction false} ScriptHasData(layer: nat, me: Side, below: Artifact, ms: seq<Machine>, rest: seq<seq<Turn>>)
    requires OnTrack(me, below, ms, rest)
    ensures forall i :: 0 <= i < |Script(layer, rest)| ==> Script(layer, rest)[i].turn.data != []
    decreases |ms|
  {
    if ms == [] {
    } else {
      var m := ms[0].Start(below);
      TagHasData(m.kind, m.past, layer, me, rest[0]);
      ScriptHasData(layer + 1, me, Protocol(below, FinalArtifact(m, me, rest[0])), ms[1..], rest[1..]);
    }
  }
}
