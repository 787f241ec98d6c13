/** Two peers whose sessions match, joined by two first-in-first-out byte channels, under any
    interleaving of their reads, writes and deliveries: they stay aligned. */
module Peers {
  import opened Io
  import opened Connection
  import opened Session
  import opened Stack
  import opened Discipline
  import opened Dialogue

  // ---------- Two positions in one script ----------

  /** The turns of one speaker, as they are spoken. */
  function By(s: Side, g: seq<Tagged>): seq<Spoken> {
    if g == [] then []
    else (if g[0].turn.speaker == s then [Spoken(g[0].layer, g[0].turn.data)] else []) + By(s, g[1..])
  }

  lemma {:induction false} ByAppend(s: Side, y: seq<Tagged>, z: seq<Tagged>)
    ensures By(s, y + z) == By(s, y) + By(s, z)
  {
    if y == [] {
      assert y + z == z;
    } else {
      assert (y + z)[0] == y[0] && (y + z)[1..] == y[1..] + z;
      ByAppend(s, y[1..], z);
      var first := if y[0].turn.speaker == s then [Spoken(y[0].layer, y[0].turn.data)] else [];
      assert By(s, y + z) == first + (By(s, y[1..]) + By(s, z));
      assert By(s, y) == first + By(s, y[1..]);
    }
  }

  lemma {:induction false} ByEither(s: Side, g: seq<Tagged>)
    ensures |By(s, g)| + |By(s.Other(), g)| == |g|
  {
    if g == [] {
    } else {
      ByEither(s, g[1..]);
    }
  }

  predicate Voiced(g: seq<Tagged>) {
    forall i :: 0 <= i < |g| ==> g[i].turn.data != []
  }

  predicate Audible(z: seq<Spoken>) {
    forall i :: 0 <= i < |z| ==> z[i].data != []
  }

  lemma {:induction false} VoicedIsAudible(s: Side, g: seq<Tagged>)
    requires Voiced(g)
    ensures Audible(By(s, g))
  {
    if g == [] {
    } else {
      VoicedIsAudible(s, g[1..]);
    }
  }

  predicate EndsWith(whole: seq<Tagged>, g: seq<Tagged>) {
    |g| <= |whole| && whole[|whole| - |g|..] == g
  }

  /** Where a side stands: what it has said and heard, what is left of its script, the bytes it has
      sent, taken and still to take, and the application bytes among those it has sent and taken. */
  datatype Standing = Standing(
    said: seq<Spoken>,
    heard: seq<Spoken>,
    left: seq<Tagged>,
    sent: Bytes,
    taken: Bytes,
    incoming: Bytes,
    wrote: Bytes,
    got: Bytes)

  /** What a side has said, heard and has left is the whole script, and its traffic is what it has
      said and heard, followed by application bytes only after the end of the script. */
  ghost predicate Stands(me: Side, p: Standing, whole: seq<Tagged>) {
    && EndsWith(whole, p.left)
    && p.said + By(me, p.left) == By(me, whole)
    && p.heard + By(me.Other(), p.left) == By(me.Other(), whole)
    && p.sent == Words(p.said) + p.wrote
    && p.taken == Words(p.heard) + p.got
    && (p.left != [] ==> p.wrote == [] && p.got == [])
  }

  /** Two sides of one script, joined by a byte channel in each direction. */
  ghost predicate Linked(me: Side, p: Standing, q: Standing, whole: seq<Tagged>) {
    && Voiced(whole)
    && Stands(me, p, whole) && Stands(me.Other(), q, whole)
    && p.sent == q.taken + q.incoming
    && q.sent == p.taken + p.incoming
  }

  lemma {:induction false} LinkedEitherWay(me: Side, p: Standing, q: Standing, whole: seq<Tagged>)
    requires Linked(me, p, q, whole)
    ensures Linked(me.Other(), q, p, whole)
  {
    assert me.Other().Other() == me;
  }

  lemma {:induction false} Longer(x: seq<Spoken>, y: seq<Spoken>)
    requires y <= x
    ensures Words(x) == Words(y) + Words(x[|y|..])
    ensures |y| < |x| && Audible(x) ==> Words(x[|y|..]) != [] && x[|y|].data <= Words(x[|y|..])
  {
    WordsAppend(y, x[|y|..]);
    assert y + x[|y|..] == x;
  }

  /** Two beginnings of one sequence. */
  lemma {:induction false} Comparable(x: seq<Spoken>, y: seq<Spoken>, whole: seq<Spoken>)
    requires x <= whole && y <= whole
    ensures |y| <= |x| ==> y <= x
  {
  }

  lemma {:induction false} Beginnings(me: Side, p: Standing, q: Standing, whole: seq<Tagged>)
    requires Linked(me, p, q, whole)
    ensures p.said <= By(me, whole) && q.heard <= By(me, whole)
    ensures Audible(By(me, whole)) && Audible(p.said) && Audible(q.heard)
  {
    assert me.Other().Other() == me;
    VoicedIsAudible(me, whole);
  }

  /** What one side has heard the other has said. */
  lemma {:induction false} HeardIsSaid(me: Side, p: Standing, q: Standing, whole: seq<Tagged>)
    requires Linked(me, p, q, whole)
    ensures q.heard <= p.said
  {
    Beginnings(me, p, q, whole);
    Comparable(p.said, q.heard, By(me, whole));
    if |q.heard| > |p.said| {
      Comparable(q.heard, p.said, By(me, whole));
      Longer(q.heard, p.said);
      assert false;
    }
  }

  /** What one application has read the other has written. */
  lemma {:induction false} GotIsWritten(me: Side, p: Standing, q: Standing, whole: seq<Tagged>)
    requires Linked(me, p, q, whole)
    ensures q.got <= p.wrote
  {
    if q.got != [] {
      HeardIsSaid(me, p, q, whole);
      Beginnings(me, p, q, whole);
      assert q.heard == By(me, whole);
      assert p.said == q.heard;
      Cancel(Words(p.said), p.wrote, q.got, q.incoming);
    }
  }

  lemma {:induction false} Cancel(x: Bytes, wrote: Bytes, got: Bytes, incoming: Bytes)
    requires x + wrote == (x + got) + incoming
    ensures wrote == got + incoming
  {
    assert (x + got) + incoming == x + (got + incoming);
    assert wrote == (x + wrote)[|x|..] == (x + (got + incoming))[|x|..];
  }

  /** On the peer's turn, what is on its way begins with that turn; or nothing is, and the peer has
      said nothing more. */
  lemma {:induction false} WhatArrives(me: Side, p: Standing, q: Standing, whole: seq<Tagged>)
    requires Linked(me, p, q, whole) && q.left != [] && q.left[0].turn.speaker == me
    ensures if q.incoming == [] then p.said == q.heard else q.left[0].turn.data <= q.incoming
  {
    HeardIsSaid(me, p, q, whole);
    Beginnings(me, p, q, whole);
    Longer(p.said, q.heard);
    var x, more := Words(q.heard), Words(p.said[|q.heard|..]);
    assert q.taken == x + [] == x;
    Cancel(x, q.incoming, more, p.wrote);
    if p.said == q.heard {
      assert By(me, q.left) != [];
      assert p.left != [];
      assert more == [];
    } else {
      assert p.said[|q.heard|] == By(me, whole)[|q.heard|] == By(me, q.left)[0];
    }
  }

  /** Of two ends of a script one is the end of the other. */
  lemma {:induction false} Ends(g: seq<Tagged>, h: seq<Tagged>, whole: seq<Tagged>)
    requires EndsWith(whole, g) && EndsWith(whole, h) && |h| <= |g|
    ensures g == g[..|g| - |h|] + h
  {
  }

  lemma {:induction false} FewerLeft(s: Side, g: seq<Tagged>, h: seq<Tagged>, whole: seq<Tagged>)
    requires EndsWith(whole, g) && EndsWith(whole, h) && |h| <= |g|
    ensures |By(s, h)| <= |By(s, g)|
    ensures |h| < |g| && g[0].turn.speaker == s ==> |By(s, h)| < |By(s, g)|
  {
    var z := g[..|g| - |h|];
    Ends(g, h, whole);
    ByAppend(s, z, h);
    if |h| < |g| && g[0].turn.speaker == s { assert z[0] == g[0] && |By(s, z)| >= 1; }
  }

  /** On its own turn nothing is on its way to a side. */
  lemma {:induction false} OwnTurnIsSilent(me: Side, p: Standing, q: Standing, whole: seq<Tagged>)
    requires Linked(me, p, q, whole) && p.left != [] && p.left[0].turn.speaker == me
    ensures p.incoming == []
  {
    assert me.Other().Other() == me;
    HeardIsSaid(me, p, q, whole);
    LinkedEitherWay(me, p, q, whole);
    HeardIsSaid(me.Other(), q, p, whole);
    assert |By(me, q.left)| >= |By(me, p.left)| && |By(me.Other(), q.left)| <= |By(me.Other(), p.left)|;
    if |q.left| < |p.left| {
      FewerLeft(me, p.left, q.left, whole);
      assert false;
    }
    FewerLeft(me.Other(), q.left, p.left, whole);
    assert p.heard == q.said;
    assert By(me, p.left) != [] && q.left != [];
    assert Words(q.said) == Words(p.heard) + p.incoming;
  }

  /** While one side has not finished, one of the sides is to speak or has something to hear. */
  lemma {:induction false} SomeoneCanMove(me: Side, p: Standing, q: Standing, whole: seq<Tagged>)
    requires Linked(me, p, q, whole) && (p.left != [] || q.left != [])
    ensures (p.left != [] && (p.left[0].turn.speaker == me || p.incoming != []))
            || (q.left != [] && (q.left[0].turn.speaker == me.Other() || q.incoming != []))
  {
    var other := me.Other();
    assert other.Other() == me;
    LinkedEitherWay(me, p, q, whole);
    if p.left != [] && p.left[0].turn.speaker == other && p.incoming == [] {
      WhatArrives(other, q, p, whole);
      assert |By(other, q.left)| == |By(other, p.left)| > 0;
    }
    if q.left != [] && q.left[0].turn.speaker == me && q.incoming == [] {
      WhatArrives(me, p, q, whole);
      assert |By(me, p.left)| == |By(me, q.left)| > 0;
      if p.left[0].turn.speaker == other && p.incoming == [] {
        ByEither(me, p.left);
        ByEither(me, q.left);
        assert false;
      }
    }
  }

  // ---------- Two sessions ----------

  /** One side: its session, the bytes of the peer that are still on their way to it, and the
      application bytes it has written and read so far. */
  datatype Endpoint = Endpoint(session: Tower, wire: Bytes, wrote: Bytes, got: Bytes)

  datatype Joint = Joint(left: Endpoint, right: Endpoint) {
    function At(s: Side): Endpoint {
      if s.Left? then left else right
    }

    function With(s: Side, mine: Endpoint, other: Endpoint): Joint {
      if s.Left? then Joint(mine, other) else Joint(other, mine)
    }
  }

  /** A side calls `read` or `write`; up to `n` bytes on their way arrive at it, wherever the writes
      were that sent them; or its connection reports an error or an end of stream. */
  datatype Move = Calls(side: Side, call: Call) | Delivers(side: Side, n: nat) | Disturbs(side: Side, rx: Rx)

  function SendTo(o: Endpoint, data: Bytes): Endpoint {
    o.(wire := o.wire + data)
  }

  function Arrive(t: Tower, rx: Rx): Tower {
    WithConn(t, ConnOf(t).(rx := ConnOf(t).rx + [rx]))
  }

  function Deliver(e: Endpoint, n: nat): Endpoint {
    var k := if n <= |e.wire| then n else |e.wire|;
    if k == 0 then e else e.(session := Arrive(e.session, Chunk(e.wire[..k])), wire := e.wire[k..])
  }

  function Disturb(e: Endpoint, rx: Rx): Endpoint {
    if rx.Chunk? && rx.data != [] then e else e.(session := Arrive(e.session, rx))
  }

  /** The bytes that a call reports as written. */
  function Accepted(call: Call, r: Reply): Bytes {
    match (call, r)
    case (WriteCall(buf), Put(Ok(k))) => if k <= |buf| then buf[..k] else []
    case _ => []
  }

  /** The caller after its call, with what the call reports as read or written. */
  function Called(e: Endpoint, call: Call): Endpoint {
    var (t', r) := TowerDo(e.session, call);
    e.(session := t',
       wrote := e.wrote + Accepted(call, r),
       got := e.got + (match r case Got(Ok(data)) => data case _ => []))
  }

  /** What was put on the wire between two states of a connection. */
  function News(c: Conn, c': Conn): Bytes {
    if |c.sent| <= |c'.sent| then c'.sent[|c.sent|..] else []
  }

  function Step(j: Joint, m: Move): Joint {
    var me, other := j.At(m.side), j.At(m.side.Other());
    match m
    case Delivers(s, n) => j.With(s, Deliver(me, n), other)
    case Disturbs(s, rx) => j.With(s, Disturb(me, rx), other)
    case Calls(s, call) =>
      var me' := Called(me, call);
      j.With(s, me', SendTo(other, News(ConnOf(me.session), ConnOf(me'.session))))
  }

  function Play(j: Joint, moves: seq<Move>): Joint
    decreases |moves|
  {
    if moves == [] then j else Play(Step(j, moves[0]), moves[1..])
  }

  /** Every handshake read finds a whole act or nothing, and every act is absorbed; application reads
      and writes are free. */
  ghost predicate WholeMove(j: Joint, m: Move) {
    var e := j.At(m.side);
    m.Calls? && ConnOf(e.session).peer.Some? ==>
        WholeCall(Below(e.session), MachinesOf(e.session), ConnOf(e.session), m.call)
  }

  ghost predicate WholeMoves(j: Joint, moves: seq<Move>)
    decreases |moves|
  {
    moves == [] || (WholeMove(j, moves[0]) && WholeMoves(Step(j, moves[0]), moves[1..]))
  }

  // ---------- The invariant ----------

  function StandingOf(e: Endpoint, rest: seq<seq<Turn>>): Standing {
    var c, ms := ConnOf(e.session), MachinesOf(e.session);
    Standing(Said(0, ms), Heard(0, ms), Script(0, rest), c.sent, c.taken, Payload(c.rx) + e.wire, e.wrote, e.got)
  }

  /** One side is on track with `rest`. */
  ghost predicate Party(me: Side, e: Endpoint, rest: seq<seq<Turn>>) {
    && ConnOf(e.session).peer.Some?
    && OnTrack(me, Below(e.session), MachinesOf(e.session), rest)
    && Disciplined(Below(e.session), MachinesOf(e.session))
  }

  /** Both sides are on track, at linked positions of the whole script. */
  ghost predicate Aligned(
      me: Side, e: Endpoint, rest: seq<seq<Turn>>, o: Endpoint, orest: seq<seq<Turn>>, whole: seq<Tagged>) {
    && Party(me, e, rest)
    && Party(me.Other(), o, orest)
    && Linked(me, StandingOf(e, rest), StandingOf(o, orest), whole)
  }

  lemma {:induction false} Mirror(
      me: Side, e: Endpoint, rest: seq<seq<Turn>>, o: Endpoint, orest: seq<seq<Turn>>, whole: seq<Tagged>)
    requires Aligned(me, e, rest, o, orest, whole)
    ensures Aligned(me.Other(), o, orest, e, rest, whole)
  {
    assert me.Other().Other() == me;
    LinkedEitherWay(me, StandingOf(e, rest), StandingOf(o, orest), whole);
  }

  // ---------- Every move keeps the invariant ----------

  /** `p'` is `p` after it took the turns `taken` of its script. */
  ghost predicate Advances(p: Standing, p': Standing, taken: Taken) {
    && p'.said == p.said + Spoke(taken.said)
    && p'.heard == p.heard + Spoke(taken.heard)
    && p.left == taken.Turns() + p'.left
    && p'.sent == p.sent + Words(Spoke(taken.said))
    && p'.taken == p.taken + Words(Spoke(taken.heard))
    && p'.taken + p'.incoming == p.taken + p.incoming
    && p'.wrote == p.wrote && p'.got == p.got
  }

  lemma {:induction false} ByTaken(me: Side, taken: Taken, g: seq<Tagged>)
    requires taken.By(me)
    ensures By(me, taken.Turns() + g) == Spoke(taken.said) + By(me, g)
    ensures By(me.Other(), taken.Turns() + g) == Spoke(taken.heard) + By(me.Other(), g)
  {
    var h := if taken.heard.Some? then [taken.heard.value] else [];
    var s := if taken.said.Some? then [taken.said.value] else [];
    ByThree(me, h, s, g);
    ByThree(me.Other(), h, s, g);
    ByOne(me, taken.heard);
    ByOne(me, taken.said);
    ByOne(me.Other(), taken.heard);
    ByOne(me.Other(), taken.said);
  }

  lemma {:induction false} ByThree(x: Side, h: seq<Tagged>, s: seq<Tagged>, g: seq<Tagged>)
    ensures By(x, h + s + g) == By(x, h) + By(x, s) + By(x, g)
  {
    ByAppend(x, h + s, g);
    ByAppend(x, h, s);
  }

  lemma {:induction false} ByOne(x: Side, t: Option<Tagged>)
    ensures By(x, if t.Some? then [t.value] else []) == if t.Some? && t.value.turn.speaker == x then Spoke(t) else []
  {
    if t.Some? { assert [t.value][1..] == []; }
  }

  /** What is said moves from what is left to what was said, with its bytes. */
  lemma {:induction false} NowSpoken(done: seq<Spoken>, now: seq<Spoken>, left: seq<Spoken>, bytes: Bytes)
    requires bytes == Words(done)
    ensures done + (now + left) == (done + now) + left
    ensures bytes + Words(now) == Words(done + now)
  {
    WordsAppend(done, now);
  }

  lemma {:induction false} StillEnds(whole: seq<Tagged>, turns: seq<Tagged>, g: seq<Tagged>)
    requires EndsWith(whole, turns + g)
    ensures EndsWith(whole, g)
  {
    var all := turns + g;
    assert all[|turns|..] == g;
    assert whole[|whole| - |g|..] == whole[|whole| - |all|..][|turns|..];
  }

  lemma {:induction false} AdvancesStands(me: Side, p: Standing, p': Standing, taken: Taken, whole: seq<Tagged>)
    requires Stands(me, p, whole) && Advances(p, p', taken) && taken.By(me) && p.left != []
    ensures Stands(me, p', whole)
  {
    ByTaken(me, taken, p'.left);
    StillEnds(whole, taken.Turns(), p'.left);
    NowSpoken(p.said, Spoke(taken.said), By(me, p'.left), p.sent);
    NowSpoken(p.heard, Spoke(taken.heard), By(me.Other(), p'.left), p.taken);
  }

  /** What a side newly sends is on its way to the other. */
  function Hears(q: Standing, news: Bytes): Standing {
    q.(incoming := q.incoming + news)
  }

  lemma {:induction false} AdvancesLinked(
      me: Side, p: Standing, q: Standing, p': Standing, taken: Taken, whole: seq<Tagged>)
    requires Linked(me, p, q, whole) && Advances(p, p', taken) && taken.By(me) && p.left != []
    ensures Linked(me, p', Hears(q, Words(Spoke(taken.said))), whole)
  {
    AdvancesStands(me, p, p', taken, whole);
    Relinked(me, p, q, p', Words(Spoke(taken.said)), whole);
  }

  /** A side that stands elsewhere, with more sent and as much taken or on its way, is still linked. */
  lemma {:induction false} Relinked(me: Side, p: Standing, q: Standing, p': Standing, news: Bytes, whole: seq<Tagged>)
    requires Linked(me, p, q, whole) && Stands(me, p', whole)
    requires p'.sent == p.sent + news && p'.taken + p'.incoming == p.taken + p.incoming
    ensures Linked(me, p', Hears(q, news), whole)
  {
    Associates(q.taken, q.incoming, news);
  }

  lemma {:induction false} Associates(a: Bytes, b: Bytes, c: Bytes)
    ensures (a + b) + c == a + (b + c)
  {
  }

  lemma {:induction false} FinishedStands(
      me: Side, p: Standing, p': Standing, wrote: Bytes, got: Bytes, whole: seq<Tagged>)
    requires Stands(me, p, whole) && p.left == []
    requires p' == p.(sent := p.sent + wrote, taken := p.taken + got, incoming := p'.incoming,
        wrote := p.wrote + wrote, got := p.got + got)
    ensures Stands(me, p', whole)
  {
    Associates(Words(p.said), p.wrote, wrote);
    Associates(Words(p.heard), p.got, got);
  }

  /** A finished side only exchanges application bytes. */
  lemma {:induction false} FinishedLinked(
      me: Side, p: Standing, q: Standing, p': Standing, wrote: Bytes, got: Bytes, whole: seq<Tagged>)
    requires Linked(me, p, q, whole) && p.left == []
    requires p' == p.(sent := p.sent + wrote, taken := p.taken + got, incoming := p'.incoming,
        wrote := p.wrote + wrote, got := p.got + got)
    requires p'.taken + p'.incoming == p.taken + p.incoming
    ensures Linked(me, p', Hears(q, wrote), whole)
  {
    FinishedStands(me, p, p', wrote, got, whole);
    Relinked(me, p, q, p', wrote, whole);
  }

  lemma {:induction false} SentStanding(o: Endpoint, orest: seq<seq<Turn>>, news: Bytes)
    ensures StandingOf(SendTo(o, news), orest) == Hears(StandingOf(o, orest), news)
  {
    var arrived := Payload(ConnOf(o.session).rx);
    assert arrived + (o.wire + news) == (arrived + o.wire) + news;
  }

  /** With whole acts, what is available on the peer's turn is the peer's act. */
  lemma {:induction false} ActsAreExpected(
      me: Side, e: Endpoint, rest: seq<seq<Turn>>, o: Endpoint, orest: seq<seq<Turn>>, whole: seq<Tagged>,
      call: Call)
    requires Aligned(me, e, rest, o, orest, whole)
    requires WholeCall(Below(e.session), MachinesOf(e.session), ConnOf(e.session), call)
    ensures Expected(me, Script(0, rest), ConnOf(e.session), call)
  {
    var g, rx := Script(0, rest), ConnOf(e.session).rx;
    if call.ReadCall? && g != [] && g[0].turn.speaker != me && Available(rx) != [] {
      ScriptTells(0, me, Below(e.session), MachinesOf(e.session), rest);
      AvailableArrived(rx);
      var p, q := StandingOf(e, rest), StandingOf(o, orest);
      LinkedEitherWay(me, p, q, whole);
      WhatArrives(me.Other(), q, p, whole);
      ShorterPrefix(g[0].turn.data, Available(rx), p.incoming);
    }
  }

  lemma {:induction false} ShorterPrefix(x: Bytes, y: Bytes, z: Bytes)
    requires x <= z && y <= z && |x| <= |y|
    ensures x <= y
  {
    assert x == z[..|x|] == y[..|x|];
  }

  /** A handshake call of a side that is on track takes turns of its script. */
  lemma {:induction false} CallTakes(me: Side, e: Endpoint, rest: seq<seq<Turn>>, call: Call)
    returns (rest': seq<seq<Turn>>, taken: Taken)
    requires Party(me, e, rest) && Script(0, rest) != [] && Expected(me, Script(0, rest), ConnOf(e.session), call)
    requires WholeCall(Below(e.session), MachinesOf(e.session), ConnOf(e.session), call)
    ensures StackTook(0, me, Below(e.session), MachinesOf(e.session), rest, ConnOf(e.session), call, rest', taken)
    ensures Party(me, e.(session := TowerDo(e.session, call).0), rest')
  {
    var c, ms := ConnOf(e.session), MachinesOf(e.session);
    rest', taken := StackTakes(0, me, Below(e.session), ms, rest, c, call);
    CallRefines(e.session, call);
    CallKeepsDiscipline(Below(e.session), ms, c, call);
    CallCrosses(e.session, call);
  }

  /** So does the place where the side stands. */
  lemma {:induction false} CallAdvances(
      me: Side, e: Endpoint, rest: seq<seq<Turn>>, call: Call, rest': seq<seq<Turn>>, taken: Taken)
    requires Party(me, e, rest)
    requires StackTook(0, me, Below(e.session), MachinesOf(e.session), rest, ConnOf(e.session), call, rest', taken)
    ensures Advances(StandingOf(e, rest), StandingOf(e.(session := TowerDo(e.session, call).0), rest'), taken)
    ensures News(ConnOf(e.session), ConnOf(TowerDo(e.session, call).0)) == Words(Spoke(taken.said))
    ensures var r := TowerDo(e.session, call).1;
            Took(me, Script(0, rest), Script(0, rest'), ConnOf(e.session), ConnOf(TowerDo(e.session, call).0), call,
                r, taken)
  {
    CallRefines(e.session, call);
    LineIsSpoken(taken.said);
    LineIsSpoken(taken.heard);
    StillToTake(e, rest, call, rest');
  }

  /** What a side has taken and what is on its way to it are together the same after a call. */
  lemma {:induction false} StillToTake(e: Endpoint, rest: seq<seq<Turn>>, call: Call, rest': seq<seq<Turn>>)
    requires ConnOf(e.session).peer.Some?
    ensures var p, p' := StandingOf(e, rest), StandingOf(e.(session := TowerDo(e.session, call).0), rest');
            p'.taken + p'.incoming == p.taken + p.incoming
  {
    CallCrosses(e.session, call);
    var c, c' := ConnOf(e.session), ConnOf(TowerDo(e.session, call).0);
    assert c.taken + (Payload(c.rx) + e.wire) == Stream(c) + e.wire;
    assert c'.taken + (Payload(c'.rx) + e.wire) == Stream(c') + e.wire;
  }

  /** A handshake call reports nothing read and nothing written. */
  lemma {:induction false} NothingCalled(
      me: Side, e: Endpoint, rest: seq<seq<Turn>>, call: Call, rest': seq<seq<Turn>>, taken: Taken)
    requires var (t', r) := TowerDo(e.session, call);
             Took(me, Script(0, rest), Script(0, rest'), ConnOf(e.session), ConnOf(t'), call, r, taken)
    ensures Called(e, call) == e.(session := TowerDo(e.session, call).0)
  {
    assert e.wrote + [] == e.wrote && e.got + [] == e.got;
  }

  /** A side that has finished is established, and its calls are those of the connection. */
  lemma {:induction false} Finished(me: Side, e: Endpoint, rest: seq<seq<Turn>>, call: Call)
    requires Party(me, e, rest)
    ensures Script(0, rest) == [] <==> Established(e.session)
    ensures Established(e.session) ==>
              var (t', r) := TowerDo(e.session, call);
              && MachinesOf(t') == MachinesOf(e.session) && Party(me, e.(session := t'), rest)
              && (ConnOf(t'), r) == ConnDo(ConnOf(e.session), call)
  {
    ScriptTells(0, me, Below(e.session), MachinesOf(e.session), rest);
    ArtifactRefines(e.session);
    CallDiscipline(e.session, call);
  }

  /** A call of a side that has finished moves application bytes, as many as it reports. */
  lemma {:induction false} FinishedMoves(
      me: Side, e: Endpoint, rest: seq<seq<Turn>>, call: Call) returns (wrote: Bytes, got: Bytes)
    requires Party(me, e, rest) && Script(0, rest) == []
    ensures Party(me, Called(e, call), rest)
    ensures News(ConnOf(e.session), ConnOf(Called(e, call).session)) == wrote
    ensures var p, p' := StandingOf(e, rest), StandingOf(Called(e, call), rest);
            && p' == p.(sent := p.sent + wrote, taken := p.taken + got, incoming := p'.incoming,
                wrote := p.wrote + wrote, got := p.got + got)
            && p'.taken + p'.incoming == p.taken + p.incoming
  {
    Finished(me, e, rest, call);
    StillToTake(e, rest, call, rest);
    var e' := Called(e, call);
    wrote, got := e'.wrote[|e.wrote|..], e'.got[|e.got|..];
  }

  /** Every call of either side keeps the sides aligned. */
  lemma {:induction false} CallAligns(
      me: Side, e: Endpoint, rest: seq<seq<Turn>>, o: Endpoint, orest: seq<seq<Turn>>, whole: seq<Tagged>,
      call: Call)
    returns (rest': seq<seq<Turn>>)
    requires Aligned(me, e, rest, o, orest, whole)
    requires WholeCall(Below(e.session), MachinesOf(e.session), ConnOf(e.session), call)
    ensures Aligned(me, Called(e, call), rest', SendTo(o, News(ConnOf(e.session), ConnOf(Called(e, call).session))),
        orest, whole)
  {
    var p, q, e' := StandingOf(e, rest), StandingOf(o, orest), Called(e, call);
    SentStanding(o, orest, News(ConnOf(e.session), ConnOf(e'.session)));
    if Script(0, rest) == [] {
      var wrote, got := FinishedMoves(me, e, rest, call);
      rest' := rest;
      FinishedLinked(me, p, q, StandingOf(e', rest), wrote, got, whole);
    } else {
      var taken;
      ActsAreExpected(me, e, rest, o, orest, whole, call);
      rest', taken := CallTakes(me, e, rest, call);
      CallAdvances(me, e, rest, call, rest', taken);
      NothingCalled(me, e, rest, call, rest', taken);
      AdvancesLinked(me, p, q, StandingOf(e', rest'), taken, whole);
    }
  }

  lemma {:induction false} ArriveKeeps(me: Side, e: Endpoint, rest: seq<seq<Turn>>, rx: Rx)
    requires Party(me, e, rest)
    ensures var t' := Arrive(e.session, rx); var c := ConnOf(e.session);
            && MachinesOf(t') == MachinesOf(e.session) && ArtifactOf(t') == ArtifactOf(e.session)
            && ConnOf(t') == c.(rx := c.rx + [rx])
                && Payload(ConnOf(t').rx) == Payload(c.rx) + (if rx.Chunk? then rx.data else [])
            && Party(me, e.(session := t'), rest)
  {
    var c := ConnOf(e.session);
    PayloadAppend(c.rx, rx);
    MachinesIgnoreConn(e.session, c.(rx := c.rx + [rx]));
    ArtifactIgnoresTraffic(e.session, c.(rx := c.rx + [rx]));
  }

  lemma {:induction false} DeliverKeeps(me: Side, e: Endpoint, rest: seq<seq<Turn>>, n: nat)
    requires Party(me, e, rest)
    ensures Party(me, Deliver(e, n), rest) && StandingOf(Deliver(e, n), rest) == StandingOf(e, rest)
  {
    var k := if n <= |e.wire| then n else |e.wire|;
    if k > 0 {
      ArriveKeeps(me, e, rest, Chunk(e.wire[..k]));
      var arrived := Payload(ConnOf(e.session).rx);
      assert (arrived + e.wire[..k]) + e.wire[k..] == arrived + e.wire;
    }
  }

  lemma {:induction false} DisturbKeeps(me: Side, e: Endpoint, rest: seq<seq<Turn>>, rx: Rx)
    requires Party(me, e, rest)
    ensures Party(me, Disturb(e, rx), rest) && StandingOf(Disturb(e, rx), rest) == StandingOf(e, rest)
  {
    ArriveKeeps(me, e, rest, rx);
    assert Payload(ConnOf(e.session).rx) + [] == Payload(ConnOf(e.session).rx);
  }

  // ---------- Whole runs ----------

  ghost predicate JointAligned(j: Joint, left: seq<seq<Turn>>, right: seq<seq<Turn>>, whole: seq<Tagged>) {
    Aligned(Left, j.left, left, j.right, right, whole)
  }

  /** A move, seen from the side it is at. */
  lemma {:induction false} SideAligns(
      me: Side, e: Endpoint, rest: seq<seq<Turn>>, o: Endpoint, orest: seq<seq<Turn>>, whole: seq<Tagged>,
      j: Joint, m: Move)
    returns (rest': seq<seq<Turn>>)
    requires Aligned(me, e, rest, o, orest, whole) && m.side == me && j.At(me) == e && j.At(me.Other()) == o
        && WholeMove(j, m)
    ensures Aligned(me, Step(j, m).At(me), rest', Step(j, m).At(me.Other()), orest, whole)
  {
    match m
    case Calls(_, call) => rest' := CallAligns(me, e, rest, o, orest, whole, call);
    case Delivers(_, n) =>
      rest' := rest;
      DeliverKeeps(me, e, rest, n);
    case Disturbs(_, rx) =>
      rest' := rest;
      DisturbKeeps(me, e, rest, rx);
  }

  lemma {:induction false} MoveAligns(
      j: Joint, m: Move, left: seq<seq<Turn>>, right: seq<seq<Turn>>, whole: seq<Tagged>)
    returns (left': seq<seq<Turn>>, right': seq<seq<Turn>>)
    requires JointAligned(j, left, right, whole) && WholeMove(j, m)
    ensures JointAligned(Step(j, m), left', right', whole)
  {
    left', right' := left, right;
    if m.side.Left? {
      left' := SideAligns(Left, j.left, left, j.right, right, whole, j, m);
    } else {
      Mirror(Left, j.left, left, j.right, right, whole);
      right' := SideAligns(Right, j.right, right, j.left, left, whole, j, m);
      Mirror(Right, Step(j, m).right, right', Step(j, m).left, left', whole);
    }
  }

  lemma {:induction false} PlayAligns(
      j: Joint, moves: seq<Move>, left: seq<seq<Turn>>, right: seq<seq<Turn>>, whole: seq<Tagged>)
    returns (left': seq<seq<Turn>>, right': seq<seq<Turn>>)
    requires JointAligned(j, left, right, whole) && WholeMoves(j, moves)
    ensures JointAligned(Play(j, moves), left', right', whole)
    decreases |moves|
  {
    if moves == [] {
      left', right' := left, right;
    } else {
      var l, r := MoveAligns(j, moves[0], left, right, whole);
      left', right' := PlayAligns(Step(j, moves[0]), moves[1..], l, r, whole);
    }
  }

  /** Two peers before anything has happened, whose machines follow the same dialogues. What their
      connections will make of their writes is free. */
  ghost predicate Matching(j: Joint, dialogues: seq<seq<Turn>>) {
    && Begins(Left, j.left, dialogues)
    && Begins(Right, j.right, dialogues)
  }

  ghost predicate Begins(me: Side, e: Endpoint, dialogues: seq<seq<Turn>>) {
    var c := ConnOf(e.session);
    && e.wire == [] && e.wrote == [] && e.got == []
    && c.peer.Some? && c.rx == [] && c.taken == [] && c.sent == []
    && (forall i :: 0 <= i < |MachinesOf(e.session)| ==> Untouched(MachinesOf(e.session)[i]))
    && OnTrack(me, Below(e.session), MachinesOf(e.session), dialogues)
  }

  lemma {:induction false} BeginsParty(me: Side, e: Endpoint, dialogues: seq<seq<Turn>>)
    requires Begins(me, e, dialogues)
    ensures Party(me, e, dialogues)
    ensures StandingOf(e, dialogues) == Standing([], [], Script(0, dialogues), [], [], [], [], [])
  {
    FreshIsDisciplined(Below(e.session), MachinesOf(e.session));
    UntouchedHistory(0, MachinesOf(e.session));
  }

  lemma {:induction false} MatchingAligned(j: Joint, dialogues: seq<seq<Turn>>)
    requires Matching(j, dialogues)
    ensures JointAligned(j, dialogues, dialogues, Script(0, dialogues))
  {
    BeginsParty(Left, j.left, dialogues);
    BeginsParty(Right, j.right, dialogues);
    ScriptHasData(0, Left, Below(j.left.session), MachinesOf(j.left.session), dialogues);
  }

  /** What the peer of `me` has been given is what `me` has answered, layer by layer and in order,
      as far as it has come; and what its application has read is what `me`'s has written. */
  ghost predicate HearsOnly(e: Endpoint, o: Endpoint) {
    && Heard(0, MachinesOf(o.session)) <= Said(0, MachinesOf(e.session))
    && o.got <= e.wrote
  }

  lemma {:induction false} AlignedHears(
      me: Side, e: Endpoint, rest: seq<seq<Turn>>, o: Endpoint, orest: seq<seq<Turn>>, whole: seq<Tagged>)
    requires Aligned(me, e, rest, o, orest, whole)
    ensures HearsOnly(e, o) && HearsOnly(o, e)
  {
    var p, q := StandingOf(e, rest), StandingOf(o, orest);
    HeardIsSaid(me, p, q, whole);
    GotIsWritten(me, p, q, whole);
    LinkedEitherWay(me, p, q, whole);
    HeardIsSaid(me.Other(), q, p, whole);
    GotIsWritten(me.Other(), q, p, whole);
  }

  /** Alignment: under any interleaving of reads and writes, however the channels cut and join the
      bytes, whatever the connections make of application reads and writes, and with whole acts, two
      matching sessions of any depth never take a byte for what it is not: every act a machine was
      given is one that the peer's machine of the same layer answered, in order; and every byte an
      application read is one that the peer's application wrote, in order. */
  lemma {:induction false} StaysAligned(j: Joint, dialogues: seq<seq<Turn>>, moves: seq<Move>)
    requires Matching(j, dialogues) && WholeMoves(j, moves)
    ensures var j' := Play(j, moves); HearsOnly(j'.left, j'.right) && HearsOnly(j'.right, j'.left)
  {
    MatchingAligned(j, dialogues);
    var l, r := PlayAligns(j, moves, dialogues, dialogues, Script(0, dialogues));
    AlignedHears(Left, Play(j, moves).left, l, Play(j, moves).right, r, Script(0, dialogues));
  }

  /** And when both are established, each has been given exactly what the other has answered. */
  lemma {:induction false} EstablishedAgree(j: Joint, dialogues: seq<seq<Turn>>, moves: seq<Move>)
    requires Matching(j, dialogues) && WholeMoves(j, moves)
    requires Established(Play(j, moves).left.session) && Established(Play(j, moves).right.session)
    ensures var j' := Play(j, moves); var ml, mr := MachinesOf(j'.left.session), MachinesOf(j'.right.session);
            Heard(0, ml) == Said(0, mr) && Heard(0, mr) == Said(0, ml)
  {
    MatchingAligned(j, dialogues);
    var l, r := PlayAligns(j, moves, dialogues, dialogues, Script(0, dialogues));
    BothFinished(Play(j, moves).left, l, Play(j, moves).right, r, Script(0, dialogues));
  }

  lemma {:induction false} BothFinished(
      e: Endpoint, rest: seq<seq<Turn>>, o: Endpoint, orest: seq<seq<Turn>>, whole: seq<Tagged>)
    requires Aligned(Left, e, rest, o, orest, whole) && Established(e.session) && Established(o.session)
    ensures Heard(0, MachinesOf(e.session)) == Said(0, MachinesOf(o.session))
    ensures Heard(0, MachinesOf(o.session)) == Said(0, MachinesOf(e.session))
  {
    Finished(Left, e, rest, WriteCall([]));
    Finished(Right, o, orest, WriteCall([]));
    SaidAndHeardAll(Left, StandingOf(e, rest), whole);
    SaidAndHeardAll(Right, StandingOf(o, orest), whole);
  }

  lemma {:induction false} SaidAndHeardAll(me: Side, p: Standing, whole: seq<Tagged>)
    requires Stands(me, p, whole) && p.left == []
    ensures p.said == By(me, whole) && p.heard == By(me.Other(), whole)
  {
  }
}
