/** A concrete machine for every dialogue: it plays its own turns, insists on the peer's, and so
    shows that the laws of `Machines` and `Dialogue` can be met, by towers of any depth. */
module Scripted {
  import opened Io
  import opened Connection
  import opened Machines
  import opened Session
  import opened Stack
  import opened Discipline
  import opened Dialogue
  import opened Peers
  import opened Transports
  import opened Runs
  import opened Traffic
  import opened Liveness

  /** The turn at `k` is answered at once. */
  predicate Answers(me: Side, turns: seq<Turn>, k: nat) {
    k + 1 < |turns| && turns[k + 1].speaker == me && turns[k + 1].reply
  }

  function Next(me: Side, turns: seq<Turn>, k: nat): (next: nat)
    requires k < |turns|
    ensures k < next <= |turns|
  {
    if turns[k].speaker != me && Answers(me, turns, k) then k + 2 else k + 1
  }

  /** What the machine insists on at `k`. */
  predicate Accepts(me: Side, turns: seq<Turn>, k: nat, input: Bytes) {
    k < |turns| && input == if turns[k].speaker == me then [] else turns[k].data
  }

  /** How many turns are over after some inputs, unless one of them was wrong. */
  function Pos(me: Side, turns: seq<Turn>, inputs: seq<Bytes>): (k: Option<nat>)
    ensures k.Some? ==> |inputs| <= k.value <= |turns|
    decreases |inputs|
  {
    if inputs == [] then Some(0)
    else
      var n := |inputs| - 1;
      var before := Pos(me, turns, inputs[..n]);
      if before.Some? && Accepts(me, turns, before.value, inputs[n]) then Some(Next(me, turns, before.value)) else None
  }

  function Answer(me: Side, turns: seq<Turn>, k: nat): Bytes
    requires k < |turns|
  {
    if turns[k].speaker == me then turns[k].data else if Answers(me, turns, k) then turns[k + 1].data else []
  }

  function ReadLen(me: Side, turns: seq<Turn>, k: Option<nat>): nat {
    if k.None? || k.value >= |turns| || turns[k.value].speaker == me then 0 else |turns[k.value].data|
  }

  function ActAfter(me: Side, turns: seq<Turn>, inputs: seq<Bytes>): Option<Bytes> {
    if inputs == [] then None
    else
      var before := Pos(me, turns, inputs[..|inputs| - 1]);
      if before.Some? && Accepts(me, turns, before.value, inputs[|inputs| - 1])
      then Some(Answer(me, turns, before.value))
      else None
  }

  function ScriptedKind(me: Side, turns: seq<Turn>): Kind {
    Kind(
      true,
      (past: Past) => ReadLen(me, turns, Pos(me, turns, past.inputs)),
      (past: Past) => ActAfter(me, turns, past.inputs),
      (past: Past) => if Pos(me, turns, past.inputs) == Some(|turns|) then Some([]) else None,
      |turns|)
  }

  predicate AfterOther(turns: seq<Turn>, i: nat) {
    0 < i < |turns| && turns[i - 1].speaker != turns[i].speaker
  }

  /** No act is empty, and replies follow the peer's turns. */
  predicate Proper(turns: seq<Turn>) {
    forall i :: 0 <= i < |turns| ==> turns[i].data != [] && (turns[i].reply ==> AfterOther(turns, i))
  }

  lemma {:induction false} AnswerToPush(me: Side, turns: seq<Turn>, past: Past, x: Bytes)
    ensures var k := Pos(me, turns, past.inputs); var accepted := k.Some? && Accepts(me, turns, k.value, x);
            && ActAfter(me, turns, past.Push(x).inputs) == (if accepted then Some(Answer(me, turns, k.value)) else None)
            && Pos(me, turns, past.Push(x).inputs) == (if accepted then Some(Next(me, turns, k.value)) else None)
  {
    assert past.Push(x).inputs[..|past.inputs|] == past.inputs;
  }

  lemma {:induction false} ScriptedEnds(me: Side, turns: seq<Turn>)
    ensures Bounded(ScriptedKind(me, turns)) && FailsOpen(ScriptedKind(me, turns))
  {
    var kind := ScriptedKind(me, turns);
    forall past: Past | past.inputs != []
      ensures kind.act(past).Some? <==> Pos(me, turns, past.inputs).Some?
    {
    }
  }

  lemma {:induction false} SpeaksAt(me: Side, turns: seq<Turn>, past: Past)
    requires Proper(turns) && Pos(me, turns, past.inputs) != Some(|turns|)
        && ReadLen(me, turns, Pos(me, turns, past.inputs)) == 0
    ensures ActAfter(me, turns, past.Push([]).inputs) != Some([])
  {
    AnswerToPush(me, turns, past, []);
  }

  lemma {:induction false} ScriptedSpeaks(me: Side, turns: seq<Turn>)
    requires Proper(turns)
    ensures Vocal(ScriptedKind(me, turns))
  {
    var kind := ScriptedKind(me, turns);
    forall past: Past | kind.artifact(past).None? && kind.readLen(past) == 0
      ensures kind.act(past.Push([])) != Some([])
    {
      SpeaksAt(me, turns, past);
    }
  }

  /** The scripted machine obeys the laws of a machine. */
  lemma {:induction false} ScriptedIsLawful(me: Side, turns: seq<Turn>)
    requires Proper(turns)
    ensures Bounded(ScriptedKind(me, turns)) && HonestKind(ScriptedKind(me, turns))
  {
    ScriptedEnds(me, turns);
    ScriptedSpeaks(me, turns);
  }

  /** The machine never comes to a reply of its own but by the turn it answers. */
  lemma {:induction false} NeverAtReply(me: Side, turns: seq<Turn>, inputs: seq<Bytes>)
    requires Proper(turns)
    ensures var k := Pos(me, turns, inputs);
            k.Some? && k.value < |turns| && turns[k.value].speaker == me ==> !turns[k.value].reply
  {
    if inputs != [] && Pos(me, turns, inputs).Some? {
      var j := Pos(me, turns, inputs[..|inputs| - 1]).value;
      var k := Next(me, turns, j);
      if k < |turns| { assert turns[k].reply ==> AfterOther(turns, k); }
    }
  }

  lemma {:induction false} FollowsOwn(me: Side, turns: seq<Turn>, past: Past, k: nat)
    requires Proper(turns) && Pos(me, turns, past.inputs) == Some(k) && k < |turns| && turns[k].speaker == me
    requires Follows(ScriptedKind(me, turns), past.Push([]), me, turns[k + 1..])
    ensures Follows(ScriptedKind(me, turns), past, me, turns[k..])
  {
    AnswerToPush(me, turns, past, []);
    NeverAtReply(me, turns, past.inputs);
    assert turns[k..][1..] == turns[k + 1..];
  }

  lemma {:induction false} FollowsPeer(me: Side, turns: seq<Turn>, past: Past, k: nat)
    requires Proper(turns) && Pos(me, turns, past.inputs) == Some(k) && k < |turns| && turns[k].speaker != me
    requires Follows(ScriptedKind(me, turns), past.Push(turns[k].data), me, turns[Next(me, turns, k)..])
    ensures Follows(ScriptedKind(me, turns), past, me, turns[k..])
  {
    AnswerToPush(me, turns, past, turns[k].data);
    LeftAt(me, turns, k);
  }

  lemma {:induction false} LeftAt(me: Side, turns: seq<Turn>, k: nat)
    requires k < |turns| && turns[k].speaker != me
    ensures turns[k..] != [] && turns[k..][0] == turns[k]
    ensures Replies(me, turns[k..]) <==> Answers(me, turns, k)
    ensures Replies(me, turns[k..]) ==> turns[k..][1] == turns[k + 1]
    ensures AfterPeer(me, turns[k..]) == turns[Next(me, turns, k)..]
  {
    if k + 1 < |turns| { assert turns[k..][1] == turns[k + 1]; }
  }

  /** The scripted machine follows its dialogue from wherever it is. */
  lemma {:induction false} ScriptedFollows(me: Side, turns: seq<Turn>, past: Past, k: nat)
    requires Proper(turns) && Pos(me, turns, past.inputs) == Some(k)
    ensures Follows(ScriptedKind(me, turns), past, me, turns[k..])
    decreases |turns| - k
  {
    if k < |turns| {
      var x := if turns[k].speaker == me then [] else turns[k].data;
      AnswerToPush(me, turns, past, x);
      ScriptedFollows(me, turns, past.Push(x), Next(me, turns, k));
      if turns[k].speaker == me { FollowsOwn(me, turns, past, k); } else { FollowsPeer(me, turns, past, k); }
    }
  }

  function ScriptedMachine(me: Side, turns: seq<Turn>): Machine {
    Machine(ScriptedKind(me, turns), Past(None, []))
  }

  /** The tower of scripted machines over a connection. */
  function ScriptedTower(me: Side, dialogues: seq<seq<Turn>>, c: Conn): Tower {
    if dialogues == [] then Base(c)
    else Layer(ScriptedMachine(me, dialogues[|dialogues| - 1]), ScriptedTower(me, dialogues[..|dialogues| - 1], c))
  }

  function ScriptedMachines(me: Side, dialogues: seq<seq<Turn>>): seq<Machine> {
    seq(|dialogues|, i requires 0 <= i < |dialogues| => ScriptedMachine(me, dialogues[i]))
  }

  predicate AllProper(dialogues: seq<seq<Turn>>) {
    forall i :: 0 <= i < |dialogues| ==> Proper(dialogues[i])
  }

  /** A connection that nothing has crossed yet. */
  function FreshConn(rx: seq<Rx>, tx: seq<Tx>): Conn {
    Conn(Some(0), rx, tx, [], [], [])
  }

  lemma {:induction false} TowerOfMachines(me: Side, dialogues: seq<seq<Turn>>, c: Conn)
    ensures MachinesOf(ScriptedTower(me, dialogues, c)) == ScriptedMachines(me, dialogues)
    ensures ConnOf(ScriptedTower(me, dialogues, c)) == c
    decreases |dialogues|
  {
    if dialogues == [] {
    } else {
      TowerOfMachines(me, dialogues[..|dialogues| - 1], c);
    }
  }

  lemma {:induction false} ScriptedOnTrack(me: Side, below: Artifact, dialogues: seq<seq<Turn>>)
    requires AllProper(dialogues)
    ensures OnTrack(me, below, ScriptedMachines(me, dialogues), dialogues)
    decreases |dialogues|
  {
    if dialogues == [] {
    } else {
      var m := ScriptedMachine(me, dialogues[0]);
      ScriptedFollows(me, dialogues[0], m.past, 0);
      assert dialogues[0][0..] == dialogues[0];
      assert ScriptedMachines(me, dialogues)[1..] == ScriptedMachines(me, dialogues[1..]);
      ScriptedOnTrack(me, Protocol(below, FinalArtifact(m, me, dialogues[0])), dialogues[1..]);
    }
  }

  lemma {:induction false} ScriptedBegins(me: Side, dialogues: seq<seq<Turn>>, tx: seq<Tx>)
    requires AllProper(dialogues)
    ensures Begins(me, Endpoint(ScriptedTower(me, dialogues, FreshConn([], tx)), [], [], []), dialogues)
  {
    TowerOfMachines(me, dialogues, FreshConn([], tx));
    ScriptedOnTrack(me, PeerAddr(0), dialogues);
  }

  /** For dialogues of any depth and length, and whatever the connections make of the writes, there are
      two peers that match. */
  lemma {:induction false} MatchingExists(dialogues: seq<seq<Turn>>, tx: seq<Tx>, tx': seq<Tx>)
    requires AllProper(dialogues)
    ensures Matching(Joint(Endpoint(ScriptedTower(Left, dialogues, FreshConn([], tx)), [], [], []),
                           Endpoint(ScriptedTower(Right, dialogues, FreshConn([], tx')), [], [], [])), dialogues)
  {
    ScriptedBegins(Left, dialogues, tx);
    ScriptedBegins(Right, dialogues, tx');
  }

  /** What the side waits for first, and that it is not established yet. */
  lemma {:induction false} ScriptedIsOpen(me: Side, dialogues: seq<seq<Turn>>, c: Conn)
    requires AllProper(dialogues) && Script(0, dialogues) != [] && c.peer == Some(0)
    ensures var t := ScriptedTower(me, dialogues, c); var g := Script(0, dialogues);
            && !Established(t) && ConnOf(t) == c
            && StackArtifact(PeerAddr(0), MachinesOf(t)).None?
            && Need(PeerAddr(0), MachinesOf(t)) == if g[0].turn.speaker == me then 0 else |g[0].turn.data|
  {
    var t := ScriptedTower(me, dialogues, c);
    TowerOfMachines(me, dialogues, c);
    ScriptedOnTrack(me, PeerAddr(0), dialogues);
    ScriptTells(0, me, PeerAddr(0), MachinesOf(t), dialogues);
    ArtifactRefines(t);
  }

  function ScriptedNet(dialogues: seq<seq<Turn>>, tx: seq<Tx>, tx': seq<Tx>): Net {
    Net(Node(Ledger(WithSession(ScriptedTower(Left, dialogues, FreshConn([], tx))), [], []), [], []),
        Node(Ledger(Accept(ScriptedTower(Right, dialogues, FreshConn([], tx'))), [], []), [], []))
  }

  /** The initiator's transport and the responder's, for any dialogues with something to say. */
  lemma {:induction false} StartExists(dialogues: seq<seq<Turn>>, tx: seq<Tx>, tx': seq<Tx>)
    requires AllProper(dialogues) && Script(0, dialogues) != []
    ensures Start(ScriptedNet(dialogues, tx, tx'), dialogues)
    ensures Willing(tx) && Willing(tx') ==> Able(ScriptedNet(dialogues, tx, tx'), Script(0, dialogues))
  {
    MatchingExists(dialogues, tx, tx');
    ScriptedIsOpen(Left, dialogues, FreshConn([], tx));
    ScriptedIsOpen(Right, dialogues, FreshConn([], tx'));
  }

  // ---------- Examples of what can go wrong ----------

  lemma {:induction false} ScriptOfOne(layer: nat, turns: seq<Turn>)
    ensures Script(layer, [turns]) == Tag(layer, turns)
  {
    assert [turns][1..] == [];
  }

  /** A reachable deadlock: an initiator that is to speak twice before it is answered says its first
      act and then sleeps for ever. */
  lemma {:induction false} SpeakingTwiceDeadlocks(a: Bytes, b: Bytes, c: Bytes) returns (hs: seq<Happening>, me: Side)
    requires a != [] && b != [] && c != []
    ensures var net := ScriptedNet([[Turn(Left, a, false), Turn(Left, b, false), Turn(Right, c, true)]], [], []);
            EnabledPlay(net, hs) && StuckAt(me, NetPlay(net, hs))
  {
    var turns := [Turn(Left, a, false), Turn(Left, b, false), Turn(Right, c, true)];
    var g := Script(0, [turns]);
    ScriptOfOne(0, turns);
    assert turns[1..] == [Turn(Left, b, false), Turn(Right, c, true)];
    assert g[0] == Tagged(0, turns[0]) && g[0 + 1] == Tagged(0, turns[1]);
    assert SpeaksTwice(Left, g);
    StartExists([turns], [], []);
    hs, me := GetsStuck(ScriptedNet([turns], [], []), [turns]);
  }

  /** But a layer may be completed by speaking unasked, if the responder opens the next: this handshake
      can always be completed. */
  lemma {:induction false} ResponderOpensNextLayer(a: Bytes, b: Bytes, c: Bytes)
    requires a != [] && b != [] && c != []
    ensures CanComplete(ScriptedNet([[Turn(Left, a, false)], [Turn(Right, b, false), Turn(Left, c, true)]], [], []))
  {
    var dialogues := [[Turn(Left, a, false)], [Turn(Right, b, false), Turn(Left, c, true)]];
    ScriptOfTwo(dialogues[0], dialogues[1]);
    TagOfOne(0, dialogues[0][0]);
    TagOfTwo(1, dialogues[1][0], dialogues[1][1]);
    assert Script(0, dialogues) == [Tagged(0, dialogues[0][0]), Tagged(1, dialogues[1][0]), Tagged(1, dialogues[1][1])];
    StartExists(dialogues, [], []);
    CompletesIffTakesTurns(ScriptedNet(dialogues, [], []), dialogues);
  }

  lemma {:induction false} ScriptOfTwo(first: seq<Turn>, second: seq<Turn>)
    ensures Script(0, [first, second]) == Tag(0, first) + Tag(1, second)
  {
    ScriptOfOne(1, second);
    assert [first, second][1..] == [second];
  }

  lemma {:induction false} TagOfOne(layer: nat, turn: Turn)
    ensures Tag(layer, [turn]) == [Tagged(layer, turn)]
  {
    assert [turn][1..] == [];
  }

  lemma {:induction false} TagOfTwo(layer: nat, first: Turn, second: Turn)
    ensures Tag(layer, [first, second]) == [Tagged(layer, first), Tagged(layer, second)]
  {
    TagOfOne(layer, second);
    assert [first, second][1..] == [second];
  }

  /** A responder with one layer that hears `a` and answers `b`. */
  function Responder(a: Bytes, b: Bytes, rx: seq<Rx>, tx: seq<Tx>): Transport {
    Accept(ScriptedTower(Right, [[Turn(Left, a, false), Turn(Right, b, true)]], FreshConn(rx, tx)))
  }

  lemma {:induction false} ResponderIsSound(a: Bytes, b: Bytes, rx: seq<Rx>, tx: seq<Tx>)
    requires a != [] && b != []
    ensures var tr := Responder(a, b, rx, tx);
            && Sound(tr) && tr.state == Handshake && ConnOf(tr.session) == FreshConn(rx, tx)
            && StackArtifact(Below(tr.session), MachinesOf(tr.session)).None?
            && Need(Below(tr.session), MachinesOf(tr.session)) == |a|
            && MachinesOf(tr.session) == [ScriptedMachine(Right, [Turn(Left, a, false), Turn(Right, b, true)])]
            && HonestMachines(MachinesOf(tr.session))
  {
    var turns := [Turn(Left, a, false), Turn(Right, b, true)];
    var t := Responder(a, b, rx, tx).session;
    ScriptOfOne(0, turns);
    ScriptedIsOpen(Right, [turns], FreshConn(rx, tx));
    TowerOfMachines(Right, [turns], FreshConn(rx, tx));
    FreshIsDisciplined(PeerAddr(0), MachinesOf(t));
    ScriptedIsLawful(Right, turns);
  }

  /** The first byte of an act that arrives alone is lost. */
  lemma {:induction false} TornActExample(a: Bytes, b: Bytes)
    requires |a| > 1 && b != []
    ensures var (tr', event) := HandleIo(Responder(a, b, [Chunk(a[..1])], []), ReadReady);
            && event == None && tr'.state == Handshake
            && ConnOf(tr'.session).taken == a[..1] && Inputs(MachinesOf(tr'.session)) == []
  {
    var tr := Responder(a, b, [Chunk(a[..1])], []);
    ResponderIsSound(a, b, [Chunk(a[..1])], []);
    TornActVanishes(tr, a[..1]);
    UntouchedIsSilent(MachinesOf(tr.session));
    assert [] + a[..1] == a[..1];
  }

  lemma {:induction false} ResponderAdvances(a: Bytes, b: Bytes)
    requires a != [] && b != []
    ensures var m := ScriptedMachine(Right, [Turn(Left, a, false), Turn(Right, b, true)]);
        var (m', act) := m.Start(PeerAddr(0)).Advance(a);
            act == Some(b) && m'.IsComplete() && !m.IsComplete() && m.Start(PeerAddr(0)).NextReadLen() == |a|
  {
    var turns := [Turn(Left, a, false), Turn(Right, b, true)];
    AnswerToPush(Right, turns, Past(None, []), a);
  }

  /** What the responder does with the whole of `a`. */
  lemma {:induction false} ResponderAnswers(a: Bytes, b: Bytes, tx: seq<Tx>)
    requires a != [] && b != []
    ensures var t := Responder(a, b, [Chunk(a)], tx).session;
            && ConnOf(t).peer.Some? && StackArtifact(Below(t), MachinesOf(t)).None?
            && Act(Below(t), MachinesOf(t), ConnOf(t), IoCall(ReadReady)) == b
            && Established(TowerDo(t, IoCall(ReadReady)).0)
  {
    var t := Responder(a, b, [Chunk(a)], tx).session;
    var c, m := FreshConn([Chunk(a)], tx), ScriptedMachine(Right, [Turn(Left, a, false), Turn(Right, b, true)]);
    ResponderIsSound(a, b, [Chunk(a)], tx);
    assert Available(c.rx) == a + Available(c.rx[1..]) == a && a[..|a|] == a;
    ResponderAdvances(a, b);
    AnswersAct(m, PeerAddr(0), c, READ_BUFFER_SIZE);
    LastAnswers(t, m, c, IoCall(ReadReady));
  }

  /** A tower with one machine is established once the machine is complete. */
  lemma {:induction false} LastAnswers(t: Tower, m: Machine, c: Conn, call: Call)
    requires t == Layer(m, Base(c)) && c.peer == Some(0) && !m.IsComplete()
    requires MachineDo(m, PeerAddr(0), c, call).0.IsComplete()
    ensures Established(TowerDo(t, call).0)
  {
    LayerDo(t, call);
    MachineAdvancesOnce(m, PeerAddr(0), c, call);
  }

  /** The answer is refused and never sent, and the responder reports an established session. */
  lemma {:induction false} RefusedAnswerExample(a: Bytes, b: Bytes)
    requires a != [] && b != []
    ensures var (tr', event) := HandleIo(Responder(a, b, [Chunk(a)], [TxErr(WouldBlock)]), ReadReady);
            event.Some? && event.value.EstablishedWith? && ConnOf(tr'.session).sent == []
  {
    ResponderIsSound(a, b, [Chunk(a)], [TxErr(WouldBlock)]);
    ResponderAnswers(a, b, [TxErr(WouldBlock)]);
    RefusedActStillEstablishes(Responder(a, b, [Chunk(a)], [TxErr(WouldBlock)]), ReadReady, WouldBlock);
  }

  /** An initiator with one layer that says `a` and is done. */
  function Announcer(a: Bytes, tx: seq<Tx>): Transport {
    Transport(Handshake, ScriptedTower(Left, [[Turn(Left, a, false)]], FreshConn([], tx)), true, [])
  }

  /** Its act is refused, even for good, and never sent, and it reports an established session. */
  lemma {:induction false} RefusedActExample(a: Bytes, refusal: ErrorKind)
    requires a != [] && refusal != Interrupted
    ensures Announcer(a, [TxErr(refusal)]) == WithSession(Announcer(a, [TxErr(refusal)]).session)
    ensures var (tr', event) := HandleIo(Announcer(a, [TxErr(refusal)]), WriteReady);
            event.Some? && event.value.EstablishedWith? && ConnOf(tr'.session).sent == []
  {
    var turns, c := [Turn(Left, a, false)], FreshConn([], [TxErr(refusal)]);
    var tr, m := Announcer(a, [TxErr(refusal)]), ScriptedMachine(Left, turns);
    var t := tr.session;
    ScriptOfOne(0, turns);
    ScriptedIsOpen(Left, [turns], c);
    TowerOfMachines(Left, [turns], c);
    FreshIsDisciplined(PeerAddr(0), MachinesOf(t));
    AnswerToPush(Left, turns, m.past, []);
    assert m.Start(PeerAddr(0)).Advance([]).1 == Some(a) && m.Start(PeerAddr(0)).Advance([]).0.IsComplete();
    LastAnswers(t, m, c, WriteCall([]));
    RefusedActStillEstablishes(tr, WriteReady, refusal);
  }
}
