/** Framing: the frame queue (`Marshaller`) and the contract of frames. */
module Frames {
  import opened Io

  /** What `unmarshall` makes of a stream: a frame with the cursor behind it, `Ok(None)`, or an error. */
  datatype Parsed<F> = Parsed(frame: F, pos: nat) | Incomplete | Malformed

  datatype Codec<!F> = Codec(marshall: F -> Bytes, unmarshall: Bytes -> Parsed<F>)

  /** The cursor of a parsed frame is within the stream. */
  ghost predicate InBounds<F(!new)>(codec: Codec<F>) {
    forall s: Bytes :: codec.unmarshall(s).Parsed? ==> codec.unmarshall(s).pos <= |s|
  }

  /** A frame is recovered from the beginning of a stream, whatever follows it. */
  ghost predicate Recovers<F>(codec: Codec<F>, f: F, rest: Bytes) {
    codec.unmarshall(codec.marshall(f) + rest) == Parsed(f, |codec.marshall(f)|)
  }

  /** A stream with only `k` bytes of a frame does not contain the whole of it yet. */
  ghost predicate Waits<F>(codec: Codec<F>, f: F, k: nat) {
    k < |codec.marshall(f)| ==> codec.unmarshall(codec.marshall(f)[..k]) == Incomplete
  }

  /** The contract of `Frame`. */
  ghost predicate LawfulCodec<F(!new)>(codec: Codec<F>) {
    && InBounds(codec)
    && codec.unmarshall([]) == Incomplete
    && (forall f: F, rest: Bytes :: Recovers(codec, f, rest))
    && (forall f: F, k: nat :: Waits(codec, f, k))
  }

  /** `pop` on a queue of bytes. */
  function PopFrom<F>(codec: Codec<F>, queue: Bytes): (Parsed<F>, Bytes) {
    var r := codec.unmarshall(queue);
    (r, if r.Parsed? && r.pos <= |queue| then queue[r.pos..] else queue)
  }

  class Marshaller {
    var readQueue: Bytes
    var writeQueue: Bytes

    constructor ()
      ensures readQueue == [] && writeQueue == []
    {
      readQueue, writeQueue := [], [];
    }

    method Push<F>(codec: Codec<F>, frame: F)
      modifies this
      ensures writeQueue == old(writeQueue) + codec.marshall(frame) && readQueue == old(readQueue)
    {
      writeQueue := writeQueue + codec.marshall(frame);
    }

    /** Takes a whole frame off the queue; without one the queue is unchanged. */
    method Pop<F(!new)>(codec: Codec<F>) returns (r: Parsed<F>)
      requires InBounds(codec)
      modifies this
      ensures (r, readQueue) == PopFrom(codec, old(readQueue)) && writeQueue == old(writeQueue)
      ensures r == codec.unmarshall(old(readQueue)) && (r.Parsed? ==> readQueue == old(readQueue)[r.pos..])
      ensures !r.Parsed? ==> readQueue == old(readQueue)
    {
      r := codec.unmarshall(readQueue);
      if r.Parsed? {
        readQueue := readQueue[r.pos..];
      }
    }

    /** `io::Read`: the deque hands out at most its front slice, of `front` bytes. */
    method Read(n: nat, front: nat) returns (data: Bytes)
      requires front <= |writeQueue| && (writeQueue != [] ==> front > 0)
      modifies this
      ensures data + writeQueue == old(writeQueue) && readQueue == old(readQueue)
      ensures |data| == if n <= front then n else front
    {
      var k := if n <= front then n else front;
      data := writeQueue[..k];
      writeQueue := writeQueue[k..];
    }

    /** `io::Write`. */
    method Write(buf: Bytes) returns (n: nat)
      modifies this
      ensures n == |buf| && readQueue == old(readQueue) + buf && writeQueue == old(writeQueue)
    {
      readQueue := readQueue + buf;
      n := |buf|;
    }

    /** Hands out the unread bytes, unless something is still to be sent. */
    method Drain() returns (r: Option<Bytes>)
      modifies this
      ensures writeQueue == old(writeQueue)
      ensures if writeQueue == [] then r == Some(old(readQueue)) && readQueue == []
          else r == None && readQueue == old(readQueue)
    {
      if writeQueue == [] {
        r := Some(readQueue);
        readQueue := [];
      } else {
        r := None;
      }
    }
  }

  // ---------- Two marshallers and a channel ----------

  /** A sending marshaller's write queue and a receiving one's read queue, with the frames that were
      pushed into the one and popped from the other. */
  datatype Link<F> = Link(pushed: seq<F>, outgoing: Bytes, incoming: Bytes, popped: seq<F>)

  /** A push, the transfer of up to `n` bytes, or a pop. */
  datatype Act<F> = Push(frame: F) | Transfer(n: nat) | Pop

  function Step<F>(codec: Codec<F>, l: Link<F>, act: Act<F>): Link<F> {
    match act
    case Push(f) => l.(pushed := l.pushed + [f], outgoing := l.outgoing + codec.marshall(f))
    case Transfer(n) =>
      var k := if n <= |l.outgoing| then n else |l.outgoing|;
      l.(outgoing := l.outgoing[k..], incoming := l.incoming + l.outgoing[..k])
    case Pop =>
      var (r, rest) := PopFrom(codec, l.incoming);
      l.(incoming := rest, popped := if r.Parsed? then l.popped + [r.frame] else l.popped)
  }

  function Run<F>(codec: Codec<F>, l: Link<F>, acts: seq<Act<F>>): Link<F>
    decreases |acts|
  {
    if acts == [] then l else Run(codec, Step(codec, l, acts[0]), acts[1..])
  }

  function Encoded<F>(codec: Codec<F>, frames: seq<F>): Bytes {
    if frames == [] then [] else codec.marshall(frames[0]) + Encoded(codec, frames[1..])
  }

  lemma {:induction false} EncodedPush<F>(codec: Codec<F>, frames: seq<F>, f: F)
    ensures Encoded(codec, frames + [f]) == Encoded(codec, frames) + codec.marshall(f)
  {
    if frames == [] {
      assert frames + [f] == [f];
      assert Encoded(codec, [f]) == codec.marshall(f);
    } else {
      assert (frames + [f])[1..] == frames[1..] + [f];
      EncodedPush(codec, frames[1..], f);
    }
  }

  /** The frames popped are the first ones pushed, and the bytes in both queues are the others. */
  ghost predicate InOrder<F>(codec: Codec<F>, l: Link<F>) {
    && l.popped <= l.pushed
    && l.incoming + l.outgoing == Encoded(codec, l.pushed[|l.popped|..])
  }

  /** A pop gives the next frame exactly when all of it has arrived. */
  lemma {:induction false} PopsNext<F(!new)>(codec: Codec<F>, l: Link<F>)
    requires LawfulCodec(codec) && InOrder(codec, l)
    ensures var left := l.pushed[|l.popped|..]; var (r, rest) := PopFrom(codec, l.incoming);
            if left != [] && |codec.marshall(left[0])| <= |l.incoming| then
              r == Parsed(left[0], |codec.marshall(left[0])|) && l.incoming == codec.marshall(left[0]) + rest
            else r == Incomplete && rest == l.incoming
  {
    var left := l.pushed[|l.popped|..];
    if left == [] {
      assert l.incoming == [];
    } else {
      var enc := codec.marshall(left[0]);
      var all := l.incoming + l.outgoing;
      assert all == enc + Encoded(codec, left[1..]);
      if |enc| <= |l.incoming| {
        assert l.incoming[..|enc|] == all[..|enc|] == enc;
        assert l.incoming == enc + l.incoming[|enc|..];
        assert Recovers(codec, left[0], l.incoming[|enc|..]);
      } else {
        assert l.incoming == all[..|l.incoming|] == enc[..|l.incoming|];
        assert Waits(codec, left[0], |l.incoming|);
      }
    }
  }

  lemma {:induction false} PushInOrder<F(!new)>(codec: Codec<F>, l: Link<F>, f: F)
    requires InOrder(codec, l)
    ensures InOrder(codec, Step(codec, l, Push(f)))
  {
    var left := l.pushed[|l.popped|..];
    EncodedPush(codec, left, f);
    assert (l.pushed + [f])[|l.popped|..] == left + [f];
    assert l.incoming + (l.outgoing + codec.marshall(f)) == (l.incoming + l.outgoing) + codec.marshall(f);
  }

  lemma {:induction false} PopInOrder<F(!new)>(codec: Codec<F>, l: Link<F>)
    requires LawfulCodec(codec) && InOrder(codec, l)
    ensures InOrder(codec, Step(codec, l, Pop))
  {
    PopsNext(codec, l);
    var left := l.pushed[|l.popped|..];
    var (r, rest) := PopFrom(codec, l.incoming);
    if r.Parsed? {
      var enc, tail := codec.marshall(left[0]), Encoded(codec, left[1..]);
      assert enc + (rest + l.outgoing) == (enc + rest) + l.outgoing == enc + tail;
      assert rest + l.outgoing == (enc + (rest + l.outgoing))[|enc|..] == tail;
      assert l.pushed[|l.popped| + 1..] == left[1..];
    }
  }

  lemma {:induction false} StepInOrder<F(!new)>(codec: Codec<F>, l: Link<F>, act: Act<F>)
    requires LawfulCodec(codec) && InOrder(codec, l)
    ensures InOrder(codec, Step(codec, l, act))
  {
    match act
    case Push(f) => PushInOrder(codec, l, f);
    case Transfer(n) =>
      var k := if n <= |l.outgoing| then n else |l.outgoing|;
      assert (l.incoming + l.outgoing[..k]) + l.outgoing[k..] == l.incoming + l.outgoing;
    case Pop => PopInOrder(codec, l);
  }

  /** Framing round trip, safety: under any interleaving of pushes, transfers of any size and pops
      the frames popped are the first ones pushed, in order. */
  lemma {:induction false} RunInOrder<F(!new)>(codec: Codec<F>, l: Link<F>, acts: seq<Act<F>>)
    requires LawfulCodec(codec) && InOrder(codec, l)
    ensures InOrder(codec, Run(codec, l, acts))
    decreases |acts|
  {
    if acts == [] {
    } else {
      StepInOrder(codec, l, acts[0]);
      RunInOrder(codec, Step(codec, l, acts[0]), acts[1..]);
    }
  }

  /** `n` pops in a row. */
  function PopTimes<F>(codec: Codec<F>, l: Link<F>, n: nat): Link<F>
    decreases n
  {
    if n == 0 then l else PopTimes(codec, Step(codec, l, Pop), n - 1)
  }

  /** With every byte arrived and a frame left, a pop takes it. */
  lemma {:induction false} PopTakesOne<F(!new)>(codec: Codec<F>, l: Link<F>)
    requires LawfulCodec(codec) && InOrder(codec, l) && l.outgoing == [] && |l.popped| < |l.pushed|
    ensures var l' := Step(codec, l, Pop);
            InOrder(codec, l') && l'.outgoing == [] && l'.pushed == l.pushed && |l'.popped| == |l.popped| + 1
  {
    var left := l.pushed[|l.popped|..];
    assert l.incoming + l.outgoing == l.incoming;
    PopsNext(codec, l);
    PopInOrder(codec, l);
  }

  /** Framing round trip, completeness: once every byte has arrived, as many pops as there are
      frames left recover them all and empty the queue. */
  lemma {:induction false} AllRecovered<F(!new)>(codec: Codec<F>, l: Link<F>)
    requires LawfulCodec(codec) && InOrder(codec, l) && l.outgoing == []
    ensures var l' := PopTimes(codec, l, |l.pushed| - |l.popped|);
            l'.popped == l.pushed && l'.pushed == l.pushed && l'.incoming == [] && l'.outgoing == []
    decreases |l.pushed| - |l.popped|
  {
    if |l.popped| == |l.pushed| {
      assert l.pushed[|l.popped|..] == [] && l.incoming + [] == l.incoming;
    } else {
      PopTakesOne(codec, l);
      AllRecovered(codec, Step(codec, l, Pop));
    }
  }

  function NewLink<F>(): Link<F> {
    Link([], [], [], [])
  }

  /** From empty marshallers: whatever the interleaving, and however the bytes were cut. */
  lemma {:induction false} RoundTrip<F(!new)>(codec: Codec<F>, acts: seq<Act<F>>)
    requires LawfulCodec(codec)
    ensures var l := Run(codec, NewLink(), acts);
            && l.popped <= l.pushed
            && (l.outgoing == [] ==> PopTimes(codec, l, |l.pushed| - |l.popped|).popped == l.pushed)
  {
    StartsInOrder(codec);
    RunInOrder(codec, NewLink(), acts);
    RecoversTheRest(codec, Run(codec, NewLink(), acts));
  }

  lemma {:induction false} RecoversTheRest<F(!new)>(codec: Codec<F>, l: Link<F>)
    requires LawfulCodec(codec) && InOrder(codec, l)
    ensures l.outgoing == [] ==> PopTimes(codec, l, |l.pushed| - |l.popped|).popped == l.pushed
  {
    if l.outgoing == [] { AllRecovered(codec, l); }
  }

  lemma {:induction false} StartsInOrder<F>(codec: Codec<F>)
    ensures InOrder(codec, NewLink())
  {
    var none: seq<F> := [];
    assert none[0..] == [];
  }

  /** A codec that writes some frame as nothing makes up frames: they are popped from an empty queue. */
  lemma {:induction false} EmptyFrameIsMadeUp<F(!new)>(codec: Codec<F>, f: F)
    requires Recovers(codec, f, []) && codec.marshall(f) == []
    ensures Step(codec, NewLink(), Pop).popped == [f]
  {
    assert codec.marshall(f) + [] == [];
  }

  // ---------- A codec that meets the contract ----------

  type Short = s: Bytes | |s| < 256

  /** Frames of less than 256 bytes behind their length. */
  function LengthPrefixed(): Codec<Short> {
    var unmarshall: Bytes -> Parsed<Short> := s => ParseShort(s);
    Codec(f => [|f| as byte] + f, unmarshall)
  }

  function ParseShort(s: Bytes): Parsed<Short> {
    if s == [] || |s| - 1 < s[0] as int then Incomplete
    else
      var body: Short := s[1..1 + s[0] as int];
      Parsed(body, 1 + s[0] as int)
  }

  lemma {:induction false} ShortParses(f: Short, rest: Bytes, k: nat)
    ensures ParseShort([|f| as byte] + f + rest) == Parsed(f, 1 + |f|)
    ensures k <= |f| ==> ParseShort(([|f| as byte] + f)[..k]) == Incomplete
  {
    var s := [|f| as byte] + f + rest;
    assert s[0] as int == |f| && s[1..1 + |f|] == f;
  }

  lemma {:induction false} LengthPrefixedIsLawful()
    ensures LawfulCodec(LengthPrefixed())
  {
    var codec := LengthPrefixed();
    forall f: Short, rest: Bytes ensures Recovers(codec, f, rest) {
      ShortParses(f, rest, 0);
    }
    forall f: Short, k: nat ensures Waits(codec, f, k) {
      ShortParses(f, [], k);
    }
  }
}
