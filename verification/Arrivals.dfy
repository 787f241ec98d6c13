/** What has arrived at a side and is still to be read, measured by the acts it is still to hear. */
module Arrivals {
  import opened Io
  import opened Connection
  import opened Dialogue

  /** After `o` bytes a number of whole acts is over, or all of them are. */
  predicate AtBoundary(o: nat, acts: seq<Spoken>) {
    acts == [] || o == 0 || (o >= |acts[0].data| && AtBoundary(o - |acts[0].data|, acts[1..]))
  }

  /** `o` bytes of the acts are over. What has arrived since are bytes, with interruptions anywhere and
      with `WouldBlock` only where no act is torn by it; there is no failure and no end of stream. */
  predicate Untorn(rx: seq<Rx>, o: nat, acts: seq<Spoken>)
    decreases |rx|
  {
    if rx == [] then true
    else match rx[0]
      case RxErr(kind) => (kind == Interrupted || (kind == WouldBlock && AtBoundary(o, acts)))
          && Untorn(rx[1..], o, acts)
      case Chunk(data) => data != [] && Untorn(rx[1..], o + |data|, acts)
  }

  /** How often a read is told that nothing has arrived. */
  function Blocks(rx: seq<Rx>): nat {
    if rx == [] then 0 else (if rx[0] == RxErr(WouldBlock) then 1 else 0) + Blocks(rx[1..])
  }

  lemma {:induction false} UntornAppend(rx: seq<Rx>, o: nat, acts: seq<Spoken>, data: Bytes)
    requires Untorn(rx, o, acts) && data != []
    ensures Untorn(rx + [Chunk(data)], o, acts) && Blocks(rx + [Chunk(data)]) == Blocks(rx)
    decreases |rx|
  {
    var longer := rx + [Chunk(data)];
    if rx == [] {
      assert longer[0] == Chunk(data) && longer[1..] == [];
    } else {
      assert longer[0] == rx[0] && longer[1..] == rx[1..] + [Chunk(data)];
      UntornAppend(rx[1..], if rx[0].Chunk? then o + |rx[0].data| else o, acts, data);
    }
  }

  lemma {:induction false} UntornStops(rx: seq<Rx>, o: nat, acts: seq<Spoken>)
    requires Untorn(rx, o, acts)
    ensures Stop(rx) == WouldBlock
    decreases |rx|
  {
    if rx == [] {
    } else {
      UntornStops(rx[1..], if rx[0].Chunk? then o + |rx[0].data| else o, acts);
    }
  }

  /** Once the first act is over, the others are counted from there. */
  lemma {:induction false} UntornFromNext(rx: seq<Rx>, o: nat, acts: seq<Spoken>)
    requires acts != [] && acts[0].data != [] && Untorn(rx, o + |acts[0].data|, acts)
    ensures Untorn(rx, o, acts[1..])
    decreases |rx|
  {
    if rx == [] {
    } else {
      UntornFromNext(rx[1..], if rx[0].Chunk? then o + |rx[0].data| else o, acts);
    }
  }

  lemma {:induction false} UntornTaken(c: Conn, n: nat, o: nat, acts: seq<Spoken>)
    requires Untorn(c.rx, o, acts) && n <= |Available(c.rx)|
    ensures var rx' := c.ReadExact(n).0.rx; Untorn(rx', o + n, acts) && Blocks(rx') <= Blocks(c.rx)
    decreases n + |c.rx|
  {
    if n > 0 {
      var (c1, r) := c.Read(n);
      if c.rx[0].RxErr? {
        UntornTaken(c1, n, o, acts);
      } else {
        ReadsSomeAvailable(c, n);
        ReadSplits(c, n, o, acts);
        UntornTaken(c1, n - |r.value|, o + |r.value|, acts);
      }
    }
  }

  lemma {:induction false} ReadSplits(c: Conn, n: nat, o: nat, acts: seq<Spoken>)
    requires n > 0 && c.rx != [] && c.rx[0].Chunk? && Untorn(c.rx, o, acts)
    ensures var (c', r) := c.Read(n); r.Ok? && Untorn(c'.rx, o + |r.value|, acts) && Blocks(c'.rx) <= Blocks(c.rx)
  {
    var c' := c.Read(n).0;
    if |c.rx[0].data| > n { assert c'.rx[1..] == c.rx[1..]; }
  }

  /** Hearing the first act leaves the others untorn. */
  lemma {:induction false} UntornHeard(c: Conn, acts: seq<Spoken>)
    requires acts != [] && acts[0].data != [] && Untorn(c.rx, 0, acts) && |acts[0].data| <= |Available(c.rx)|
    ensures var rx' := c.ReadExact(|acts[0].data|).0.rx; Untorn(rx', 0, acts[1..]) && Blocks(rx') <= Blocks(c.rx)
  {
    UntornTaken(c, |acts[0].data|, 0, acts);
    UntornFromNext(c.ReadExact(|acts[0].data|).0.rx, 0, acts);
  }

  /** A read that finds nothing takes the next `WouldBlock` away, if there is one. */
  lemma {:induction false} UntornWaited(c: Conn, n: nat, acts: seq<Spoken>)
    requires n > 0 && Untorn(c.rx, 0, acts) && Available(c.rx) == []
    ensures var rx' := c.ReadExact(n).0.rx;
            Untorn(rx', 0, acts) && (Blocks(c.rx) > 0 ==> Blocks(rx') < Blocks(c.rx)) && Blocks(rx') <= Blocks(c.rx)
    decreases |c.rx|
  {
    if c.rx != [] && c.rx[0] == RxErr(Interrupted) { UntornWaited(c.Read(n).0, n, acts); }
  }

  /** If something is available of the act that is to be heard next, then all of it is, or everything
      that has arrived is. */
  lemma {:induction false} WholeOrAll(rx: seq<Rx>, o: nat, acts: seq<Spoken>)
    requires acts != [] && Untorn(rx, o, acts) && (o > 0 || Available(rx) != [])
    ensures o + |Available(rx)| >= |acts[0].data| || Available(rx) == Payload(rx)
    decreases |rx|
  {
    if rx == [] {
    } else {
      WholeOrAll(rx[1..], if rx[0].Chunk? then o + |rx[0].data| else o, acts);
    }
  }

  lemma {:induction false} NothingArrived(rx: seq<Rx>, o: nat, acts: seq<Spoken>)
    requires Untorn(rx, o, acts) && Available(rx) == [] && Blocks(rx) == 0
    ensures Payload(rx) == []
    decreases |rx|
  {
    if rx == [] {
    } else {
      NothingArrived(rx[1..], o, acts);
    }
  }
}
