/** The base connection of a session: a non-blocking byte stream owned by the OS.

    What the OS will answer is data: `rx` lists the outcomes of the coming reads, `tx` of the
    coming writes and `flushes` of the coming flushes, so a statement about every connection is a
    statement about every behaviour of the OS. `taken` and `sent` log the bytes that crossed. */
module Connection {
  import opened Io

  /** One outcome of a read: some bytes (none of them: end of stream) or an error. */
  datatype Rx = Chunk(data: Bytes) | RxErr(kind: ErrorKind)

  /** One outcome of a write: at most `limit` bytes accepted, or an error. */
  datatype Tx = Take(limit: nat) | TxErr(kind: ErrorKind)

  datatype Conn = Conn(
    peer: Option<nat>,
    rx: seq<Rx>,
    tx: seq<Tx>,
    flushes: seq<Result<()>>,
    taken: Bytes,
    sent: Bytes)
  {
    /** `read` into a buffer of `n` bytes. Nothing listed any more means nothing has arrived. */
    function Read(n: nat): (r: (Conn, Result<Bytes>))
      ensures r.0 == this.(rx := r.0.rx, taken := r.0.taken)
      ensures r.1.Ok? ==> |r.1.value| <= n && r.0.taken == taken + r.1.value && |r.0.rx| <= |rx|
      ensures r.1.Err? ==> r.0.taken == taken
      ensures r.1 == Err(Interrupted) ==> |r.0.rx| < |rx|
    {
      if n == 0 then (this, Ok([]))
      else if rx == [] then (this, Err(WouldBlock))
      else match rx[0]
        case RxErr(kind) => (this.(rx := rx[1..]), Err(kind))
        case Chunk(data) =>
          if |data| <= n then (this.(rx := rx[1..], taken := taken + data), Ok(data))
          else (this.(rx := [Chunk(data[n..])] + rx[1..], taken := taken + data[..n]), Ok(data[..n]))
    }

    /** `write` of a buffer: how many of its leading bytes were accepted. */
    function Write(buf: Bytes): (r: (Conn, Result<nat>))
      ensures r.0 == this.(tx := r.0.tx, sent := r.0.sent)
      ensures r.1.Ok? ==> r.1.value <= |buf| && r.0.sent == sent + buf[..r.1.value] && |r.0.tx| <= |tx|
      ensures r.1.Err? ==> r.0.sent == sent && |r.0.tx| < |tx|
    {
      if tx == [] then (this.(sent := sent + buf), Ok(|buf|))
      else match tx[0]
        case TxErr(kind) => (this.(tx := tx[1..]), Err(kind))
        case Take(limit) =>
          var k := if limit <= |buf| then limit else |buf|;
          (this.(tx := tx[1..], sent := sent + buf[..k]), Ok(k))
    }

    function Flush(): (Conn, Result<()>) {
      if flushes == [] then (this, Ok(())) else (this.(flushes := flushes[1..]), flushes[0])
    }

    /** `io::Read::read_exact`: reads until the buffer is full, retrying interruptions. */
    function ReadExact(n: nat): (r: (Conn, Result<Bytes>))
      ensures r.0 == this.(rx := r.0.rx, taken := r.0.taken)
      decreases n + |rx|
    {
      if n == 0 then (this, Ok([]))
      else
        var (c, r) := Read(n);
        match r
        case Ok(data) =>
          if data == [] then (c, Err(UnexpectedEof))
          else
            var (c', r') := c.ReadExact(n - |data|);
            (c', if r'.Ok? then Ok(data + r'.value) else r')
        case Err(e) => if e == Interrupted then c.ReadExact(n) else (c, Err(e))
    }

    /** `io::Write::write_all`: writes until the buffer is gone, retrying interruptions. */
    function WriteAll(buf: Bytes): (r: (Conn, Result<()>))
      ensures r.0 == this.(tx := r.0.tx, sent := r.0.sent)
      ensures |r.0.tx| <= |tx|
      decreases |buf| + |tx|
    {
      if buf == [] then (this, Ok(()))
      else
        var (c, r) := Write(buf);
        match r
        case Ok(k) => if k == 0 then (c, Err(WriteZero)) else c.WriteAll(buf[k..])
        case Err(e) => if e == Interrupted then c.WriteAll(buf) else (c, Err(e))
    }
  }

  /** The bytes a `read_exact` can get before it meets an error, the end of the stream or silence. */
  function Available(rx: seq<Rx>): Bytes {
    if rx == [] then []
    else match rx[0]
      case RxErr(kind) => if kind == Interrupted then Available(rx[1..]) else []
      case Chunk(data) => if data == [] then [] else data + Available(rx[1..])
  }

  /** Whether the coming writes accept `n` bytes before they refuse any. */
  predicate Absorbs(tx: seq<Tx>, n: nat) {
    if n == 0 || tx == [] then true
    else match tx[0]
      case TxErr(kind) => kind == Interrupted && Absorbs(tx[1..], n)
      case Take(limit) => limit > 0 && Absorbs(tx[1..], if limit <= n then n - limit else 0)
  }

  /** A `read_exact` of `n` bytes from `c` has ended at `c'`: with the first `n` available bytes, or,
      if there are not enough, with all of them taken and thereby lost. */
  ghost predicate TakesExactly(c: Conn, n: nat, c': Conn, r: Result<Bytes>) {
    var all := Available(c.rx);
    && (r.Ok? <==> n <= |all|)
    && (r.Ok? ==> r.value == all[..n] && c'.taken == c.taken + r.value && Available(c'.rx) == all[n..])
    && (r.Err? ==> c'.taken == c.taken + all)
  }

  /** `read_exact` succeeds exactly when enough is available; when it fails it has still taken,
      and thereby lost, everything that was. */
  lemma {:induction false} ReadExactTakes(c: Conn, n: nat)
    ensures var (c', r) := c.ReadExact(n); TakesExactly(c, n, c', r)
    decreases n + |c.rx|
  {
    if n != 0 && c.rx != [] {
      var (c1, r1) := c.Read(n);
      match c.rx[0]
      case RxErr(kind) =>
        if kind == Interrupted { ReadExactTakes(c1, n); }
      case Chunk(data) =>
        if data != [] {
          ReadsSomeAvailable(c, n);
          ReadExactTakes(c1, n - |r1.value|);
          var (c', r) := c1.ReadExact(n - |r1.value|);
          TakesMore(c, n, r1.value, c1, c', r);
        }
    }
  }

  lemma {:induction false} TakesMore(c: Conn, n: nat, data: Bytes, c1: Conn, c': Conn, r: Result<Bytes>)
    requires |data| <= n && Available(c.rx) == data + Available(c1.rx) && c1.taken == c.taken + data
    requires TakesExactly(c1, n - |data|, c', r)
    ensures TakesExactly(c, n, c', if r.Ok? then Ok(data + r.value) else r)
  {
    var all, more := Available(c.rx), Available(c1.rx);
    if r.Ok? { assert all[..n] == data + more[..n - |data|] && all[n..] == more[n - |data|..]; }
  }

  lemma {:induction false} ReadsSomeAvailable(c: Conn, n: nat)
    requires n > 0 && c.rx != [] && c.rx[0].Chunk? && c.rx[0].data != []
    ensures var (c', r) := c.Read(n); r.Ok? && r.value != [] && Available(c.rx) == r.value + Available(c'.rx)
  {
    var data, c' := c.rx[0].data, c.Read(n).0;
    if |data| > n {
      assert c'.rx[1..] == c.rx[1..];
      assert data[..n] + data[n..] == data;
    }
  }

  /** `write_all` succeeds exactly when the connection absorbs the buffer; when it fails only a
      proper prefix of the buffer is on the wire. */
  lemma {:induction false} WriteAllPuts(c: Conn, buf: Bytes)
    ensures var (c', r) := c.WriteAll(buf);
            && (r.Ok? <==> Absorbs(c.tx, |buf|))
            && (r.Ok? ==> c'.sent == c.sent + buf)
            && (r.Err? ==> exists k :: 0 <= k < |buf| && c'.sent == c.sent + buf[..k])
    decreases |buf| + |c.tx|
  {
    if buf != [] && c.tx != [] {
      var (c1, r1) := c.Write(buf);
      match c.tx[0]
      case TxErr(kind) =>
        if kind == Interrupted {
          WriteAllPuts(c1, buf);
        } else {
          assert c1.sent == c.sent + buf[..0];
        }
      case Take(limit) =>
        var k := r1.value;
        if k == 0 {
          assert c1.sent == c.sent + buf[..0];
        } else {
          WriteAllPuts(c1, buf[k..]);
          if !Absorbs(c.tx, |buf|) {
            var (c', _) := c1.WriteAll(buf[k..]);
            var j :| 0 <= j < |buf[k..]| && c'.sent == c1.sent + buf[k..][..j];
            assert buf[..k] + buf[k..][..j] == buf[..k + j];
          }
        }
    }
  }

  /** How many of `n` bytes the next write takes. */
  function Share(tx: seq<Tx>, n: nat): (k: nat)
    ensures k <= n
  {
    if tx == [] then n
    else match tx[0]
      case Take(limit) => if limit <= n then limit else n
      case TxErr(_) => 0
  }

  /** The next write takes something, be it nothing of nothing, rather than fail. */
  predicate TakesNext(c: Conn) {
    c.tx == [] || c.tx[0].Take?
  }

  /** What the connection answers to the next flush. */
  function NextFlush(c: Conn): Result<()> {
    if c.flushes == [] then Ok(()) else c.flushes[0]
  }

  /** A write takes its share of the buffer from the front, or fails and takes nothing. */
  lemma {:induction false} WriteShares(c: Conn, b: Bytes)
    ensures var (c', put) := c.Write(b); var k := Share(c.tx, |b|);
            && c' == c.(tx := if c.tx == [] then [] else c.tx[1..], sent := c.sent + b[..k])
            && put == if TakesNext(c) then Ok(k) else Err(c.tx[0].kind)
  {
    assert b[..|b|] == b && c.sent + [] == c.sent;
  }

  /** The error at which a `write_all` of `n` bytes gives up that are not absorbed. */
  function Refusal(tx: seq<Tx>, n: nat): ErrorKind
    decreases |tx|
  {
    if tx == [] then WriteZero
    else match tx[0]
      case TxErr(kind) => if kind == Interrupted then Refusal(tx[1..], n) else kind
      case Take(limit) => if limit == 0 then WriteZero else Refusal(tx[1..], if limit <= n then n - limit else 0)
  }

  lemma {:induction false} WriteAllRefuses(c: Conn, buf: Bytes)
    ensures var r := c.WriteAll(buf).1; r.Err? ==> r.error == Refusal(c.tx, |buf|)
    decreases |buf| + |c.tx|
  {
    if buf != [] && c.tx != [] {
      var (c1, r) := c.Write(buf);
      if r.Ok? && r.value > 0 { WriteAllRefuses(c1, buf[r.value..]); }
      if r == Err(Interrupted) { WriteAllRefuses(c1, buf); }
    }
  }

  /** The bytes that have arrived, across errors and ends of stream. */
  function Payload(rx: seq<Rx>): Bytes {
    if rx == [] then [] else (if rx[0].Chunk? then rx[0].data else []) + Payload(rx[1..])
  }

  lemma {:induction false} PayloadAppend(rx: seq<Rx>, more: Rx)
    ensures Payload(rx + [more]) == Payload(rx) + if more.Chunk? then more.data else []
  {
    var longer := rx + [more];
    if rx == [] {
      assert longer[0] == more && longer[1..] == [];
    } else {
      PayloadAppend(rx[1..], more);
      assert longer[0] == rx[0] && longer[1..] == rx[1..] + [more];
      var first, last := if rx[0].Chunk? then rx[0].data else [], if more.Chunk? then more.data else [];
      assert Payload(longer) == first + (Payload(rx[1..]) + last);
      assert Payload(rx) == first + Payload(rx[1..]);
    }
  }

  lemma {:induction false} AvailableArrived(rx: seq<Rx>)
    ensures Available(rx) <= Payload(rx)
  {
    if rx == [] {
    } else {
      AvailableArrived(rx[1..]);
    }
  }

  /** The error at which a `read_exact` gives up that does not find enough. */
  function Stop(rx: seq<Rx>): ErrorKind {
    if rx == [] then WouldBlock
    else match rx[0]
      case RxErr(kind) => if kind == Interrupted then Stop(rx[1..]) else kind
      case Chunk(data) => if data == [] then UnexpectedEof else Stop(rx[1..])
  }

  lemma {:induction false} ReadExactStops(c: Conn, n: nat)
    ensures var r := c.ReadExact(n).1; r.Err? ==> r.error == Stop(c.rx)
    decreases n + |c.rx|
  {
    if n > 0 && c.rx != [] {
      var (c1, r) := c.Read(n);
      if r.Ok? && r.value != [] { ReadExactStops(c1, n - |r.value|); }
      if r == Err(Interrupted) { ReadExactStops(c1, n); }
    }
  }

  /** Everything a connection has been sent so far: taken from it, or arrived. */
  function Stream(c: Conn): Bytes {
    c.taken + Payload(c.rx)
  }

  /** Nothing has arrived but bytes: no error, no end of stream. */
  predicate Calm(rx: seq<Rx>) {
    forall i :: 0 <= i < |rx| ==> rx[i].Chunk? && rx[i].data != []
  }

  /** The coming writes all accept something, or are only interrupted. */
  predicate Willing(tx: seq<Tx>) {
    forall i :: 0 <= i < |tx| ==> if tx[i].Take? then tx[i].limit > 0 else tx[i].kind == Interrupted
  }

  lemma {:induction false} CalmIsAvailable(rx: seq<Rx>)
    requires Calm(rx)
    ensures Available(rx) == Payload(rx) && (rx == [] <==> Payload(rx) == [])
  {
    if rx == [] {
    } else {
      CalmIsAvailable(rx[1..]);
    }
  }

  lemma {:induction false} WillingAbsorbs(tx: seq<Tx>, n: nat)
    requires Willing(tx)
    ensures Absorbs(tx, n)
    decreases |tx|
  {
    if n != 0 && tx != [] {
      WillingAbsorbs(tx[1..], if tx[0].TxErr? then n else if tx[0].limit <= n then n - tx[0].limit else 0);
    }
  }

  lemma {:induction false} WriteAllKeepsWilling(c: Conn, buf: Bytes)
    requires Willing(c.tx)
    ensures Willing(c.WriteAll(buf).0.tx)
    decreases |buf| + |c.tx|
  {
    if buf == [] {
    } else {
      var (c1, r) := c.Write(buf);
      if r.Ok? && r.value > 0 { WriteAllKeepsWilling(c1, buf[r.value..]); }
      if r == Err(Interrupted) { WriteAllKeepsWilling(c1, buf); }
    }
  }

  lemma {:induction false} ReadKeepsStream(c: Conn, n: nat)
    ensures Stream(c.Read(n).0) == Stream(c)
    ensures Calm(c.rx) ==> Calm(c.Read(n).0.rx)
  {
    if n > 0 && c.rx != [] && c.rx[0].Chunk? && |c.rx[0].data| > n {
      var data, c' := c.rx[0].data, c.Read(n).0;
      assert c'.rx[1..] == c.rx[1..];
      assert data[..n] + data[n..] == data;
    }
  }

  lemma {:induction false} ReadExactKeepsStream(c: Conn, n: nat)
    ensures Stream(c.ReadExact(n).0) == Stream(c)
    ensures Calm(c.rx) ==> Calm(c.ReadExact(n).0.rx)
    decreases n + |c.rx|
  {
    if n > 0 {
      ReadKeepsStream(c, n);
      var (c1, r) := c.Read(n);
      if r.Ok? && r.value != [] { ReadExactKeepsStream(c1, n - |r.value|); }
      if r == Err(Interrupted) { ReadExactKeepsStream(c1, n); }
    }
  }
}
