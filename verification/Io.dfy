/** Bytes, I/O results and error kinds shared by every other module. */
module Io {

  newtype byte = b: int | 0 <= b < 256

  type Bytes = seq<byte>

  /** The size of every read buffer. */
  const READ_BUFFER_SIZE: nat := 65535

  datatype Option<+T> = None | Some(value: T)

  /** The `io::ErrorKind`s the code distinguishes; every other kind is `Other`. */
  datatype ErrorKind =
    | WouldBlock
    | Interrupted
    | WriteZero
    | OutOfMemory
    | ConnectionReset
    | ConnectionAborted
    | UnexpectedEof
    | TimedOut
    | BrokenPipe
    | Other(code: int)

  datatype Result<+T> = Ok(value: T) | Err(error: ErrorKind)

  /** The errors after which a write is simply retried later. */
  predicate Retryable(e: ErrorKind) {
    e in {WouldBlock, OutOfMemory, WriteZero, Interrupted}
  }

  function Concat(parts: seq<Bytes>): Bytes {
    if parts == [] then [] else parts[0] + Concat(parts[1..])
  }

  lemma {:induction false} ConcatAppend(a: seq<Bytes>, b: seq<Bytes>)
    ensures Concat(a + b) == Concat(a) + Concat(b)
  {
    if a == [] {
      assert a + b == b;
    } else {
      assert (a + b)[1..] == a[1..] + b;
      ConcatAppend(a[1..], b);
    }
  }

  lemma {:induction false} ConcatPush(a: seq<Bytes>, x: Bytes)
    ensures Concat(a + [x]) == Concat(a) + x
  {
    ConcatAppend(a, [x]);
    assert Concat([x]) == x;
  }
}
