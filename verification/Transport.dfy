/** The reactor transport (`NetTransport`): a session driven by I/O readiness events, with a write
    buffer and a write-intent flag. The functions say what each operation makes of the
    transport; the class in module `Resource` performs the operations in place. */
module Transports {
  import opened Io
  import opened Machines
  import opened Session

  datatype State = Init | Handshake | Active | Terminated

  datatype Ready = ReadReady | WriteReady

  datatype Event = EstablishedWith(artifact: Artifact) | Data(data: Bytes) | TerminatedBy(reason: ErrorKind)

  datatype Interest = Interest(read: bool, write: bool)

  datatype Transport = Transport(state: State, session: Tower, writeIntent: bool, writeBuffer: Bytes)

  function Accept(session: Tower): Transport {
    Transport(Handshake, session, false, [])
  }

  function WithSession(session: Tower): Transport {
    Transport(if Established(session) then Active else Handshake, session, true, [])
  }

  function Interests(tr: Transport): Interest {
    match tr.state
    case Init => Interest(false, true)
    case Terminated => Interest(false, false)
    case _ => Interest(true, tr.writeIntent)
  }

  /** `flush_buffer`: offers the whole buffer to the session once; retryable errors accept nothing. */
  function FlushBuffer(tr: Transport): (r: (Transport, Result<()>))
    ensures r.0.state == tr.state
  {
    var (session', put) := Write(tr.session, tr.writeBuffer);
    if put.Err? && !Retryable(put.error) then (tr.(session := session'), Err(put.error))
    else
      var len := if put.Ok? then put.value else 0;
      (tr.(session := session', writeIntent := |tr.writeBuffer| > len, writeBuffer := tr.writeBuffer[len..]), Ok(()))
  }

  function Flush(tr: Transport): (r: (Transport, Result<()>))
    ensures r.0.state == tr.state
  {
    var (tr1, res) := FlushBuffer(tr);
    var (session', flushed) := Session.Flush(tr1.session);
    (tr1.(session := session'), if flushed.Ok? then res else flushed)
  }

  function HandleWritable(tr: Transport): (Transport, Option<Event>) {
    if !Established(tr.session) then
      (tr.(session := Write(tr.session, []).0, writeIntent := true), None)
    else
      var (tr1, res) := Flush(tr);
      if res.Ok? then (tr1, None)
      else if Retryable(res.error) then (tr1.(writeIntent := true), None)
      else (tr1.(state := Terminated), Some(TerminatedBy(res.error)))
  }

  function HandleReadable(tr: Transport): (Transport, Option<Event>) {
    var (session', got) := Read(tr.session, READ_BUFFER_SIZE);
    var tr1 := tr.(session := session');
    match got
    case Ok(data) =>
      if data == [] then (tr1, if Established(session') then Some(TerminatedBy(ConnectionReset)) else None)
      else (tr1, Some(Data(data)))
    case Err(e) =>
      if e == WouldBlock then (tr1, None) else (tr1.(state := Terminated), Some(TerminatedBy(e)))
  }

  function HandleIo(tr: Transport, io: Ready): (Transport, Option<Event>) {
    var connecting := tr.state == Init;
    var tr0 := if connecting then tr.(state := Handshake) else tr;
    var (tr1, resp) := if io.ReadReady? then HandleReadable(tr0) else HandleWritable(tr0);
    Conclude(tr1, resp, io, connecting)
  }

  /** The second half of `handle_io`: what becomes of the intent, the state and the response. */
  function Conclude(tr1: Transport, resp: Option<Event>, io: Ready, connecting: bool): (Transport, Option<Event>) {
    var tr2 :=
      if connecting then tr1.(writeIntent := true)
      else if tr1.state == Handshake then tr1.(writeIntent := io.ReadReady?)
      else tr1;
    if resp == Some(TerminatedBy(ConnectionReset)) && tr2.state != Handshake then
      (tr2.(state := Terminated), resp)
    else if Established(tr2.session) && tr2.state == Handshake then
      (tr2.(state := Active, writeIntent := true), Some(EstablishedWith(ArtifactOf(tr2.session).value)))
    else (tr2, resp)
  }

  /** `empty_write_buf`. */
  function EmptyWriteBuf(tr: Transport): (Transport, Result<bool>) {
    var (session', put) := Write(tr.session, tr.writeBuffer);
    var tr1 := tr.(session := session');
    if put.Err? then (tr1, Err(put.error))
    else
      var rest := tr.writeBuffer[put.value..];
      (tr1.(writeBuffer := rest), if rest != [] then Err(WouldBlock) else Ok(put.value > 0))
  }

  /** `write_or_buf`. */
  function WriteOrBuf(tr: Transport, buf: Bytes): (Transport, Result<()>) {
    if buf == [] then (tr, Ok(())) else FlushBuffer(tr.(writeBuffer := tr.writeBuffer + buf))
  }

  datatype Unwrapped = Unwrapped(session: Tower) | Kept(transport: Transport, error: ErrorKind)

  function IntoSession(tr: Transport): Unwrapped {
    var (tr1, r) := EmptyWriteBuf(tr);
    if r.Err? then Kept(tr1, r.error) else Unwrapped(tr1.session)
  }
}
