/** One end of a tunnelled TCP connection, as the value that one atomic section of the
    tunnel code reads and writes (internal/tunnel/tunnel.go).

    Three goroutines share a stream: the reader (local connection to peer), the writer
    (peer to local connection) and the dispatcher that handles the peer's messages.
    Every function below is what one of them does between two points at which another
    goroutine may run. TunnelManager proves the class methods against these functions;
    TunnelNetwork lets them interleave. */
module TunnelStream {
  import opened Basics

  // windowSize, relayBufSize and inboxBuffer
  const WINDOW_SIZE: nat := 256 * 1024
  const RELAY_BUF_SIZE: nat := 32 * 1024
  const INBOX_BUFFER: nat := 2048

  type Chunk = seq<byte>

  /** tunnel_data, tunnel_close and tunnel_window. */
  datatype Message =
    | Data(bytes: Chunk)
    | Close
    | Window(count: nat)

  /** Where the reader loop of `relay` is. */
  datatype Reader =
    | AwaitCredit                            // at the top of the loop
    | Reading(budget: nat)                   // may read up to budget bytes
    | Refunding(unused: nat, last: bool)     // data emitted; unused credit still held
    | SendingClose                           // Read failed; tunnel_close not emitted yet
    | CloseSent                              // tunnel_close emitted; markDone pending
    | ReaderGone

  /** Where the writer loop of `relay` is. */
  datatype Writer =
    | AwaitChunk                             // in the select
    | Writing(chunk: Chunk)                  // chunk taken from the inbox
    | Granting(count: nat)                   // chunk written; tunnel_window not emitted yet
    | DrainSeen                              // inbox closed and empty; markDone pending
    | WriterGone

  /** Local connection to peer. `unread` is what the connection will still yield, `taken` what
      the reader has read and emitted; `closeSent` records that it emitted its tunnel_close. */
  datatype Outbound = Outbound(
    unread: seq<byte>,
    taken: seq<byte>,
    reader: Reader,
    credit: int,
    closeSent: bool,
    readDone: bool)

  /** Peer to local connection. `written` is what the connection has received; `halfClosed`
      records that its write side was closed in order. */
  datatype Inbound = Inbound(
    inbox: seq<Chunk>,
    inboxClosed: bool,
    writer: Writer,
    written: seq<byte>,
    halfClosed: bool,
    writeDone: bool)

  /** `done` and `connClosed` are the two halves of `abort`; `registered` is membership in
      the manager's map; `resetting` records that `Data` met a full inbox. */
  datatype Life = Life(done: bool, connClosed: bool, registered: bool, resetting: bool)

  /** A stream together with its local connection. */
  datatype End = End(fc: bool, outbound: Outbound, inbound: Inbound, life: Life)

  /** A registered stream with the full window, at the start of `relay`. */
  function NewEnd(fc: bool, input: seq<byte>): End {
    End(fc,
        Outbound(input, [], AwaitCredit, WINDOW_SIZE, false, false),
        Inbound([], false, AwaitChunk, [], false, false),
        Life(false, false, true, false))
  }

  /** The atomic sections of the reader goroutine. */
  datatype ReaderStep =
    | TakeCredit
    | Read(n: nat, last: bool)   // n > 0 bytes; last: the same call also reported an error
    | ReadEnd                    // no bytes and an error (EOF included)
    | Refund
    | SendClose
    | MarkRead

  /** The atomic sections of the writer goroutine. */
  datatype WriterStep =
    | TakeChunk
    | WriteChunk
    | WriteFail(k: nat)          // only the first k bytes reached the connection
    | Grant
    | SeeDrained
    | MarkWrite
    | WriterQuit                 // the select saw `done`

  /** The two halves of `abort`, and `unregister`. */
  datatype LifeStep =
    | CloseDone
    | CloseConn
    | Unregister

  datatype Section =
    | ByReader(r: ReaderStep)
    | ByWriter(w: WriterStep)
    | ByLife(l: LifeStep)

  function Min(a: int, b: int): int {
    if a <= b then a else b
  }

  /** What takeCredit(max) reserves once it no longer waits: 0 when the stream is closed. */
  function Reserve(o: Outbound, done: bool, max: nat): nat {
    if done || o.credit < 0 then 0 else Min(o.credit, max)
  }

  /** The reader is blocked in takeCredit while there is no credit and the stream is open;
      a closed connection yields no byte. */
  predicate CanRead(o: Outbound, fc: bool, life: Life, s: ReaderStep) {
    match s
    case TakeCredit => o.reader.AwaitCredit? && (!fc || o.credit > 0 || life.done)
    case Read(n, last) => o.reader.Reading? && 0 < n <= o.reader.budget && n <= |o.unread| && !life.connClosed
    case ReadEnd => o.reader.Reading?
    case Refund => o.reader.Refunding?
    case SendClose => o.reader.SendingClose?
    case MarkRead => o.reader.CloseSent?
  }

  /** The reader's side after the section, and what it emits to the peer. */
  function RunReader(o: Outbound, fc: bool, life: Life, s: ReaderStep): (Outbound, seq<Message>)
    requires CanRead(o, fc, life, s)
  {
    match s
    case TakeCredit =>
      if !fc then
        (o.(reader := Reading(RELAY_BUF_SIZE)), [])
      else
        var n := Reserve(o, life.done, RELAY_BUF_SIZE);
        if n == 0 then (o.(reader := ReaderGone), [])
        else (o.(reader := Reading(n), credit := o.credit - n), [])
    case Read(n, last) =>
      var chunk := o.unread[..n];
      (o.(unread := o.unread[n..], taken := o.taken + chunk,
          reader := Refunding(if fc then o.reader.budget - n else 0, last)), [Data(chunk)])
    case ReadEnd => (o.(reader := SendingClose), [])
    case Refund =>
      (o.(credit := o.credit + o.reader.unused,
          reader := if o.reader.last then SendingClose else AwaitCredit), [])
    case SendClose => (o.(reader := CloseSent, closeSent := true), [Close])
    case MarkRead => (o.(reader := ReaderGone, readDone := true), [])
  }

  predicate CanWrite(i: Inbound, life: Life, s: WriterStep) {
    match s
    case TakeChunk => i.writer.AwaitChunk? && i.inbox != []
    case WriteChunk => i.writer.Writing? && !life.connClosed
    case WriteFail(k) => i.writer.Writing? && k <= |i.writer.chunk| && (life.connClosed ==> k == 0)
    case Grant => i.writer.Granting?
    case SeeDrained => i.writer.AwaitChunk? && i.inbox == [] && i.inboxClosed
    case MarkWrite => i.writer.DrainSeen?
    case WriterQuit => i.writer.AwaitChunk? && life.done
  }

  /** The writer's side after the section, and what it emits to the peer. */
  function RunWriter(i: Inbound, fc: bool, life: Life, s: WriterStep): (Inbound, seq<Message>)
    requires CanWrite(i, life, s)
  {
    match s
    case TakeChunk => (i.(writer := Writing(i.inbox[0]), inbox := i.inbox[1..]), [])
    case WriteChunk =>
      (i.(written := i.written + i.writer.chunk,
          writer := if fc then Granting(|i.writer.chunk|) else AwaitChunk), [])
    case WriteFail(k) => (i.(written := i.written + i.writer.chunk[..k], writer := WriterGone), [])
    case Grant => (i.(writer := AwaitChunk), [Window(i.writer.count)])
    case SeeDrained => (i.(halfClosed := i.halfClosed || !life.connClosed, writer := DrainSeen), [])
    case MarkWrite => (i.(writer := WriterGone, writeDone := true), [])
    case WriterQuit => (i.(writer := WriterGone), [])
  }

  predicate CanLive(life: Life, s: LifeStep) {
    match s
    case CloseDone => !life.done
    case CloseConn => life.done && !life.connClosed
    case Unregister => life.registered
  }

  function RunLife(life: Life, s: LifeStep): Life
    requires CanLive(life, s)
  {
    match s
    case CloseDone => life.(done := true)
    case CloseConn => life.(connClosed := true)
    case Unregister => life.(registered := false)
  }

  /** Who calls abort: StopListener and Shutdown, which have taken the stream out of the map;
      `Data`, when it resets; the writer, after a failed write; and markDone, once both
      directions have ended. */
  predicate MayAbort(e: End) {
    || !e.life.registered
    || e.life.resetting
    || (e.inbound.writer.WriterGone? && (e.inbound.writeDone ==> e.outbound.readDone))
  }

  predicate CanRun(e: End, s: Section) {
    match s
    case ByReader(r) => CanRead(e.outbound, e.fc, e.life, r)
    case ByWriter(w) => CanWrite(e.inbound, e.life, w)
    case ByLife(l) => CanLive(e.life, l) && (l.CloseDone? ==> MayAbort(e))
  }

  /** The stream after the section, and the messages it emits to the peer. */
  function Run(e: End, s: Section): (End, seq<Message>)
    requires CanRun(e, s)
  {
    match s
    case ByReader(r) => var (o, out) := RunReader(e.outbound, e.fc, e.life, r); (e.(outbound := o), out)
    case ByWriter(w) => var (i, out) := RunWriter(e.inbound, e.fc, e.life, w); (e.(inbound := i), out)
    case ByLife(l) => (e.(life := RunLife(e.life, l)), [])
  }

  /** Whether `Data` meets a full inbox of an open stream. */
  predicate Overflows(e: End) {
    e.life.registered && !e.inbound.inboxClosed && !e.life.done && |e.inbound.inbox| >= INBOX_BUFFER
  }

  /** Whether the select of `Data` can take, or must take, its `done` case. */
  predicate Drops(e: End, drop: bool) {
    e.life.done && (drop || |e.inbound.inbox| >= INBOX_BUFFER)
  }

  /** `Data`: `drop` is the select's choice when both of its cases are ready. */
  function ReceiveData(e: End, b: Chunk, drop: bool): (End, seq<Message>) {
    if !e.life.registered || e.inbound.inboxClosed || Drops(e, drop) then
      (e, [])
    else if |e.inbound.inbox| < INBOX_BUFFER then
      (e.(inbound := e.inbound.(inbox := e.inbound.inbox + [b])), [])
    else
      (e.(life := e.life.(resetting := true)), [Close])
  }

  /** `CloseStream`. */
  function ReceiveClose(e: End): End {
    if e.life.registered then e.(inbound := e.inbound.(inboxClosed := true)) else e
  }

  /** `AddCredit`. */
  function ReceiveWindow(e: End, n: int): End {
    if e.life.registered && n > 0 then e.(outbound := e.outbound.(credit := e.outbound.credit + n)) else e
  }

  function Receive(e: End, m: Message, drop: bool): (End, seq<Message>) {
    match m
    case Data(b) => ReceiveData(e, b, drop)
    case Close => (ReceiveClose(e), [])
    case Window(n) => (ReceiveWindow(e, n), [])
  }

  /** The dispatcher is inside the reset branch of `Data` until it has unregistered the stream. */
  predicate CanReceive(e: End) {
    !(e.life.resetting && e.life.registered)
  }
}
