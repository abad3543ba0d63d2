/** The tunnel code as it updates its objects: `stream`, `Manager` and the bodies of the two
    relay loops. Every method is proved against the functions of TunnelStream. */
module TunnelManager {
  import opened Basics
  import opened TunnelStream

  /** What may happen to a stream while takeCredit waits on its condition variable. */
  datatype Wake = Granted(n: nat) | Aborted

  /** What abort does to a stream. */
  function AbortedEnd(e: End): End {
    e.(life := e.life.(done := true, connClosed := e.life.connClosed || !e.life.done))
  }

  /** What another goroutine does to the stream: a grant is a delivery of the network model, an
      abort its two sections. */
  function WokenBy(e: End, w: Wake): End {
    match w
    case Granted(n) => Receive(e, Window(n), false).0
    case Aborted => AbortedEnd(e)
  }

  /** The stream after the other goroutines have done their part. */
  function Woken(e: End, wakes: seq<Wake>): End
    decreases |wakes|
  {
    if wakes == [] then e else WokenBy(Woken(e, wakes[..|wakes| - 1]), wakes[|wakes| - 1])
  }

  /** The bytes granted while the reader waits. */
  function GrantedIn(wakes: seq<Wake>): nat
    decreases |wakes|
  {
    if wakes == [] then 0
    else GrantedIn(wakes[..|wakes| - 1]) + (if wakes[|wakes| - 1].Granted? then wakes[|wakes| - 1].n else 0)
  }

  /** Grants add up to the credit, one byte for one byte, and nothing else of the sender's side
      changes. */
  lemma {:induction false} WokenKeepsOutbound(e: End, wakes: seq<Wake>)
    requires e.life.registered
    ensures var w := Woken(e, wakes);
            && w.outbound == e.outbound.(credit := e.outbound.credit + GrantedIn(wakes))
            && w.inbound == e.inbound && w.fc == e.fc
            && w.life == e.life.(done := w.life.done, connClosed := w.life.connClosed)
            && (w.life.done <==> e.life.done || Aborted in wakes)
    decreases |wakes|
  {
    if wakes != [] {
      var n := |wakes| - 1;
      WokenKeepsOutbound(e, wakes[..n]);
      assert wakes == wakes[..n] + [wakes[n]];
    }
  }

  lemma WokenOnce(e: End, wakes: seq<Wake>, k: nat)
    requires k < |wakes|
    ensures Woken(e, wakes[..k + 1]) == WokenBy(Woken(e, wakes[..k]), wakes[k])
    ensures GrantedIn(wakes[..k + 1]) == GrantedIn(wakes[..k]) + if wakes[k].Granted? then wakes[k].n else 0
  {
    assert wakes[..k + 1][..k] == wakes[..k];
  }

  /** The reader is still blocked: its TakeCredit section cannot run. */
  predicate Waits(e: End, wakes: seq<Wake>) {
    !CanRead(Woken(e, wakes).outbound, true, Woken(e, wakes).life, TakeCredit)
  }

  class Stream {
    const tunnelID: string
    const streamID: string
    var fc: bool
    var sendCredit: int
    var inbox: seq<Chunk>
    var inboxClosed: bool
    var readDone: bool
    var writeDone: bool
    var done: bool
    var ready: bool
    var failed: bool

    // The local connection.
    var unread: seq<byte>
    var written: seq<byte>
    var halfClosed: bool
    var connClosed: bool

    // Where the three goroutines are, and what the reader has taken in.
    ghost var reader: Reader
    ghost var writer: Writer
    ghost var taken: seq<byte>
    ghost var closeSent: bool
    ghost var resetting: bool

    ghost function View(registered: bool): End
      reads this
    {
      End(fc,
          Outbound(unread, taken, reader, sendCredit, closeSent, readDone),
          Inbound(inbox, inboxClosed, writer, written, halfClosed, writeDone),
          Life(done, connClosed, registered, resetting))
    }

    constructor (tunnelID: string, streamID: string, fc: bool, input: seq<byte>)
      ensures View(true) == NewEnd(fc, input)
      ensures this.tunnelID == tunnelID && this.streamID == streamID && !ready && !failed
    {
      this.tunnelID, this.streamID, this.fc := tunnelID, streamID, fc;
      sendCredit, inbox, inboxClosed, readDone, writeDone := WINDOW_SIZE, [], false, false, false;
      done, ready, failed := false, false, false;
      unread, written, halfClosed, connClosed := input, [], false, false;
      reader, writer, taken, closeSent, resetting := AwaitCredit, AwaitChunk, [], false, false;
    }

    /** takeCredit: `wakes` is what the other goroutines do while it waits. It returns as soon
        as there is credit or the stream is closed, and is still blocked otherwise. What it
        leaves is what the wake-ups leave in the network model, and, when it returns, what the
        reader's TakeCredit section makes of that; no byte of credit is lost or made up. */
    method TakeCredit(max: nat, wakes: seq<Wake>) returns (n: nat, k: nat, blocked: bool)
      requires reader.AwaitCredit?
      modifies this`sendCredit, this`done, this`connClosed, this`reader
      ensures k <= |wakes|
      ensures forall j :: 0 <= j < k ==> Waits(old(View(true)), wakes[..j])
      ensures blocked <==> k == |wakes| && Waits(old(View(true)), wakes)
      ensures sendCredit + n == old(sendCredit) + GrantedIn(wakes[..k])
      ensures n <= max && (n > 0 ==> sendCredit >= 0)
      ensures !blocked && n < max ==> sendCredit == 0 || done
      ensures done ==> n == 0
      ensures View(true) == Woken(old(View(true)), wakes[..k]).(outbound := View(true).outbound)
      ensures blocked ==> View(true) == Woken(old(View(true)), wakes)
      ensures max == RELAY_BUF_SIZE && !blocked ==>
                var e := Woken(old(View(true)), wakes[..k]);
                CanRead(e.outbound, true, e.life, TunnelStream.TakeCredit)
                && View(true).outbound == RunReader(e.outbound, true, e.life, TunnelStream.TakeCredit).0
    {
      k := 0;
      ghost var start := View(true);
      while sendCredit <= 0
        invariant k <= |wakes|
        invariant View(true) == Woken(start, wakes[..k]) && (k == |wakes| ==> wakes[..k] == wakes)
        invariant sendCredit == old(sendCredit) + GrantedIn(wakes[..k])
        invariant reader == old(reader)
        invariant forall j :: 0 <= j < k ==> Waits(start, wakes[..j])
        decreases |wakes| - k
      {
        if done {
          reader := ReaderGone;
          return 0, k, false;
        }
        if k == |wakes| {
          return 0, k, true;
        }
        assert Waits(start, wakes[..k]);
        WokenOnce(start, wakes, k);
        Awaken(wakes[k]);
        k := k + 1;
      }
      if done {
        reader := ReaderGone;
        return 0, k, false;
      }
      n := sendCredit;
      if n > max {
        n := max;
      }
      sendCredit := sendCredit - n;
      reader := if n == 0 then ReaderGone else Reading(n);
      blocked := false;
    }

    /** What another goroutine does while takeCredit waits. */
    method Awaken(w: Wake)
      modifies this`sendCredit, this`done, this`connClosed
      ensures View(true) == WokenBy(old(View(true)), w)
      ensures sendCredit == old(sendCredit) + if w.Granted? then w.n else 0
    {
      match w {
        case Granted(n) => AddCredit(n);
        case Aborted => Abort();
      }
    }

    method AddCredit(n: int)
      modifies this`sendCredit
      ensures sendCredit == old(sendCredit) + n
    {
      sendCredit := sendCredit + n;
    }

    /** Both halves of abort, uninterrupted; a second call does nothing. */
    method Abort()
      modifies this`done, this`connClosed
      ensures done && connClosed == (old(connClosed) || !old(done))
      ensures View(false) == AbortedEnd(old(View(false)))
    {
      if !done {
        done := true;
        connClosed := true;
      }
    }

    method CloseInbox()
      modifies this`inboxClosed
      ensures inboxClosed
    {
      inboxClosed := true;
    }
  }

  datatype Emitted =
    | ToPeer(streamID: string, message: Message)
    | Acknowledged(streamID: string, ok: bool, fc: bool)

  /** What reaches the connection when the messages are emitted: nothing while it is down. */
  function Log(up: bool, streamID: string, out: seq<Message>): seq<Emitted> {
    if up then seq(|out|, k requires 0 <= k < |out| => ToPeer(streamID, out[k])) else []
  }

  /** `Data` run to its end: after a reset the stream is aborted and unregistered. */
  function DataToEnd(e: End, b: Chunk, drop: bool): (End, seq<Message>) {
    var (e', out) := ReceiveData(e, b, drop);
    if e'.life.resetting && !e.life.resetting then
      (e'.(life := e'.life.(done := true, connClosed := true, registered := false)), out)
    else
      (e', out)
  }

  /** markDone: the end of the second direction closes and unregisters the stream. */
  function Finish(e: End, read: bool): End {
    var e' := if read then e.(outbound := e.outbound.(readDone := true, reader := ReaderGone))
              else e.(inbound := e.inbound.(writeDone := true, writer := WriterGone));
    if e'.outbound.readDone && e'.inbound.writeDone then
      AbortedEnd(e'.(life := e'.life.(registered := false)))
    else e'
  }

  /** Sections run one after the other, with nothing in between. */
  predicate CanRunAll(e: End, sections: seq<Section>)
    decreases |sections|
  {
    sections == [] || (CanRun(e, sections[0]) && CanRunAll(Run(e, sections[0]).0, sections[1..]))
  }

  function RunAll(e: End, sections: seq<Section>): (End, seq<Message>)
    requires CanRunAll(e, sections)
    decreases |sections|
  {
    if sections == [] then (e, [])
    else
      var (e1, out1) := Run(e, sections[0]);
      var (e2, out2) := RunAll(e1, sections[1..]);
      (e2, out1 + out2)
  }

  const ABORT_AND_UNREGISTER := [ByLife(CloseDone), ByLife(CloseConn), ByLife(Unregister)]

  lemma AbortAndUnregister(e: End)
    requires !e.life.done && !e.life.connClosed && e.life.registered && MayAbort(e)
    ensures CanRunAll(e, ABORT_AND_UNREGISTER)
    ensures RunAll(e, ABORT_AND_UNREGISTER)
            == (e.(life := e.life.(done := true, connClosed := true, registered := false)), [])
  {
    var e1 := Run(e, ByLife(CloseDone)).0;
    var e2 := Run(e1, ByLife(CloseConn)).0;
    var e3 := Run(e2, ByLife(Unregister)).0;
    assert ABORT_AND_UNREGISTER[1..] == [ByLife(CloseConn), ByLife(Unregister)];
    assert ABORT_AND_UNREGISTER[1..][1..] == [ByLife(Unregister)];
    assert [ByLife(Unregister)][1..] == [];
    var none: seq<Message> := [];
    assert none + none == none;
    assert RunAll(e3, []) == (e3, none);
    assert Run(e2, [ByLife(Unregister)][0]) == (e3, none);
    assert RunAll(e2, [ByLife(Unregister)]) == (e3, none);
    assert RunAll(e1, [ByLife(CloseConn), ByLife(Unregister)]) == (e3, none);
  }

  const UNREGISTER_AND_ABORT := [ByLife(Unregister), ByLife(CloseDone), ByLife(CloseConn)]

  /** StopListener and Shutdown take a stream out of the map before they abort it. */
  lemma UnregisterAndAbort(e: End)
    requires !e.life.done && !e.life.connClosed && e.life.registered
    ensures CanRunAll(e, UNREGISTER_AND_ABORT)
    ensures RunAll(e, UNREGISTER_AND_ABORT) == (AbortedEnd(e.(life := e.life.(registered := false))), [])
  {
    var e1 := Run(e, ByLife(Unregister)).0;
    var e2 := Run(e1, ByLife(CloseDone)).0;
    var e3 := Run(e2, ByLife(CloseConn)).0;
    assert UNREGISTER_AND_ABORT[1..] == [ByLife(CloseDone), ByLife(CloseConn)];
    assert UNREGISTER_AND_ABORT[1..][1..] == [ByLife(CloseConn)];
    assert [ByLife(CloseConn)][1..] == [];
    var none: seq<Message> := [];
    assert none + none == none;
    assert RunAll(e3, []) == (e3, none);
    assert Run(e2, [ByLife(CloseConn)][0]) == (e3, none);
    assert RunAll(e2, [ByLife(CloseConn)]) == (e3, none);
    assert RunAll(e1, [ByLife(CloseDone), ByLife(CloseConn)]) == (e3, none);
  }

  /** markDone is the sections that the network model interleaves. */
  lemma FinishIsSections(e: End, read: bool)
    requires if read then e.outbound.reader.CloseSent? else e.inbound.writer.DrainSeen?
    requires !e.life.done && !e.life.connClosed && e.life.registered
    requires e.inbound.writeDone ==> e.inbound.writer.WriterGone?
    ensures var mark := if read then ByReader(MarkRead) else ByWriter(MarkWrite);
            && CanRun(e, mark)
            && var e1 := Run(e, mark).0;
               if e1.outbound.readDone && e1.inbound.writeDone then
                 CanRunAll(e1, ABORT_AND_UNREGISTER) && Finish(e, read) == RunAll(e1, ABORT_AND_UNREGISTER).0
               else Finish(e, read) == e1
  {
    var e1 := Run(e, if read then ByReader(MarkRead) else ByWriter(MarkWrite)).0;
    if e1.outbound.readDone && e1.inbound.writeDone {
      AbortAndUnregister(e1);
    }
  }

  /** `Data` run to its end is a delivery followed, after a reset, by abort and unregister. */
  lemma DataIsSections(e: End, b: Chunk, drop: bool)
    requires !e.life.resetting && !e.life.connClosed
    ensures var (e1, out) := ReceiveData(e, b, drop);
            && DataToEnd(e, b, drop).1 == out
            && (if Overflows(e) then CanRunAll(e1, ABORT_AND_UNREGISTER)
                  && DataToEnd(e, b, drop).0 == RunAll(e1, ABORT_AND_UNREGISTER).0
                else DataToEnd(e, b, drop).0 == e1)
  {
    if Overflows(e) {
      AbortAndUnregister(ReceiveData(e, b, drop).0);
    }
  }

  class Manager {
    var streams: map<string, Stream>
    var connected: bool
    var sent: seq<Emitted>

    constructor ()
      ensures streams == map[] && !connected && sent == []
    {
      streams, connected, sent := map[], false, [];
    }

    /** The stream is in the map under its own name. */
    ghost predicate Has(s: Stream)
      reads this
    {
      s.streamID in streams && streams[s.streamID] == s
    }

    ghost function ViewOf(s: Stream): End
      reads this, s
    {
      s.View(Has(s))
    }

    method SetSend(up: bool)
      modifies this`connected
      ensures connected == up
    {
      connected := up;
    }

    /** Without a connection the message is lost. */
    method Emit(m: Emitted)
      modifies this`sent
      ensures sent == if connected then old(sent) + [m] else old(sent)
    {
      if connected {
        sent := sent + [m];
      }
    }

    method Register(s: Stream)
      modifies this`streams
      ensures streams == old(streams)[s.streamID := s]
    {
      streams := streams[s.streamID := s];
    }

    method Unregister(streamID: string)
      modifies this`streams
      ensures streams == old(streams) - {streamID}
    {
      streams := streams - {streamID};
    }

    /** Data: `drop` is the choice of the select when both of its cases are ready. */
    method Data(streamID: string, b: Chunk, drop: bool)
      requires streamID in streams ==> streams[streamID].streamID == streamID && !streams[streamID].resetting
      modifies this`streams, this`sent, if streamID in streams then {streams[streamID]} else {}
      ensures streamID !in old(streams) ==> streams == old(streams) && sent == old(sent)
      ensures streamID in old(streams) ==>
                var s := old(streams)[streamID];
                var r := DataToEnd(old(s.View(true)), b, drop);
                && s.View(streamID in streams) == r.0
                && streams == (if r.0.life.registered then old(streams) else old(streams) - {streamID})
                && sent == old(sent) + Log(connected, streamID, r.1)
    {
      if streamID !in streams {
        return;
      }
      var s := streams[streamID];
      if s.inboxClosed {
        return;
      }
      if s.done && (drop || |s.inbox| >= INBOX_BUFFER) {
        return;
      }
      if |s.inbox| < INBOX_BUFFER {
        s.inbox := s.inbox + [b];
      } else {
        s.resetting := true;
        Emit(ToPeer(streamID, Close));
        s.Abort();
        Unregister(streamID);
      }
    }

    /** AddCredit. */
    method AddCredit(streamID: string, bytes: int)
      modifies if streamID in streams then {streams[streamID]} else {}
      ensures streamID in streams ==>
                streams[streamID].View(true) == ReceiveWindow(old(streams[streamID].View(true)), bytes)
    {
      if streamID !in streams || bytes <= 0 {
        return;
      }
      streams[streamID].AddCredit(bytes);
    }

    /** CloseStream: the stream stays in the map. */
    method CloseStream(streamID: string)
      modifies if streamID in streams then {streams[streamID]} else {}
      ensures streamID in streams ==>
                streams[streamID].View(true) == ReceiveClose(old(streams[streamID].View(true)))
    {
      if streamID in streams {
        streams[streamID].CloseInbox();
      }
    }

    /** Ack at the source: the flow-control flag is adopted before the relay may start. */
    method Ack(streamID: string, ok: bool, peerFC: bool)
      modifies if streamID in streams then {streams[streamID]} else {}
      ensures streamID in streams ==>
                var s := streams[streamID];
                && s.ready == (old(s.ready) || ok) && s.failed == (old(s.failed) || !ok)
                && s.View(true) == old(s.View(true)).(fc := if ok then peerFC else old(s.fc))
    {
      if streamID !in streams {
        return;
      }
      var s := streams[streamID];
      if ok {
        s.fc := peerFC;
        s.ready := true;
      } else {
        s.failed := true;
      }
    }

    /** OpenDest: `dialed` says whether the dial succeeded, `input` what the target will send. */
    method OpenDest(tunnelID: string, streamID: string, peerFC: bool, dialed: bool, input: seq<byte>)
        returns (s: Stream)
      modifies this`streams, this`sent
      ensures fresh(s) && s.streamID == streamID && s.View(true) == NewEnd(peerFC, input)
      ensures streams == if dialed then old(streams)[streamID := s] else old(streams) - {streamID}
      ensures sent == old(sent) + (if connected then [Acknowledged(streamID, dialed, dialed && peerFC)] else [])
    {
      s := new Stream(tunnelID, streamID, peerFC, input);
      Register(s);
      if !dialed {
        Emit(Acknowledged(streamID, false, false));
        Unregister(streamID);
        assert streams == old(streams) - {streamID};
        return;
      }
      Emit(Acknowledged(streamID, true, peerFC));
    }

    /** markDone. */
    method MarkDone(s: Stream, read: bool)
      modifies this`streams, s
      ensures ViewOf(s) == Finish(old(ViewOf(s)), read)
      ensures streams == if s.readDone && s.writeDone then old(streams) - {s.streamID} else old(streams)
    {
      if read {
        s.readDone := true;
        s.reader := ReaderGone;
      } else {
        s.writeDone := true;
        s.writer := WriterGone;
      }
      var both := s.readDone && s.writeDone;
      if both {
        s.Abort();
        Unregister(s.streamID);
      }
    }

    /** One uninterrupted turn of the writer loop on a chunk: take, write, grant. */
    method WriterTurn(s: Stream)
      requires s.writer.AwaitChunk? && s.inbox != [] && !s.connClosed
      modifies this`sent, s
      ensures var e := old(ViewOf(s));
              var e1 := RunWriter(e.inbound, e.fc, e.life, TakeChunk).0;
              var e2 := RunWriter(e1, e.fc, e.life, WriteChunk).0;
              var (e3, out) := if e.fc then RunWriter(e2, e.fc, e.life, Grant) else (e2, []);
              ViewOf(s) == e.(inbound := e3) && sent == old(sent) + Log(connected, s.streamID, out)
      ensures s.written == old(s.written) + old(s.inbox[0]) && s.inbox == old(s.inbox)[1..]
    {
      var b := s.inbox[0];
      s.inbox := s.inbox[1..];
      s.written := s.written + b;
      if s.fc {
        Emit(ToPeer(s.streamID, Window(|b|)));
      }
    }

    /** The writer's turn when the connection fails after k bytes: the stream is aborted. */
    method WriterFails(s: Stream, k: nat)
      requires s.writer.AwaitChunk? && s.inbox != [] && k <= |s.inbox[0]| && (s.connClosed ==> k == 0)
      modifies this`streams, s
      ensures var e := old(ViewOf(s));
              var e1 := RunWriter(e.inbound, e.fc, e.life, TakeChunk).0;
              var e2 := RunWriter(e1, e.fc, e.life, WriteFail(k)).0;
              ViewOf(s) == AbortedEnd(e.(inbound := e2, life := e.life.(registered := false)))
      ensures s.written == old(s.written) + old(s.inbox[0])[..k] && s.done
      ensures streams == old(streams) - {s.streamID}
    {
      var b := s.inbox[0];
      s.inbox := s.inbox[1..];
      s.written := s.written + b[..k];
      s.writer := WriterGone;
      s.Abort();
      Unregister(s.streamID);
    }

    /** The writer loop's last turn: the inbox is closed and drained. */
    method WriterEnd(s: Stream)
      requires s.writer.AwaitChunk? && s.inbox == [] && s.inboxClosed
      modifies this`streams, s
      ensures var e := old(ViewOf(s));
              ViewOf(s)
              == Finish(e.(inbound := RunWriter(e.inbound, e.fc, e.life, SeeDrained).0), false)
    {
      if !s.connClosed {
        s.halfClosed := true;
      }
      s.writer := DrainSeen;
      MarkDone(s, false);
    }

    /** The reader's turn when the connection yields n > 0 bytes: emit them and return the
        unused credit. */
    method ReaderTakes(s: Stream, budget: nat, n: nat, last: bool)
      requires s.reader == Reading(budget) && CanRead(ViewOf(s).outbound, s.fc, ViewOf(s).life, Read(n, last))
      modifies this`sent, s
      ensures var e := old(ViewOf(s));
              var (o, out) := RunReader(e.outbound, e.fc, e.life, Read(n, last));
              && ViewOf(s) == e.(outbound := RunReader(o, e.fc, e.life, Refund).0)
              && sent == old(sent) + Log(connected, s.streamID, out)
      ensures s.taken == old(s.taken) + old(s.unread)[..n] && s.unread == old(s.unread)[n..]
      ensures s.sendCredit + n == old(s.sendCredit) + if s.fc then budget else n
    {
      var chunk := s.unread[..n];
      s.unread := s.unread[n..];
      s.taken := s.taken + chunk;
      Emit(ToPeer(s.streamID, TunnelStream.Data(chunk)));
      if s.fc {
        var rem := budget - n;
        if rem > 0 {
          s.AddCredit(rem);
        }
      }
      s.reader := if last then SendingClose else AwaitCredit;
    }

    /** The reader's last turn: emit tunnel_close and end this direction. */
    method ReaderCloses(s: Stream)
      requires s.reader.SendingClose?
      modifies this`streams, this`sent, s
      ensures var e := old(ViewOf(s));
              var (o, out) := RunReader(e.outbound, e.fc, e.life, SendClose);
              && ViewOf(s) == Finish(e.(outbound := o), true)
              && sent == old(sent) + Log(connected, s.streamID, out)
    {
      s.closeSent := true;
      Emit(ToPeer(s.streamID, Close));
      s.reader := CloseSent;
      MarkDone(s, true);
    }

    /** StopListener: every stream of the tunnel leaves the map and is aborted. */
    method StopListener(tunnelID: string)
      modifies this`streams, streams.Values
      ensures streams == map id | id in old(streams) && old(streams)[id].tunnelID != tunnelID :: old(streams)[id]
      ensures forall id :: id in old(streams) && old(streams)[id].tunnelID == tunnelID ==>
                var s := old(streams)[id];
                s.View(false) == AbortedEnd(old(s.View(false)))
      ensures forall id :: id in old(streams) && old(streams)[id].tunnelID != tunnelID ==> unchanged(old(streams)[id])
    {
      var victims := set id | id in streams && streams[id].tunnelID == tunnelID :: streams[id];
      streams := map id | id in streams && streams[id].tunnelID != tunnelID :: streams[id];
      AbortAll(victims);
    }

    /** Shutdown: every stream leaves the map and is aborted. */
    method Shutdown()
      modifies this`streams, streams.Values
      ensures streams == map[]
      ensures forall id :: id in old(streams) ==>
                var s := old(streams)[id];
                s.View(false) == AbortedEnd(old(s.View(false)))
    {
      var victims := streams.Values;
      streams := map[];
      AbortAll(victims);
    }

    method AbortAll(victims: set<Stream>)
      modifies victims
      ensures forall s :: s in victims ==> s.View(false) == AbortedEnd(old(s.View(false)))
    {
      var todo := victims;
      while todo != {}
        invariant todo <= victims
        invariant forall s :: s in todo ==> s.View(false) == old(s.View(false))
        invariant forall s :: s in victims - todo ==> s.View(false) == AbortedEnd(old(s.View(false)))
        decreases todo
      {
        var s :| s in todo;
        s.Abort();
        todo := todo - {s};
      }
    }
  }
}
