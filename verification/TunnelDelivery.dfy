/** What reaches the local connection is what the opposite reader took in, in order. */
module TunnelDelivery {
  import opened Basics
  import opened TunnelStream
  import opened TunnelNetwork

  /** No further byte can be written to the connection. */
  predicate Frozen(i: Inbound, life: Life) {
    life.connClosed || i.writer.WriterGone?
  }

  /** A chunk that arrives now is put into the inbox (or the dispatcher is busy resetting). */
  predicate Accepting(i: Inbound, life: Life) {
    life.registered && !i.inboxClosed && !life.resetting
  }

  /** One direction: `taken` by one reader, `q` in transit, `i` and `life` of the other end.
      While that end accepts data, what it has accepted and what is in transit are exactly
      what was taken; afterwards what it has accepted is a prefix. */
  ghost predicate StreamInv(taken: seq<byte>, q: seq<Message>, i: Inbound, life: Life) {
    if Frozen(i, life) then i.written <= taken
    else if Accepting(i, life) then Landed(i) + DataOf(q) == taken
    else Landed(i) <= taken
  }

  /** Until its connection is closed, an aborted stream that is still registered takes no
      chunk: its dispatcher is busy resetting it, or its writer has gone. */
  predicate AbortInv(e: End) {
    e.life.done && e.life.registered && !e.life.connClosed ==> e.life.resetting || e.inbound.writer.WriterGone?
  }

  ghost predicate Inv(s: Net) {
    && AbortInv(s.left) && AbortInv(s.right)
    && StreamInv(s.left.outbound.taken, s.toRight, s.right.inbound, s.right.life)
    && StreamInv(s.right.outbound.taken, s.toLeft, s.left.inbound, s.left.life)
  }

  /** A message without data changes nothing. */
  lemma SenderQuiet(taken: seq<byte>, q: seq<Message>, out: seq<Message>, i: Inbound, life: Life)
    requires StreamInv(taken, q, i, life)
    requires out == [] || (|out| == 1 && !out[0].Data?)
    ensures StreamInv(taken, q + out, i, life)
  {
    if out == [] {
      assert q + out == q;
    } else {
      assert out == [out[0]];
      QueueAppend(q, out[0]);
      assert DataOf(q) + [] == DataOf(q);
    }
  }

  /** The sender takes in a chunk and emits it. */
  lemma SenderTakes(taken: seq<byte>, q: seq<Message>, c: Chunk, i: Inbound, life: Life)
    requires StreamInv(taken, q, i, life)
    ensures StreamInv(taken + c, q + [Data(c)], i, life)
  {
    QueueAppend(q, Data(c));
    if Frozen(i, life) {
      PrefixExtends(i.written, taken, c);
    } else if Accepting(i, life) {
      Assoc(Landed(i), DataOf(q), c);
    } else {
      PrefixExtends(Landed(i), taken, c);
    }
  }

  lemma LandedMoves(i: Inbound, fc: bool, life: Life, s: WriterStep)
    requires CanWrite(i, life, s) && !s.WriteFail?
    ensures Landed(RunWriter(i, fc, life, s).0) == Landed(i)
  {
    var j := RunWriter(i, fc, life, s).0;
    match s {
      case TakeChunk => assert InHand(i) + Flat(i.inbox) == InHand(j) + Flat(j.inbox);
      case WriteChunk =>
        Assoc(i.written, InHand(i), Flat(i.inbox));
        assert [] + Flat(i.inbox) == Flat(i.inbox);
      case _ =>
    }
  }

  lemma WrittenLands(i: Inbound)
    ensures i.written <= Landed(i)
  {
    PrefixExtends(i.written, i.written, InHand(i) + Flat(i.inbox));
  }

  lemma PartialWriteLands(i: Inbound, k: nat)
    requires i.writer.Writing? && k <= |i.writer.chunk|
    ensures i.written + i.writer.chunk[..k] <= Landed(i)
  {
    var c := i.writer.chunk;
    assert c == c[..k] + c[k..];
    Assoc(c[..k], c[k..], Flat(i.inbox));
    Assoc(i.written, c[..k], c[k..] + Flat(i.inbox));
    PrefixExtends(i.written + c[..k], i.written + c[..k], c[k..] + Flat(i.inbox));
  }

  lemma PrefixTrans(a: seq<byte>, b: seq<byte>, c: seq<byte>)
    requires a <= b <= c
    ensures a <= c
  {
  }

  lemma LandedIsPrefix(taken: seq<byte>, q: seq<Message>, i: Inbound, life: Life)
    requires StreamInv(taken, q, i, life) && !Frozen(i, life)
    ensures Landed(i) <= taken
  {
    if Accepting(i, life) {
      PrefixExtends(Landed(i), Landed(i), DataOf(q));
    }
  }

  lemma InvGivesPrefix(taken: seq<byte>, q: seq<Message>, i: Inbound, life: Life)
    requires StreamInv(taken, q, i, life)
    ensures i.written <= taken
  {
    if !Frozen(i, life) {
      LandedIsPrefix(taken, q, i, life);
      WrittenLands(i);
      PrefixTrans(i.written, Landed(i), taken);
    }
  }

  lemma WriterKeeps(taken: seq<byte>, q: seq<Message>, i: Inbound, fc: bool, life: Life, s: WriterStep)
    requires StreamInv(taken, q, i, life) && CanWrite(i, life, s)
    ensures StreamInv(taken, q, RunWriter(i, fc, life, s).0, life)
  {
    var j := RunWriter(i, fc, life, s).0;
    if Frozen(i, life) {
      if s.WriteFail? {
        assert i.written + i.writer.chunk[..0] == i.written;
      }
    } else if Frozen(j, life) {
      LandedIsPrefix(taken, q, i, life);
      if s.WriteFail? {
        PartialWriteLands(i, s.k);
      } else {
        WrittenLands(i);
      }
      PrefixTrans(j.written, Landed(i), taken);
    } else {
      LandedMoves(i, fc, life, s);
    }
  }

  lemma LifeKeeps(taken: seq<byte>, q: seq<Message>, i: Inbound, life: Life, s: LifeStep)
    requires StreamInv(taken, q, i, life) && CanLive(life, s)
    ensures StreamInv(taken, q, i, RunLife(life, s))
  {
    InvGivesPrefix(taken, q, i, life);
    if !Frozen(i, life) {
      LandedIsPrefix(taken, q, i, life);
    }
  }

  lemma LandedGrows(i: Inbound, b: Chunk)
    ensures Landed(i.(inbox := i.inbox + [b])) == Landed(i) + b
  {
    FlatAppend(i.inbox, b);
    Assoc(InHand(i), Flat(i.inbox), b);
    Assoc(i.written, InHand(i) + Flat(i.inbox), b);
  }

  lemma SectionKeepsAbort(e: End, section: Section)
    requires AbortInv(e) && CanRun(e, section)
    ensures AbortInv(Run(e, section).0)
  {
  }

  /** The receiver handles the head of the queue. */
  lemma ReceiverKeeps(taken: seq<byte>, q: seq<Message>, e: End, drop: bool)
    requires StreamInv(taken, q, e.inbound, e.life) && q != []
    requires CanReceive(e) && AbortInv(e)
    ensures var e' := Receive(e, q[0], drop).0;
            StreamInv(taken, q[1..], e'.inbound, e'.life)
  {
    if Frozen(e.inbound, e.life) {
    } else {
      LandedIsPrefix(taken, q, e.inbound, e.life);
      if q[0].Data? {
        LandedGrows(e.inbound, q[0].bytes);
        Assoc(Landed(e.inbound), q[0].bytes, DataOf(q[1..]));
      } else {
        assert [] + DataOf(q[1..]) == DataOf(q[1..]);
      }
    }
  }

  lemma LeftSection(s: Net, section: Section)
    requires Inv(s) && CanRun(s.left, section)
    ensures Inv(LeftApply(s, Local(Left, section)))
  {
    var out := Run(s.left, section).1;
    SectionKeepsAbort(s.left, section);
    match section {
      case ByReader(r) =>
        if r.Read? {
          SenderTakes(s.left.outbound.taken, s.toRight, s.left.outbound.unread[..r.n], s.right.inbound, s.right.life);
        } else {
          SenderQuiet(s.left.outbound.taken, s.toRight, out, s.right.inbound, s.right.life);
        }
      case ByWriter(w) =>
        SenderQuiet(s.left.outbound.taken, s.toRight, out, s.right.inbound, s.right.life);
        WriterKeeps(s.right.outbound.taken, s.toLeft, s.left.inbound, s.left.fc, s.left.life, w);
      case ByLife(l) =>
        SenderQuiet(s.left.outbound.taken, s.toRight, out, s.right.inbound, s.right.life);
        LifeKeeps(s.right.outbound.taken, s.toLeft, s.left.inbound, s.left.life, l);
    }
  }

  lemma LeftStep(s: Net, a: Action)
    requires Inv(s) && a.side.Left? && Enabled(s, a)
    ensures Inv(Apply(s, a))
  {
    match a {
      case Local(_, section) => LeftSection(s, section);
      case Deliver(_, drop) =>
        var out := Receive(s.left, s.toLeft[0], drop).1;
        SenderQuiet(s.left.outbound.taken, s.toRight, out, s.right.inbound, s.right.life);
        ReceiverKeeps(s.right.outbound.taken, s.toLeft, s.left, drop);
    }
  }

  lemma StepKeepsInv(s: Net, a: Action)
    requires Inv(s) && Enabled(s, a)
    ensures Inv(Apply(s, a))
  {
    if a.side.Left? {
      LeftStep(s, a);
    } else {
      LeftStep(Swap(s), Mirror(a));
    }
  }

  lemma {:induction false} RunKeepsInv(s: Net, run: seq<Action>)
    requires Inv(s) && Feasible(s, run)
    ensures Inv(After(s, run))
    decreases |run|
  {
    if run != [] {
      StepKeepsInv(s, run[0]);
      RunKeepsInv(Apply(s, run[0]), run[1..]);
    }
  }

  /** Delivery: in every run, aborts, write errors and resets included, each local connection
      has received a prefix of what the opposite reader took in. */
  lemma WrittenIsPrefixOfTaken(leftFc: bool, rightFc: bool, leftInput: seq<byte>, rightInput: seq<byte>,
                               run: seq<Action>)
    requires Feasible(Start(leftFc, rightFc, leftInput, rightInput), run)
    ensures var s := After(Start(leftFc, rightFc, leftInput, rightInput), run);
            && s.right.inbound.written <= s.left.outbound.taken
            && s.left.inbound.written <= s.right.outbound.taken
  {
    var start := Start(leftFc, rightFc, leftInput, rightInput);
    RunKeepsInv(start, run);
    var s := After(start, run);
    InvGivesPrefix(s.left.outbound.taken, s.toRight, s.right.inbound, s.right.life);
    InvGivesPrefix(s.right.outbound.taken, s.toLeft, s.left.inbound, s.left.life);
  }
}
