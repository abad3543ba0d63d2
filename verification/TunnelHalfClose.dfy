/** The orderly half-close comes after the last byte. */
module TunnelHalfClose {
  import opened Basics
  import opened TunnelStream
  import opened TunnelNetwork
  import opened TunnelDelivery

  predicate DataFree(q: seq<Message>) {
    forall m :: m in q ==> !m.Data?
  }

  predicate CloseFree(q: seq<Message>) {
    forall m :: m in q ==> !m.Close?
  }

  predicate CloseIsLast(q: seq<Message>) {
    q == [] || (CloseIsLast(q[1..]) && (q[0].Close? ==> DataFree(q[1..])))
  }

  lemma {:induction false} CloseIsLastAppend(q: seq<Message>, m: Message)
    requires CloseIsLast(q) && (m.Data? ==> CloseFree(q))
    ensures CloseIsLast(q + [m])
  {
    if q == [] {
      assert q + [m] == [m] && [m][1..] == [];
    } else {
      assert (q + [m])[1..] == q[1..] + [m];
      CloseIsLastAppend(q[1..], m);
    }
  }

  lemma {:induction false} DataFreeIsEmpty(q: seq<Message>)
    requires DataFree(q)
    ensures DataOf(q) == []
  {
    if q != [] {
      DataFreeIsEmpty(q[1..]);
    }
  }

  /** One direction, as long as its sender has not reset the stream. */
  ghost predicate EofInv(o: Outbound, q: seq<Message>, i: Inbound, life: Life) {
    && CloseIsLast(q)
    && (!CloseFree(q) ==> o.closeSent)
    && (o.closeSent ==> o.reader.CloseSent? || o.reader.ReaderGone?)
    && (i.inboxClosed ==> o.closeSent && DataFree(q) && !life.resetting)
    && (i.writer.DrainSeen? ==> i.inboxClosed && i.inbox == [])
    && (i.halfClosed ==> i.inboxClosed && (i.writer.DrainSeen? || i.writer.WriterGone?) && i.written == o.taken)
    && (!Frozen(i, life) && i.inboxClosed ==> Landed(i) == o.taken)
    && (!Frozen(i, life) && Accepting(i, life) ==> Landed(i) + DataOf(q) == o.taken)
  }

  ghost predicate HalfInv(s: Net) {
    && AbortInv(s.left) && AbortInv(s.right)
    && (!s.left.life.resetting ==> EofInv(s.left.outbound, s.toRight, s.right.inbound, s.right.life))
    && (!s.right.life.resetting ==> EofInv(s.right.outbound, s.toLeft, s.left.inbound, s.left.life))
  }

  lemma ReaderKeepsEof(o: Outbound, fc: bool, olife: Life, q: seq<Message>, i: Inbound, life: Life, s: ReaderStep)
    requires EofInv(o, q, i, life) && CanRead(o, fc, olife, s)
    ensures EofInv(RunReader(o, fc, olife, s).0, q + RunReader(o, fc, olife, s).1, i, life)
  {
    var (o', out) := RunReader(o, fc, olife, s);
    if out == [] {
      assert q + out == q;
    } else {
      CloseIsLastAppend(q, out[0]);
      QueueAppend(q, out[0]);
      if s.Read? {
        Assoc(Landed(i), DataOf(q), out[0].bytes);
      } else {
        assert DataOf(q) + [] == DataOf(q);
      }
    }
  }

  /** The sender's writer and dispatcher add windows, and nothing else, to the queue. */
  lemma WindowKeepsEof(o: Outbound, q: seq<Message>, n: nat, i: Inbound, life: Life)
    requires EofInv(o, q, i, life)
    ensures EofInv(o, q + [Window(n)], i, life)
  {
    CloseIsLastAppend(q, Window(n));
    QueueAppend(q, Window(n));
    assert DataOf(q) + [] == DataOf(q);
  }

  lemma WriterKeepsEof(o: Outbound, q: seq<Message>, i: Inbound, fc: bool, life: Life, s: WriterStep)
    requires EofInv(o, q, i, life) && CanWrite(i, life, s)
    ensures EofInv(o, q, RunWriter(i, fc, life, s).0, life)
  {
    if !s.WriteFail? {
      LandedMoves(i, fc, life, s);
    }
    if s.SeeDrained? {
      assert i.written + ([] + Flat([])) == i.written;
    }
  }

  lemma ReceiverKeepsEof(o: Outbound, q: seq<Message>, e: End, drop: bool)
    requires EofInv(o, q, e.inbound, e.life) && q != []
    requires CanReceive(e) && AbortInv(e)
    ensures var e' := Receive(e, q[0], drop).0;
            EofInv(o, q[1..], e'.inbound, e'.life)
  {
    assert q == [q[0]] + q[1..];
    match q[0] {
      case Data(b) =>
        LandedGrows(e.inbound, b);
        Assoc(Landed(e.inbound), b, DataOf(q[1..]));
      case Close =>
        DataFreeIsEmpty(q[1..]);
        assert DataOf(q) == DataOf(q[1..]);
        assert Landed(e.inbound) + [] == Landed(e.inbound);
      case Window(_) =>
        assert DataOf(q) == DataOf(q[1..]);
    }
  }

  lemma LeftSectionKeepsHalf(s: Net, section: Section)
    requires HalfInv(s) && CanRun(s.left, section)
    ensures HalfInv(LeftApply(s, Local(Left, section)))
  {
    var out := Run(s.left, section).1;
    assert s.toRight + [] == s.toRight;
    SectionKeepsAbort(s.left, section);
    match section {
      case ByReader(r) =>
        if !s.left.life.resetting {
          ReaderKeepsEof(s.left.outbound, s.left.fc, s.left.life, s.toRight, s.right.inbound, s.right.life, r);
        }
      case ByWriter(w) =>
        if !s.left.life.resetting && out != [] {
          WindowKeepsEof(s.left.outbound, s.toRight, out[0].count, s.right.inbound, s.right.life);
        }
        if !s.right.life.resetting {
          WriterKeepsEof(s.right.outbound, s.toLeft, s.left.inbound, s.left.fc, s.left.life, w);
        }
      case ByLife(l) =>
    }
  }

  lemma LeftStepKeepsHalf(s: Net, a: Action)
    requires HalfInv(s) && a.side.Left? && Enabled(s, a)
    ensures HalfInv(Apply(s, a))
  {
    match a {
      case Local(_, section) => LeftSectionKeepsHalf(s, section);
      case Deliver(_, drop) =>
        assert s.toRight + [] == s.toRight;
        if !s.right.life.resetting {
          ReceiverKeepsEof(s.right.outbound, s.toLeft, s.left, drop);
        }
    }
  }

  lemma {:induction false} RunKeepsHalf(s: Net, run: seq<Action>)
    requires HalfInv(s) && Feasible(s, run)
    ensures HalfInv(After(s, run))
    decreases |run|
  {
    if run != [] {
      if run[0].side.Left? {
        LeftStepKeepsHalf(s, run[0]);
      } else {
        LeftStepKeepsHalf(Swap(s), Mirror(run[0]));
      }
      RunKeepsHalf(Apply(s, run[0]), run[1..]);
    }
  }

  /** When a write side was closed in order, and the sender of that direction has not reset
      the stream, the connection holds every byte the sender took in. */
  lemma HalfCloseMeansComplete(leftFc: bool, rightFc: bool, leftInput: seq<byte>, rightInput: seq<byte>,
                               run: seq<Action>)
    requires Feasible(Start(leftFc, rightFc, leftInput, rightInput), run)
    ensures var s := After(Start(leftFc, rightFc, leftInput, rightInput), run);
            && (s.right.inbound.halfClosed && !s.left.life.resetting ==>
                  s.right.inbound.written == s.left.outbound.taken && s.left.outbound.closeSent)
            && (s.left.inbound.halfClosed && !s.right.life.resetting ==>
                  s.left.inbound.written == s.right.outbound.taken && s.right.outbound.closeSent)
  {
    RunKeepsHalf(Start(leftFc, rightFc, leftInput, rightInput), run);
  }
}
