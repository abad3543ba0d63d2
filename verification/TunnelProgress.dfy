/** Runs without resets, aborts or connection errors: they end, and they end with both
    directions delivered in full and both streams unregistered. */
module TunnelProgress {
  import opened Basics
  import opened TunnelStream
  import opened TunnelNetwork
  import opened TunnelHalfClose
  import opened TunnelCredit

  /** A section of a run in which nothing fails: reads fail only at the end of the input,
      writes never, and only the end of both directions closes the stream. */
  predicate OrderlySection(e: End, s: Section) {
    match s
    case ByReader(r) =>
      && (r.Read? && r.last ==> r.n == |e.outbound.unread|)
      && (r.ReadEnd? ==> e.outbound.unread == [])
    case ByWriter(w) => !w.WriteFail? && !w.WriterQuit?
    case ByLife(l) =>
      && e.outbound.readDone && e.inbound.writeDone
      && (l.Unregister? ==> e.life.connClosed)
  }

  predicate LeftOrderly(s: Net, a: Action)
    requires a.side.Left?
  {
    match a
    case Local(_, section) => OrderlySection(s.left, section)
    case Deliver(_, drop) => s.toLeft != [] && !drop && (s.toLeft[0].Data? ==> !Overflows(s.left))
  }

  predicate Orderly(s: Net, a: Action) {
    if a.side.Left? then LeftOrderly(s, a) else LeftOrderly(Swap(s), Mirror(a))
  }

  predicate OrderlyRun(s: Net, run: seq<Action>)
    requires Feasible(s, run)
    decreases |run|
  {
    run == [] || (Orderly(s, run[0]) && OrderlyRun(Apply(s, run[0]), run[1..]))
  }

  /** No orderly action is left. */
  ghost predicate Stuck(s: Net) {
    forall a: Action :: Enabled(s, a) ==> !Orderly(s, a)
  }

  // ─── The invariant of orderly runs ───────────────────────────────────────────

  predicate ReaderInv(o: Outbound) {
    && (o.readDone <==> o.reader.ReaderGone?)
    && (o.closeSent <==> o.reader.CloseSent? || o.reader.ReaderGone?)
    && (!Live(o.reader) ==> o.unread == [])
    && (o.reader.Refunding? && o.reader.last ==> o.unread == [])
    && (o.reader.Reading? ==> o.reader.budget > 0)
  }

  predicate WriterInv(i: Inbound) {
    && (i.writeDone <==> i.writer.WriterGone?)
    && (i.writer.DrainSeen? || i.writer.WriterGone? ==> i.inboxClosed && i.inbox == [] && i.halfClosed)
  }

  predicate LifeInv(e: End) {
    && !e.life.resetting
    && (e.life.done ==> e.outbound.readDone && e.inbound.writeDone)
    && (e.life.connClosed ==> e.life.done)
    && (!e.life.registered ==> e.life.connClosed)
  }

  predicate EndInv(e: End) {
    ReaderInv(e.outbound) && WriterInv(e.inbound) && LifeInv(e)
  }

  /** The peer's tunnel_close is in transit or has closed the inbox. */
  predicate CloseKept(o: Outbound, q: seq<Message>, i: Inbound) {
    o.closeSent ==> i.inboxClosed || !CloseFree(q)
  }

  /** While a reader still asks for credit, no byte of its window is lost. */
  predicate CreditKept(o: Outbound, q: seq<Message>, i: Inbound, back: seq<Message>) {
    o.credit >= 0 && (Live(o.reader) ==> Total(o, q, i, back) == WINDOW_SIZE)
  }

  ghost predicate OrderlyInv(s: Net) {
    && HalfInv(s)
    && EndInv(s.left) && EndInv(s.right)
    && CloseKept(s.left.outbound, s.toRight, s.right.inbound)
    && CloseKept(s.right.outbound, s.toLeft, s.left.inbound)
  }

  /** Both ends gate their readers and grant credit, or neither does. */
  ghost predicate Agreed(s: Net) {
    && s.left.fc == s.right.fc
    && (s.left.fc ==>
          && CreditKept(s.left.outbound, s.toRight, s.right.inbound, s.toLeft)
          && CreditKept(s.right.outbound, s.toLeft, s.left.inbound, s.toRight))
  }

  lemma ReaderKeepsEnd(e: End, r: ReaderStep)
    requires EndInv(e) && CanRun(e, ByReader(r)) && OrderlySection(e, ByReader(r))
    ensures EndInv(Run(e, ByReader(r)).0)
  {
    assert ReaderInv(RunReader(e.outbound, e.fc, e.life, r).0);
  }

  lemma WriterKeepsEnd(e: End, w: WriterStep)
    requires EndInv(e) && CanRun(e, ByWriter(w)) && OrderlySection(e, ByWriter(w))
    ensures EndInv(Run(e, ByWriter(w)).0)
  {
    assert WriterInv(RunWriter(e.inbound, e.fc, e.life, w).0);
  }

  lemma DeliveryKeepsEnd(e: End, m: Message)
    requires EndInv(e) && (m.Data? ==> !Overflows(e))
    requires e.inbound.writer.DrainSeen? || e.inbound.writer.WriterGone? ==> e.inbound.inboxClosed
    ensures EndInv(Receive(e, m, false).0)
  {
  }

  lemma LeftKeepsEnds(s: Net, a: Action)
    requires OrderlyInv(s) && a.side.Left? && Enabled(s, a) && Orderly(s, a)
    ensures EndInv(Apply(s, a).left)
  {
    match a {
      case Local(_, section) =>
        match section {
          case ByReader(r) => ReaderKeepsEnd(s.left, r);
          case ByWriter(w) => WriterKeepsEnd(s.left, w);
          case ByLife(l) =>
        }
      case Deliver(_, drop) => DeliveryKeepsEnd(s.left, s.toLeft[0]);
    }
  }

  lemma CloseStays(q: seq<Message>, out: seq<Message>)
    ensures CloseFree(q + out) <==> CloseFree(q) && CloseFree(out)
  {
    if CloseFree(q + out) {
      assert forall m :: m in q ==> m in q + out;
      assert forall m :: m in out ==> m in q + out;
    }
  }

  lemma LeftKeepsClose(s: Net, a: Action)
    requires OrderlyInv(s) && a.side.Left? && Enabled(s, a) && Orderly(s, a)
    ensures CloseKept(Apply(s, a).left.outbound, Apply(s, a).toRight, Apply(s, a).right.inbound)
    ensures CloseKept(Apply(s, a).right.outbound, Apply(s, a).toLeft, Apply(s, a).left.inbound)
  {
    match a {
      case Local(_, section) =>
        var out := Run(s.left, section).1;
        CloseStays(s.toRight, out);
        if section == ByReader(SendClose) {
          assert out[0] in out;
        }
      case Deliver(_, drop) =>
        CloseStays(s.toRight, Receive(s.left, s.toLeft[0], drop).1);
        assert s.toLeft == [s.toLeft[0]] + s.toLeft[1..];
    }
  }

  lemma SectionKeepsAgreed(s: Net, section: Section)
    requires OrderlyInv(s) && Agreed(s) && s.left.fc && CanRun(s.left, section) && OrderlySection(s.left, section)
    ensures Agreed(LeftApply(s, Local(Left, section)))
  {
    var out := Run(s.left, section).1;
    if out == [] {
      assert s.toRight + out == s.toRight;
    } else {
      ForeignMessage(s.left.outbound, s.toRight, s.right.inbound, s.toLeft, out[0]);
      ForeignMessage(s.right.outbound, s.toLeft, s.left.inbound, s.toRight, out[0]);
    }
    match section {
      case ByReader(r) => ReaderSpends(s.left.outbound, s.left.life, r, s.toRight, s.right.inbound, s.toLeft);
      case ByWriter(w) => WriterSpends(s.right.outbound, s.toLeft, s.left.inbound, s.left.life, w, s.toRight);
      case ByLife(_) =>
    }
  }

  lemma DeliveryKeepsAgreed(s: Net, drop: bool)
    requires OrderlyInv(s) && Agreed(s) && s.left.fc
    requires LeftEnabled(s, Deliver(Left, drop)) && LeftOrderly(s, Deliver(Left, drop))
    ensures Agreed(LeftApply(s, Deliver(Left, drop)))
  {
    assert s.toLeft[0] in s.toLeft;
    DeliverySpends(s.right.outbound, s.toLeft, s.left, s.toRight, drop);
    GrantArrives(s.left, s.toRight, s.right.inbound, s.toLeft, drop);
  }

  lemma LeftKeepsAgreed(s: Net, a: Action)
    requires OrderlyInv(s) && Agreed(s) && a.side.Left? && Enabled(s, a) && Orderly(s, a)
    ensures Agreed(Apply(s, a))
  {
    if s.left.fc {
      match a {
        case Local(_, section) => SectionKeepsAgreed(s, section);
        case Deliver(_, drop) => DeliveryKeepsAgreed(s, drop);
      }
    }
  }

  lemma LeftKeepsOrderly(s: Net, a: Action)
    requires OrderlyInv(s) && a.side.Left? && Enabled(s, a) && Orderly(s, a)
    ensures OrderlyInv(Apply(s, a))
  {
    LeftStepKeepsHalf(s, a);
    LeftKeepsEnds(s, a);
    LeftKeepsClose(s, a);
  }

  lemma StepKeepsOrderly(s: Net, a: Action)
    requires OrderlyInv(s) && Enabled(s, a) && Orderly(s, a)
    ensures OrderlyInv(Apply(s, a))
  {
    if a.side.Left? {
      LeftKeepsOrderly(s, a);
    } else {
      LeftKeepsOrderly(Swap(s), Mirror(a));
    }
  }

  lemma StepKeepsAgreed(s: Net, a: Action)
    requires OrderlyInv(s) && Agreed(s) && Enabled(s, a) && Orderly(s, a)
    ensures Agreed(Apply(s, a))
  {
    if a.side.Left? {
      LeftKeepsAgreed(s, a);
    } else {
      LeftKeepsAgreed(Swap(s), Mirror(a));
    }
  }

  // ─── Every orderly run ends ──────────────────────────────────────────────────

  function ReaderRank(r: Reader): nat {
    match r
    case AwaitCredit => 6
    case Reading(_) => 5
    case Refunding(_, _) => 7
    case SendingClose => 4
    case CloseSent => 2
    case ReaderGone => 0
  }

  function WriterRank(w: Writer): nat {
    match w
    case AwaitChunk => 3
    case Writing(_) => 11
    case Granting(_) => 10
    case DrainSeen => 2
    case WriterGone => 0
  }

  function MessageRank(m: Message): nat {
    match m
    case Data(_) => 10
    case Close => 1
    case Window(_) => 5
  }

  function QueueRank(q: seq<Message>): nat {
    if q == [] then 0 else MessageRank(q[0]) + QueueRank(q[1..])
  }

  lemma {:induction false} QueueRankAppend(q: seq<Message>, m: Message)
    ensures QueueRank(q + [m]) == QueueRank(q) + MessageRank(m)
  {
    if q == [] {
      assert q + [m] == [m] && [m][1..] == [];
    } else {
      assert (q + [m])[1..] == q[1..] + [m];
      QueueRankAppend(q[1..], m);
    }
  }

  function LifeRank(life: Life): nat {
    (if life.done then 0 else 1) + (if life.connClosed then 0 else 1) + (if life.registered then 1 else 0)
  }

  function OutboundRank(o: Outbound): nat {
    20 * |o.unread| + ReaderRank(o.reader)
  }

  function InboundRank(i: Inbound): nat {
    9 * |i.inbox| + WriterRank(i.writer)
  }

  function EndRank(e: End): nat {
    OutboundRank(e.outbound) + InboundRank(e.inbound) + LifeRank(e.life)
  }

  /** The termination measure. */
  function Measure(s: Net): nat {
    EndRank(s.left) + EndRank(s.right) + QueueRank(s.toRight) + QueueRank(s.toLeft)
  }

  lemma ReaderDecreases(o: Outbound, fc: bool, life: Life, s: ReaderStep, q: seq<Message>)
    requires CanRead(o, fc, life, s)
    ensures var (o', out) := RunReader(o, fc, life, s);
            OutboundRank(o') + QueueRank(q + out) < OutboundRank(o) + QueueRank(q)
  {
    var out := RunReader(o, fc, life, s).1;
    if out == [] {
      assert q + out == q;
    } else {
      QueueRankAppend(q, out[0]);
    }
  }

  lemma WriterDecreases(i: Inbound, fc: bool, life: Life, s: WriterStep, q: seq<Message>)
    requires CanWrite(i, life, s)
    ensures var (i', out) := RunWriter(i, fc, life, s);
            InboundRank(i') + QueueRank(q + out) < InboundRank(i) + QueueRank(q)
  {
    var out := RunWriter(i, fc, life, s).1;
    if out == [] {
      assert q + out == q;
    } else {
      QueueRankAppend(q, out[0]);
    }
  }

  lemma LifeDecreases(e: End, l: LifeStep)
    requires CanLive(e.life, l)
    ensures EndRank(e.(life := RunLife(e.life, l))) < EndRank(e)
  {
  }

  lemma DeliveryDecreases(e: End, q: seq<Message>)
    requires q != [] && !e.life.resetting && (q[0].Data? ==> !Overflows(e))
    ensures var (e', out) := Receive(e, q[0], false);
            out == [] && EndRank(e') + QueueRank(q[1..]) < EndRank(e) + QueueRank(q)
  {
  }

  lemma LeftStepDecreases(s: Net, a: Action)
    requires OrderlyInv(s) && a.side.Left? && Enabled(s, a) && Orderly(s, a)
    ensures Measure(Apply(s, a)) < Measure(s)
  {
    match a {
      case Local(_, section) =>
        match section {
          case ByReader(r) => ReaderDecreases(s.left.outbound, s.left.fc, s.left.life, r, s.toRight);
          case ByWriter(w) => WriterDecreases(s.left.inbound, s.left.fc, s.left.life, w, s.toRight);
          case ByLife(l) =>
            LifeDecreases(s.left, l);
            assert s.toRight + [] == s.toRight;
        }
      case Deliver(_, drop) =>
        DeliveryDecreases(s.left, s.toLeft);
        assert s.toRight + [] == s.toRight;
    }
  }

  lemma StepDecreases(s: Net, a: Action)
    requires OrderlyInv(s) && Enabled(s, a) && Orderly(s, a)
    ensures Measure(Apply(s, a)) < Measure(s)
  {
    if a.side.Left? {
      LeftStepDecreases(s, a);
    } else {
      LeftStepDecreases(Swap(s), Mirror(a));
    }
  }

  lemma {:induction false} RunKeepsOrderly(s: Net, run: seq<Action>)
    requires OrderlyInv(s) && Feasible(s, run) && OrderlyRun(s, run)
    ensures OrderlyInv(After(s, run))
    ensures |run| + Measure(After(s, run)) <= Measure(s)
    decreases |run|
  {
    if run != [] {
      StepKeepsOrderly(s, run[0]);
      StepDecreases(s, run[0]);
      RunKeepsOrderly(Apply(s, run[0]), run[1..]);
    }
  }

  lemma {:induction false} RunKeepsAgreed(s: Net, run: seq<Action>)
    requires OrderlyInv(s) && Agreed(s) && Feasible(s, run) && OrderlyRun(s, run)
    ensures Agreed(After(s, run))
    decreases |run|
  {
    if run != [] {
      StepKeepsOrderly(s, run[0]);
      StepKeepsAgreed(s, run[0]);
      RunKeepsAgreed(Apply(s, run[0]), run[1..]);
    }
  }

  // ─── A run that cannot go on has finished ────────────────────────────────────

  predicate EndFinished(e: End) {
    && e.outbound.reader.ReaderGone? && e.inbound.writer.WriterGone?
    && e.life.done && e.life.connClosed && !e.life.registered
  }

  predicate Finished(s: Net) {
    EndFinished(s.left) && EndFinished(s.right) && s.toLeft == [] && s.toRight == []
  }

  /** The reader is blocked in takeCredit. */
  predicate Starved(e: End) {
    e.outbound.reader.AwaitCredit? && e.fc && e.outbound.credit <= 0
  }

  /** An end whose peer's messages have all been handled can act, unless it waits for the
      peer or has finished. */
  lemma EndActs(e: End) returns (section: Section)
    requires EndInv(e) && !EndFinished(e)
    requires !Starved(e)
    requires !(e.inbound.writer.AwaitChunk? && e.inbound.inbox == [] && !e.inbound.inboxClosed
               && e.outbound.reader.ReaderGone?)
    ensures CanRun(e, section) && OrderlySection(e, section)
  {
    match e.outbound.reader {
      case AwaitCredit => section := ByReader(TakeCredit);
      case Reading(b) =>
        if e.outbound.unread == [] {
          section := ByReader(ReadEnd);
        } else {
          section := ByReader(Read(1, false));
        }
      case Refunding(_, _) => section := ByReader(Refund);
      case SendingClose => section := ByReader(SendClose);
      case CloseSent => section := ByReader(MarkRead);
      case ReaderGone =>
        match e.inbound.writer {
          case AwaitChunk =>
            section := ByWriter(if e.inbound.inbox != [] then TakeChunk else SeeDrained);
          case Writing(_) => section := ByWriter(WriteChunk);
          case Granting(_) => section := ByWriter(Grant);
          case DrainSeen => section := ByWriter(MarkWrite);
          case WriterGone =>
            section := ByLife(if !e.life.done then CloseDone else if !e.life.connClosed then CloseConn else Unregister);
        }
    }
  }

  /** The writer can act. */
  predicate WriterReady(i: Inbound) {
    i.writer.Writing? || i.writer.Granting? || i.writer.DrainSeen?
    || (i.writer.AwaitChunk? && (i.inbox != [] || i.inboxClosed))
  }

  lemma WriterActs(e: End) returns (section: Section)
    requires EndInv(e) && WriterReady(e.inbound)
    ensures CanRun(e, section) && OrderlySection(e, section)
  {
    match e.inbound.writer {
      case AwaitChunk => section := ByWriter(if e.inbound.inbox != [] then TakeChunk else SeeDrained);
      case Writing(_) => section := ByWriter(WriteChunk);
      case Granting(_) => section := ByWriter(Grant);
      case DrainSeen => section := ByWriter(MarkWrite);
    }
  }

  /** Half-close does not starve the other direction: a reader out of credit has its whole
      window in transit, in the peer's hands or on its way back. */
  lemma NoCreditMeansWindowElsewhere(s: Net)
    requires OrderlyInv(s) && Agreed(s) && Starved(s.left)
    ensures |DataOf(s.toRight)| + |Flat(s.right.inbound.inbox)| + |InHand(s.right.inbound)|
            + GrantDue(s.right.inbound.writer) + WindowOf(s.toLeft) == WINDOW_SIZE
    ensures s.left.life.registered && s.right.life.registered
    ensures s.toRight != [] || s.toLeft != [] || WriterReady(s.right.inbound)
  {
    assert !s.left.outbound.closeSent;
    assert !s.right.inbound.inboxClosed;
    assert !s.right.inbound.writeDone;
  }

  lemma HeadDeliverable(s: Net)
    requires OrderlyInv(s) && s.toLeft != []
    ensures exists a :: Enabled(s, a) && Orderly(s, a)
  {
    if s.toLeft[0].Data? && Overflows(s.left) {
      assert s.left.inbound.inbox != [];
      assert !s.left.inbound.writer.DrainSeen? && !s.left.inbound.writer.WriterGone?;
      var section := WriterActs(s.left);
      assert Enabled(s, Local(Left, section)) && Orderly(s, Local(Left, section));
    } else {
      assert Enabled(s, Deliver(Left, false)) && Orderly(s, Deliver(Left, false));
    }
  }

  /** With both queues empty, an end that has not finished can act, or its peer can, unless
      one of the two readers is out of credit. */
  lemma QuietEndActs(s: Net)
    requires OrderlyInv(s) && s.toLeft == [] && s.toRight == [] && !EndFinished(s.left)
    requires WriterReady(s.left.inbound) || WriterReady(s.right.inbound)
             || (!Starved(s.left) && !Starved(s.right))
    ensures exists a :: Enabled(s, a) && Orderly(s, a)
  {
    var e, p := s.left, s.right;
    if WriterReady(e.inbound) {
      var section := WriterActs(e);
      assert Enabled(s, Local(Left, section)) && Orderly(s, Local(Left, section));
    } else if WriterReady(p.inbound) {
      var section := WriterActs(p);
      assert Enabled(s, Local(Right, section)) && Orderly(s, Local(Right, section));
    } else if e.outbound.reader.ReaderGone? && e.inbound.writer.AwaitChunk? {
      assert !p.outbound.closeSent;
      var section := EndActs(p);
      assert Enabled(s, Local(Right, section)) && Orderly(s, Local(Right, section));
    } else {
      var section := EndActs(e);
      assert Enabled(s, Local(Left, section)) && Orderly(s, Local(Left, section));
    }
  }

  lemma MirroredActs(s: Net)
    requires exists a :: Enabled(Swap(s), a) && Orderly(Swap(s), a)
    ensures exists a :: Enabled(s, a) && Orderly(s, a)
  {
    var a :| Enabled(Swap(s), a) && Orderly(Swap(s), a);
    assert Swap(Swap(s)) == s && Mirror(Mirror(a)) == a;
    assert Enabled(s, Mirror(a)) && Orderly(s, Mirror(a));
  }

  /** A run that cannot go on has finished, or a reader is out of credit while every other
      part of the network is idle. */
  lemma StuckShape(s: Net)
    requires OrderlyInv(s) && Stuck(s)
    ensures s.toLeft == [] && s.toRight == []
    ensures Finished(s) || (!WriterReady(s.left.inbound) && !WriterReady(s.right.inbound)
                            && (Starved(s.left) || Starved(s.right)))
  {
    if s.toLeft != [] {
      HeadDeliverable(s);
    } else if s.toRight != [] {
      HeadDeliverable(Swap(s));
      MirroredActs(s);
    } else if Finished(s) {
    } else if WriterReady(s.left.inbound) || WriterReady(s.right.inbound)
              || (!Starved(s.left) && !Starved(s.right)) {
      if !EndFinished(s.left) {
        QuietEndActs(s);
      } else {
        QuietEndActs(Swap(s));
        MirroredActs(s);
      }
    }
  }

  /** Deadlock freedom: when both ends agree on flow control, a run that cannot go on has
      finished. */
  lemma StuckIsFinished(s: Net)
    requires OrderlyInv(s) && Agreed(s) && Stuck(s)
    ensures Finished(s)
  {
    StuckShape(s);
    if !Finished(s) {
      if Starved(s.left) {
        NoCreditMeansWindowElsewhere(s);
      } else {
        NoCreditMeansWindowElsewhere(Swap(s));
      }
    }
  }

  // ─── The input is what was taken in and what is left of it ───────────────────

  predicate InputKept(s: Net, leftInput: seq<byte>, rightInput: seq<byte>) {
    && s.left.outbound.taken + s.left.outbound.unread == leftInput
    && s.right.outbound.taken + s.right.outbound.unread == rightInput
  }

  lemma LeftKeepsInput(s: Net, a: Action, leftInput: seq<byte>, rightInput: seq<byte>)
    requires InputKept(s, leftInput, rightInput) && a.side.Left? && Enabled(s, a)
    ensures InputKept(Apply(s, a), leftInput, rightInput)
  {
    if a.Local? && a.section.ByReader? && a.section.r.Read? {
      var n := a.section.r.n;
      assert s.left.outbound.unread == s.left.outbound.unread[..n] + s.left.outbound.unread[n..];
      Assoc(s.left.outbound.taken, s.left.outbound.unread[..n], s.left.outbound.unread[n..]);
    }
  }

  lemma {:induction false} RunKeepsInput(s: Net, run: seq<Action>, leftInput: seq<byte>, rightInput: seq<byte>)
    requires InputKept(s, leftInput, rightInput) && Feasible(s, run)
    ensures InputKept(After(s, run), leftInput, rightInput)
    decreases |run|
  {
    if run != [] {
      if run[0].side.Left? {
        LeftKeepsInput(s, run[0], leftInput, rightInput);
      } else {
        LeftKeepsInput(Swap(s), Mirror(run[0]), rightInput, leftInput);
      }
      RunKeepsInput(Apply(s, run[0]), run[1..], leftInput, rightInput);
    }
  }

  // ─── Main results ────────────────────────────────────────────────────────────

  lemma StartIsOrderly(leftFc: bool, rightFc: bool, leftInput: seq<byte>, rightInput: seq<byte>)
    ensures OrderlyInv(Start(leftFc, rightFc, leftInput, rightInput))
    ensures leftFc == rightFc ==> Agreed(Start(leftFc, rightFc, leftInput, rightInput))
  {
  }

  /** Termination: an orderly run takes at most 20 steps for each input byte, and 24 more. */
  lemma {:induction false} OrderlyRunsEnd(leftFc: bool, rightFc: bool, leftInput: seq<byte>, rightInput: seq<byte>,
                       run: seq<Action>)
    requires Feasible(Start(leftFc, rightFc, leftInput, rightInput), run)
    requires OrderlyRun(Start(leftFc, rightFc, leftInput, rightInput), run)
    ensures |run| <= 20 * (|leftInput| + |rightInput|) + 24
  {
    StartIsOrderly(leftFc, rightFc, leftInput, rightInput);
    RunKeepsOrderly(Start(leftFc, rightFc, leftInput, rightInput), run);
  }

  /** Completion: an orderly run that cannot be continued has closed both directions,
      unregistered both streams and delivered each side's whole input to the other. */
  lemma {:induction false} OrderlyRunsComplete(fc: bool, leftInput: seq<byte>, rightInput: seq<byte>, run: seq<Action>)
    requires Feasible(Start(fc, fc, leftInput, rightInput), run)
    requires OrderlyRun(Start(fc, fc, leftInput, rightInput), run)
    requires Stuck(After(Start(fc, fc, leftInput, rightInput), run))
    ensures var s := After(Start(fc, fc, leftInput, rightInput), run);
            && Finished(s)
            && s.right.inbound.written == leftInput && s.right.inbound.halfClosed
            && s.left.inbound.written == rightInput && s.left.inbound.halfClosed
  {
    var start := Start(fc, fc, leftInput, rightInput);
    var s := After(start, run);
    StartIsOrderly(fc, fc, leftInput, rightInput);
    RunKeepsOrderly(start, run);
    RunKeepsAgreed(start, run);
    StuckIsFinished(s);
    RunKeepsInput(start, run, leftInput, rightInput);
    assert s.left.outbound.taken + [] == s.left.outbound.taken;
    assert s.right.outbound.taken + [] == s.right.outbound.taken;
  }

  /** A live reader's window is complete, and both streams are still registered. When the
      reader is out of credit, all of the window is in data messages, inbox chunks, the chunk
      in hand and grants, and one of them can move. */
  predicate WellFed(s: Net) {
    Live(s.left.outbound.reader) ==>
      && s.left.life.registered && s.right.life.registered
      && Total(s.left.outbound, s.toRight, s.right.inbound, s.toLeft) == WINDOW_SIZE
      && (Starved(s.left) ==>
            && |DataOf(s.toRight)| + |Flat(s.right.inbound.inbox)| + |InHand(s.right.inbound)|
               + GrantDue(s.right.inbound.writer) + WindowOf(s.toLeft) == WINDOW_SIZE
            && (s.toRight != [] || s.toLeft != [] || WriterReady(s.right.inbound)))
  }

  lemma AgreedIsWellFed(s: Net)
    requires OrderlyInv(s) && Agreed(s) && s.left.fc
    ensures WellFed(s)
  {
    if Starved(s.left) {
      NoCreditMeansWindowElsewhere(s);
    }
  }

  /** Half-close does not starve the other direction, over whole runs: while a reader still
      asks for credit, its stream and the peer's are registered and its whole window is
      accounted for; when it is out of credit, something that returns credit can still move. */
  lemma {:induction false} ReadersNeverStarve(leftInput: seq<byte>, rightInput: seq<byte>, run: seq<Action>)
    requires Feasible(Start(true, true, leftInput, rightInput), run)
    requires OrderlyRun(Start(true, true, leftInput, rightInput), run)
    ensures var s := After(Start(true, true, leftInput, rightInput), run);
            WellFed(s) && WellFed(Swap(s))
  {
    var start := Start(true, true, leftInput, rightInput);
    StartIsOrderly(true, true, leftInput, rightInput);
    RunKeepsOrderly(start, run);
    RunKeepsAgreed(start, run);
    RunKeepsFc(start, run);
    AgreedIsWellFed(After(start, run));
    AgreedIsWellFed(Swap(After(start, run)));
  }

  /** Every orderly state can be run until nothing orderly is left. */
  lemma {:induction false} RunToTheEnd(s: Net) returns (run: seq<Action>)
    requires OrderlyInv(s)
    ensures Feasible(s, run) && OrderlyRun(s, run) && Stuck(After(s, run))
    decreases Measure(s)
  {
    if Stuck(s) {
      run := [];
    } else {
      var a :| Enabled(s, a) && Orderly(s, a);
      StepKeepsOrderly(s, a);
      StepDecreases(s, a);
      var rest := RunToTheEnd(Apply(s, a));
      run := [a] + rest;
      assert run[0] == a && run[1..] == rest;
    }
  }

  lemma {:induction false} RunKeepsFc(s: Net, run: seq<Action>)
    requires Feasible(s, run)
    ensures After(s, run).left.fc == s.left.fc && After(s, run).right.fc == s.right.fc
    decreases |run|
  {
    if run != [] {
      RunKeepsFc(Apply(s, run[0]), run[1..]);
    }
  }
}
