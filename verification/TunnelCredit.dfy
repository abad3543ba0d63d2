/** Credit-based flow control: where the window's bytes are, and what that bounds. */
module TunnelCredit {
  import opened Basics
  import opened TunnelStream
  import opened TunnelNetwork

  /** Credit reserved by the reader and neither used nor returned yet. */
  function Held(r: Reader): nat {
    match r
    case Reading(budget) => budget
    case Refunding(unused, _) => unused
    case _ => 0
  }

  /** Bytes written whose tunnel_window is still to be emitted. */
  function GrantDue(w: Writer): nat {
    if w.Granting? then w.count else 0
  }

  /** Everything the window of one direction is spent on: `q` leads from the sender `o` to the
      receiver `i`, and `back` returns the receiver's grants. */
  function Total(o: Outbound, q: seq<Message>, i: Inbound, back: seq<Message>): int {
    o.credit + Held(o.reader) + |DataOf(q)| + |Flat(i.inbox)| + |InHand(i)| + GrantDue(i.writer) + WindowOf(back)
  }

  predicate Bounded(o: Outbound, q: seq<Message>, i: Inbound, back: seq<Message>) {
    o.credit >= 0 && Total(o, q, i, back) <= WINDOW_SIZE
  }

  predicate CreditInv(s: Net) {
    && s.left.fc && s.right.fc
    && Bounded(s.left.outbound, s.toRight, s.right.inbound, s.toLeft)
    && Bounded(s.right.outbound, s.toLeft, s.left.inbound, s.toRight)
  }

  /** The reader still asks for credit. */
  predicate Live(r: Reader) {
    r.AwaitCredit? || r.Reading? || r.Refunding?
  }

  // ─── What is taken out of the window for good ────────────────────────────────

  /** A reader whose Read fails keeps what it had reserved. */
  function LostRead(o: Outbound, s: ReaderStep): nat {
    if s.ReadEnd? then Held(o.reader) else 0
  }

  /** A failed write is not granted back. */
  function LostWrite(i: Inbound, s: WriterStep): nat {
    if s.WriteFail? then |InHand(i)| else 0
  }

  /** Neither is a chunk that `Data` does not queue. */
  function LostChunk(e: End, m: Message, drop: bool): nat {
    if m.Data? && (!e.life.registered || e.inbound.inboxClosed || Drops(e, drop) || |e.inbound.inbox| >= INBOX_BUFFER)
    then |m.bytes| else 0
  }

  /** A grant to a stream that is no longer registered is void. */
  function LostGrant(e: End, m: Message): nat {
    if m.Window? && !e.life.registered then m.count else 0
  }

  lemma ReaderSpends(o: Outbound, life: Life, s: ReaderStep, q: seq<Message>, i: Inbound, back: seq<Message>)
    requires CanRead(o, true, life, s) && o.credit >= 0
    ensures var (o', out) := RunReader(o, true, life, s);
            o'.credit >= 0 && Total(o', q + out, i, back) + LostRead(o, s) == Total(o, q, i, back)
  {
    var out := RunReader(o, true, life, s).1;
    if out == [] {
      assert q + out == q;
    } else {
      QueueAppend(q, out[0]);
    }
  }

  lemma WriterSpends(o: Outbound, q: seq<Message>, i: Inbound, life: Life, s: WriterStep, back: seq<Message>)
    requires CanWrite(i, life, s)
    ensures var (i', out) := RunWriter(i, true, life, s);
            Total(o, q, i', back + out) + LostWrite(i, s) == Total(o, q, i, back)
  {
    var out := RunWriter(i, true, life, s).1;
    if out == [] {
      assert back + out == back;
    } else {
      QueueAppend(back, out[0]);
    }
  }

  /** Messages that carry nothing of this direction leave its total alone. */
  lemma ForeignMessage(o: Outbound, q: seq<Message>, i: Inbound, back: seq<Message>, m: Message)
    ensures !m.Data? ==> Total(o, q + [m], i, back) == Total(o, q, i, back)
    ensures !m.Window? ==> Total(o, q, i, back + [m]) == Total(o, q, i, back)
  {
    QueueAppend(q, m);
    QueueAppend(back, m);
  }

  /** The receiver handles the head of q. */
  lemma DeliverySpends(o: Outbound, q: seq<Message>, e: End, back: seq<Message>, drop: bool)
    requires q != []
    ensures var (e', out) := Receive(e, q[0], drop);
            Total(o, q[1..], e'.inbound, back + out) + LostChunk(e, q[0], drop) == Total(o, q, e.inbound, back)
  {
    var (e', out) := Receive(e, q[0], drop);
    if out == [] {
      assert back + out == back;
    } else {
      ForeignMessage(o, q[1..], e'.inbound, back, Close);
    }
    if q[0].Data? {
      FlatAppend(e.inbound.inbox, q[0].bytes);
    }
  }

  /** The sender handles the head of the queue that returns its grants. */
  lemma GrantArrives(e: End, q: seq<Message>, i: Inbound, back: seq<Message>, drop: bool)
    requires back != [] && e.outbound.credit >= 0
    ensures var (e', out) := Receive(e, back[0], drop);
            && e'.outbound.credit >= 0
            && Total(e'.outbound, q + out, i, back[1..]) + LostGrant(e, back[0]) == Total(e.outbound, q, i, back)
  {
    var (e', out) := Receive(e, back[0], drop);
    if out == [] {
      assert q + out == q;
    } else {
      ForeignMessage(e'.outbound, q, i, back[1..], Close);
    }
  }

  // ─── Runs ────────────────────────────────────────────────────────────────────

  /** What an action of the left end takes from the window of the bytes it sends. */
  function LostAsSender(s: Net, a: Action): nat
    requires a.side.Left? && LeftEnabled(s, a)
  {
    match a
    case Local(_, section) => if section.ByReader? then LostRead(s.left.outbound, section.r) else 0
    case Deliver(_, _) => LostGrant(s.left, s.toLeft[0])
  }

  /** What it takes from the window of the bytes it receives. */
  function LostAsReceiver(s: Net, a: Action): nat
    requires a.side.Left? && LeftEnabled(s, a)
  {
    match a
    case Local(_, section) => if section.ByWriter? then LostWrite(s.left.inbound, section.w) else 0
    case Deliver(_, drop) => LostChunk(s.left, s.toLeft[0], drop)
  }

  /** What an action takes from the window of the bytes that `from` sends. */
  function Lost(s: Net, a: Action, from: Side): nat
    requires Enabled(s, a)
  {
    if a.side.Left? then (if from.Left? then LostAsSender(s, a) else LostAsReceiver(s, a))
    else (if from.Right? then LostAsSender(Swap(s), Mirror(a)) else LostAsReceiver(Swap(s), Mirror(a)))
  }

  function LostIn(s: Net, run: seq<Action>, from: Side): nat
    requires Feasible(s, run)
    decreases |run|
  {
    if run == [] then 0 else Lost(s, run[0], from) + LostIn(Apply(s, run[0]), run[1..], from)
  }

  /** Every action of the run leaves the window whole: no Read fails with a reserve, no write
      fails, no chunk is refused, no grant comes too late. */
  predicate Lossless(s: Net, run: seq<Action>, from: Side)
    requires Feasible(s, run)
    decreases |run|
  {
    run == [] || (Lost(s, run[0], from) == 0 && Lossless(Apply(s, run[0]), run[1..], from))
  }

  lemma {:induction false} LosslessLosesNothing(s: Net, run: seq<Action>, from: Side)
    requires Feasible(s, run)
    ensures Lossless(s, run, from) <==> LostIn(s, run, from) == 0
    decreases |run|
  {
    if run != [] {
      LosslessLosesNothing(Apply(s, run[0]), run[1..], from);
    }
  }

  function WindowOfSide(s: Net, from: Side): int {
    if from.Left? then Total(s.left.outbound, s.toRight, s.right.inbound, s.toLeft)
    else Total(s.right.outbound, s.toLeft, s.left.inbound, s.toRight)
  }

  lemma LeftSpends(s: Net, a: Action)
    requires CreditInv(s) && a.side.Left? && Enabled(s, a)
    ensures CreditInv(Apply(s, a))
    ensures WindowOfSide(Apply(s, a), Left) + LostAsSender(s, a) == WindowOfSide(s, Left)
    ensures WindowOfSide(Apply(s, a), Right) + LostAsReceiver(s, a) == WindowOfSide(s, Right)
  {
    match a {
      case Local(_, section) =>
        var out := Run(s.left, section).1;
        if out == [] {
          assert s.toRight + out == s.toRight;
        } else {
          ForeignMessage(s.left.outbound, s.toRight, s.right.inbound, s.toLeft, out[0]);
          ForeignMessage(s.right.outbound, s.toLeft, s.left.inbound, s.toRight, out[0]);
        }
        match section {
          case ByReader(r) => ReaderSpends(s.left.outbound, s.left.life, r, s.toRight, s.right.inbound, s.toLeft);
          case ByWriter(w) => WriterSpends(s.right.outbound, s.toLeft, s.left.inbound, s.left.life, w, s.toRight);
          case ByLife(_) =>
        }
      case Deliver(_, drop) =>
        DeliverySpends(s.right.outbound, s.toLeft, s.left, s.toRight, drop);
        GrantArrives(s.left, s.toRight, s.right.inbound, s.toLeft, drop);
    }
  }

  lemma StepSpends(s: Net, a: Action, from: Side)
    requires CreditInv(s) && Enabled(s, a)
    ensures CreditInv(Apply(s, a)) && WindowOfSide(Apply(s, a), from) + Lost(s, a, from) == WindowOfSide(s, from)
  {
    if a.side.Left? {
      LeftSpends(s, a);
    } else {
      LeftSpends(Swap(s), Mirror(a));
    }
  }

  lemma {:induction false} RunSpends(s: Net, run: seq<Action>, from: Side)
    requires CreditInv(s) && Feasible(s, run)
    ensures CreditInv(After(s, run)) && WindowOfSide(After(s, run), from) + LostIn(s, run, from) == WindowOfSide(s, from)
    decreases |run|
  {
    if run != [] {
      StepSpends(s, run[0], from);
      RunSpends(Apply(s, run[0]), run[1..], from);
    }
  }

  lemma StartHasCredit(leftInput: seq<byte>, rightInput: seq<byte>)
    ensures CreditInv(Start(true, true, leftInput, rightInput))
    ensures forall from: Side :: WindowOfSide(Start(true, true, leftInput, rightInput), from) == WINDOW_SIZE
  {
  }

  /** Credit conservation, over every run with flow control on both ends: credit, reserve,
      bytes in transit, in the inbox and in hand, grants due and grants in transit make up the
      window, less exactly what failed reads, failed writes, refused chunks and late grants
      took out. The window is whole if and only if nothing of the kind happened. */
  lemma {:induction false} CreditConserved(leftInput: seq<byte>, rightInput: seq<byte>, run: seq<Action>, from: Side)
    requires Feasible(Start(true, true, leftInput, rightInput), run)
    ensures var start := Start(true, true, leftInput, rightInput);
            && WindowOfSide(After(start, run), from) + LostIn(start, run, from) == 262144
            && (WindowOfSide(After(start, run), from) == 262144 <==> Lossless(start, run, from))
  {
    var start := Start(true, true, leftInput, rightInput);
    StartHasCredit(leftInput, rightInput);
    RunSpends(start, run, from);
    LosslessLosesNothing(start, run, from);
  }

  /** So in every such run, whatever is aborted, dropped or reset, credit is never negative and
      the bytes in flight never exceed the window. */
  lemma {:induction false} WindowNeverExceeded(leftInput: seq<byte>, rightInput: seq<byte>, run: seq<Action>)
    requires Feasible(Start(true, true, leftInput, rightInput), run)
    ensures var s := After(Start(true, true, leftInput, rightInput), run);
            && 0 <= s.left.outbound.credit && 0 <= s.right.outbound.credit
            && WindowOfSide(s, Left) <= WINDOW_SIZE && WindowOfSide(s, Right) <= WINDOW_SIZE
            && |DataOf(s.toRight)| + |Flat(s.right.inbound.inbox)| + |InHand(s.right.inbound)| <= WINDOW_SIZE
            && |DataOf(s.toLeft)| + |Flat(s.left.inbound.inbox)| + |InHand(s.left.inbound)| <= WINDOW_SIZE
  {
    StartHasCredit(leftInput, rightInput);
    RunSpends(Start(true, true, leftInput, rightInput), run, Left);
  }

  /** A failed write is never made good: the opposite reader goes on asking for credit, of a
      stream that is registered and open, with less than a window to come. */
  lemma FailedWriteLeavesLess(input: seq<byte>, rightInput: seq<byte>) returns (run: seq<Action>)
    requires input != []
    ensures Feasible(Start(true, true, input, rightInput), run)
    ensures var s := After(Start(true, true, input, rightInput), run);
            && s.left.outbound.reader.AwaitCredit? && s.left.life == Life(false, false, true, false)
            && WindowOfSide(s, Left) == WINDOW_SIZE - 1
  {
    var start := Start(true, true, input, rightInput);
    run := [];
    assert [] + [Local(Left, ByReader(TakeCredit))] == [Local(Left, ByReader(TakeCredit))];
    RunExtends(start, run, Local(Left, ByReader(TakeCredit)));
    run := run + [Local(Left, ByReader(TakeCredit))];
    RunExtends(start, run, Local(Left, ByReader(Read(1, false))));
    run := run + [Local(Left, ByReader(Read(1, false)))];
    RunExtends(start, run, Local(Left, ByReader(Refund)));
    run := run + [Local(Left, ByReader(Refund))];
    RunExtends(start, run, Deliver(Right, false));
    run := run + [Deliver(Right, false)];
    RunExtends(start, run, Local(Right, ByWriter(TakeChunk)));
    run := run + [Local(Right, ByWriter(TakeChunk))];
    RunExtends(start, run, Local(Right, ByWriter(WriteFail(0))));
    run := run + [Local(Right, ByWriter(WriteFail(0)))];
  }
}
