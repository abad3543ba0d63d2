/** Flow control is negotiated with one flag in tunnel_open and one in tunnel_open_ack. When
    the second is lost on the way, the destination gates its reader against a source that
    grants nothing. */
module TunnelNegotiation {
  import opened Basics
  import opened TunnelStream
  import opened TunnelNetwork
  import opened TunnelCredit
  import opened TunnelProgress

  /** The source advertises flow control; each flag may or may not survive the relay. The
      destination adopts the flag it sees and echoes it; the source adopts the echo. */
  function DestFc(openKept: bool): bool {
    openKept
  }

  function SourceFc(openKept: bool, ackKept: bool): bool {
    DestFc(openKept) && ackKept
  }

  /** The gated reader's credit is the window less what it has taken. */
  predicate Spending(o: Outbound) {
    && o.credit >= 0
    && |o.taken| <= WINDOW_SIZE
    && (Live(o.reader) ==> o.credit + Held(o.reader) + |o.taken| == WINDOW_SIZE)
  }

  /** Only the right end gates its reader, and the left end grants nothing. */
  predicate Gated(s: Net) {
    && !s.left.fc && s.right.fc
    && WindowOf(s.toRight) == 0
    && !s.left.inbound.writer.Granting?
    && Spending(s.right.outbound)
  }

  lemma UngatedSectionGrantsNothing(e: End, section: Section, q: seq<Message>)
    requires !e.fc && CanRun(e, section) && !e.inbound.writer.Granting?
    ensures var (e', out) := Run(e, section);
            !e'.fc && !e'.inbound.writer.Granting? && WindowOf(q + out) == WindowOf(q)
  {
    var out := Run(e, section).1;
    if out == [] {
      assert q + out == q;
    } else {
      QueueAppend(q, out[0]);
    }
  }

  lemma GatedReaderSpends(o: Outbound, life: Life, r: ReaderStep)
    requires Spending(o) && CanRead(o, true, life, r)
    ensures Spending(RunReader(o, true, life, r).0)
  {
  }

  lemma NothingIsGranted(e: End, q: seq<Message>, drop: bool)
    requires q != [] && WindowOf(q) == 0 && Spending(e.outbound)
    ensures Spending(Receive(e, q[0], drop).0.outbound) && WindowOf(q[1..]) == 0
    ensures Receive(e, q[0], drop).0.fc == e.fc
  {
  }

  lemma LeftKeepsGated(s: Net, a: Action)
    requires Gated(s) && a.side.Left? && Enabled(s, a) && Orderly(s, a)
    ensures Gated(Apply(s, a))
  {
    if a.Local? {
      UngatedSectionGrantsNothing(s.left, a.section, s.toRight);
    } else {
      assert s.toRight + [] == s.toRight;
    }
  }

  lemma RightKeepsGated(s: Net, a: Action)
    requires Gated(s) && a.side.Right? && Enabled(s, a) && Orderly(s, a)
    ensures Gated(Apply(s, a))
  {
    var t := Apply(s, a);
    assert t.left == s.left;
    if a.Deliver? {
      NothingIsGranted(s.right, s.toRight, a.drop);
    } else {
      assert t.toRight == s.toRight;
      if a.section.ByReader? {
        GatedReaderSpends(s.right.outbound, s.right.life, a.section.r);
      }
    }
  }

  lemma {:induction false} RunKeepsGated(s: Net, run: seq<Action>)
    requires OrderlyInv(s) && Gated(s) && Feasible(s, run) && OrderlyRun(s, run)
    ensures Gated(After(s, run)) && OrderlyInv(After(s, run))
    decreases |run|
  {
    if run != [] {
      if run[0].side.Left? {
        LeftKeepsGated(s, run[0]);
      } else {
        RightKeepsGated(s, run[0]);
      }
      StepKeepsOrderly(s, run[0]);
      RunKeepsGated(Apply(s, run[0]), run[1..]);
    }
  }

  /** The reader knows that its input has ended. */
  predicate EndSeen(r: Reader) {
    match r
    case AwaitCredit => false
    case Reading(_) => false
    case Refunding(_, last) => last
    case _ => true
  }

  /** The destination's last read reports the end of the input together with data. */
  predicate ReadsEndWithData(run: seq<Action>) {
    exists k :: 0 <= k < |run| && IsLastRead(run[k])
  }

  predicate IsLastRead(a: Action) {
    a.Local? && a.side.Right? && a.section.ByReader? && a.section.r.Read? && a.section.r.last
  }

  /** The input has exactly one window's bytes. */
  predicate OneWindow(o: Outbound) {
    |o.taken| + |o.unread| == WINDOW_SIZE
  }

  /** With an input of exactly one window there is no credit left to learn its end by a read of
      its own. */
  lemma StepSeesEnd(s: Net, a: Action)
    requires OrderlyInv(s) && Gated(s) && Enabled(s, a) && Orderly(s, a)
    requires OneWindow(s.right.outbound)
    ensures var o, o' := s.right.outbound, Apply(s, a).right.outbound;
            OneWindow(o') && (EndSeen(o'.reader) <==> EndSeen(o.reader) || IsLastRead(a))
  {
    if a.side.Left? {
      assert Apply(s, a).right == s.right;
    } else {
      match a {
        case Local(_, section) =>
          if section.ByReader? {
            ReaderSeesEnd(s.right.outbound, s.right.life, section.r);
          }
        case Deliver(_, drop) => DeliveryKeepsReader(s.right, s.toRight[0], drop);
      }
    }
  }

  lemma ReaderSeesEnd(o: Outbound, life: Life, r: ReaderStep)
    requires ReaderInv(o) && Spending(o) && OneWindow(o) && !life.done && CanRead(o, true, life, r)
    requires r.ReadEnd? ==> o.unread == []
    ensures var o' := RunReader(o, true, life, r).0;
            OneWindow(o') && (EndSeen(o'.reader) <==> EndSeen(o.reader) || (r.Read? && r.last))
  {
  }

  lemma DeliveryKeepsReader(e: End, m: Message, drop: bool)
    ensures var o, o' := e.outbound, Receive(e, m, drop).0.outbound;
            o'.reader == o.reader && o'.taken == o.taken && o'.unread == o.unread
  {
  }

  lemma {:induction false} RunSeesEnd(s: Net, run: seq<Action>)
    requires OrderlyInv(s) && Gated(s) && Feasible(s, run) && OrderlyRun(s, run)
    requires OneWindow(s.right.outbound)
    ensures EndSeen(After(s, run).right.outbound.reader) <==> EndSeen(s.right.outbound.reader) || ReadsEndWithData(run)
    decreases |run|
  {
    if run != [] {
      StepSeesEnd(s, run[0]);
      RunKeepsGated(s, [run[0]]);
      assert [run[0]][1..] == [];
      assert After(s, [run[0]]) == Apply(s, run[0]);
      RunSeesEnd(Apply(s, run[0]), run[1..]);
      if ReadsEndWithData(run[1..]) {
        var k :| 0 <= k < |run[1..]| && IsLastRead(run[1..][k]);
        assert IsLastRead(run[k + 1]);
      }
      if ReadsEndWithData(run) {
        var k :| 0 <= k < |run| && IsLastRead(run[k]);
        assert k > 0 ==> run[1..][k - 1] == run[k];
      }
    }
  }

  /** With the acknowledgement's flag lost, an orderly run that cannot go on has finished when
      the destination has less than a window to send, and has hung after exactly one window
      when it has more. With exactly one window it has delivered all of it, and has finished if
      and only if the last read reported the end of the input together with data. */
  lemma {:induction false} LostAckFlagHangs(sourceInput: seq<byte>, destInput: seq<byte>, run: seq<Action>)
    requires Feasible(Start(SourceFc(true, false), DestFc(true), sourceInput, destInput), run)
    requires OrderlyRun(Start(SourceFc(true, false), DestFc(true), sourceInput, destInput), run)
    requires Stuck(After(Start(SourceFc(true, false), DestFc(true), sourceInput, destInput), run))
    ensures var s := After(Start(SourceFc(true, false), DestFc(true), sourceInput, destInput), run);
            && (|destInput| < WINDOW_SIZE ==> Finished(s) && s.left.inbound.written == destInput)
            && (|destInput| > WINDOW_SIZE ==>
                  !Finished(s) && s.left.inbound.written == destInput[..WINDOW_SIZE] && Starved(s.right))
            && (|destInput| == WINDOW_SIZE ==>
                  && s.left.inbound.written == destInput
                  && (Finished(s) <==> ReadsEndWithData(run)) && (!Finished(s) ==> Starved(s.right)))
  {
    var start := Start(false, true, sourceInput, destInput);
    var s := After(start, run);
    StartIsOrderly(false, true, sourceInput, destInput);
    RunKeepsGated(start, run);
    RunKeepsInput(start, run, sourceInput, destInput);
    StuckShape(s);
    if |destInput| == WINDOW_SIZE {
      RunSeesEnd(start, run);
    }
    var o, i := s.right.outbound, s.left.inbound;
    if Finished(s) {
      assert o.taken + [] == o.taken;
      assert |o.taken| == |destInput|;
    } else {
      assert Starved(s.right);
      assert |o.taken| == WINDOW_SIZE;
      assert o.taken == destInput[..WINDOW_SIZE];
      assert !o.closeSent && i.writer.AwaitChunk? && i.inbox == [];
      assert Landed(i) + [] == i.written;
    }
  }

  /** For which fates of the two flags every orderly run, on any input, ends with both sides'
      input delivered: exactly those in which the echo survives or was never sent. */
  lemma CompletesUnlessEchoLost(openKept: bool, ackKept: bool)
    ensures (!openKept || ackKept) <==>
            forall sourceInput: seq<byte>, destInput: seq<byte>, run: seq<Action> ::
              CompletesWith(SourceFc(openKept, ackKept), DestFc(openKept), sourceInput, destInput, run)
  {
    var f, g := SourceFc(openKept, ackKept), DestFc(openKept);
    if !openKept || ackKept {
      assert f == g;
      forall sourceInput: seq<byte>, destInput: seq<byte>, run: seq<Action>
        ensures CompletesWith(f, g, sourceInput, destInput, run)
      {
        if IsMaximal(f, g, sourceInput, destInput, run) {
          OrderlyRunsComplete(f, sourceInput, destInput, run);
        }
      }
    } else {
      var input: seq<byte> := seq(WINDOW_SIZE + 1, _ => 0);
      StartIsOrderly(f, g, [], input);
      var run := RunToTheEnd(Start(f, g, [], input));
      LostAckFlagHangs([], input, run);
      assert !CompletesWith(f, g, [], input, run);
    }
  }

  /** An orderly run from the start that cannot be continued. */
  ghost predicate IsMaximal(f: bool, g: bool, sourceInput: seq<byte>, destInput: seq<byte>, run: seq<Action>) {
    && Feasible(Start(f, g, sourceInput, destInput), run)
    && OrderlyRun(Start(f, g, sourceInput, destInput), run)
    && Stuck(After(Start(f, g, sourceInput, destInput), run))
  }

  ghost predicate CompletesWith(f: bool, g: bool, sourceInput: seq<byte>, destInput: seq<byte>, run: seq<Action>) {
    IsMaximal(f, g, sourceInput, destInput, run) ==>
      var s := After(Start(f, g, sourceInput, destInput), run);
      Finished(s) && s.right.inbound.written == sourceInput && s.left.inbound.written == destInput
  }
}
