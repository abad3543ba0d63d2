/** When the inbox can overflow, and what a reset does to a stream. */
module TunnelOverflow {
  import opened Basics
  import opened TunnelStream
  import opened TunnelNetwork
  import opened TunnelCredit

  // INBOX_BUFFER chunks of this size are exactly one window.
  const MIN_SAFE_CHUNK: nat := 128

  predicate BigInbox(inbox: seq<Chunk>) {
    forall k :: 0 <= k < |inbox| ==> |inbox[k]| >= MIN_SAFE_CHUNK
  }

  predicate BigQueue(q: seq<Message>) {
    forall k :: 0 <= k < |q| ==> (q[k].Data? ==> |q[k].bytes| >= MIN_SAFE_CHUNK)
  }

  /** The bytes the action reads from a connection, if it is a read. */
  function ReadSize(a: Action): (n: nat) {
    if a.Local? && a.section.ByReader? && a.section.r.Read? then a.section.r.n else 0
  }

  predicate IsBig(a: Action) {
    ReadSize(a) != 0 ==> ReadSize(a) >= MIN_SAFE_CHUNK
  }

  /** Every read of the run yields a chunk of at least MIN_SAFE_CHUNK bytes. */
  predicate BigReads(run: seq<Action>) {
    forall k :: 0 <= k < |run| ==> IsBig(run[k])
  }

  /** Every read of the run yields a chunk of exactly m bytes. */
  predicate ReadsOf(run: seq<Action>, m: nat) {
    forall k :: 0 <= k < |run| ==> ReadSize(run[k]) == 0 || ReadSize(run[k]) == m
  }

  predicate BigInv(s: Net) {
    && BigQueue(s.toLeft) && BigQueue(s.toRight)
    && BigInbox(s.left.inbound.inbox) && BigInbox(s.right.inbound.inbox)
    && !s.left.life.resetting && !s.right.life.resetting
  }

  lemma {:induction false} FlatOfBig(inbox: seq<Chunk>)
    requires BigInbox(inbox)
    ensures |Flat(inbox)| >= MIN_SAFE_CHUNK * |inbox|
  {
    if inbox != [] {
      FlatOfBig(inbox[1..]);
    }
  }

  /** A chunk in transit and the chunks in the inbox share the window. */
  lemma RoomForHead(o: Outbound, q: seq<Message>, i: Inbound, back: seq<Message>)
    requires Bounded(o, q, i, back) && BigQueue(q) && BigInbox(i.inbox)
    requires q != [] && q[0].Data?
    ensures |i.inbox| < INBOX_BUFFER
  {
    FlatOfBig(i.inbox);
    assert |DataOf(q)| >= |q[0].bytes|;
  }

  lemma EmitsBig(e: End, section: Section, q: seq<Message>)
    requires CanRun(e, section) && IsBig(Local(Left, section)) && BigQueue(q)
    ensures BigQueue(q + Run(e, section).1)
  {
  }

  lemma KeepsInboxBig(e: End, section: Section)
    requires CanRun(e, section) && BigInbox(e.inbound.inbox)
    ensures BigInbox(Run(e, section).0.inbound.inbox)
    ensures Run(e, section).0.life.resetting == e.life.resetting
  {
  }

  lemma ReceivesBig(e: End, m: Message, drop: bool)
    requires BigInbox(e.inbound.inbox) && BigQueue([m]) && !e.life.resetting
    requires m.Data? ==> |e.inbound.inbox| < INBOX_BUFFER
    ensures var (e', out) := Receive(e, m, drop);
            out == [] && BigInbox(e'.inbound.inbox) && !e'.life.resetting
  {
    assert [m][0] == m;
  }

  lemma LeftKeepsBig(s: Net, a: Action)
    requires CreditInv(s) && BigInv(s) && a.side.Left? && Enabled(s, a) && IsBig(a)
    ensures BigInv(Apply(s, a))
  {
    match a {
      case Local(_, section) =>
        EmitsBig(s.left, section, s.toRight);
        KeepsInboxBig(s.left, section);
      case Deliver(_, drop) =>
        if s.toLeft[0].Data? {
          RoomForHead(s.right.outbound, s.toLeft, s.left.inbound, s.toRight);
        }
        ReceivesBig(s.left, s.toLeft[0], drop);
        assert s.toRight + [] == s.toRight;
    }
  }

  lemma {:induction false} RunKeepsBig(s: Net, run: seq<Action>)
    requires CreditInv(s) && BigInv(s) && Feasible(s, run) && BigReads(run)
    ensures BigInv(After(s, run)) && CreditInv(After(s, run))
    decreases |run|
  {
    if run != [] {
      assert IsBig(run[0]) && BigReads(run[1..]);
      if run[0].side.Left? {
        LeftSpends(s, run[0]);
        LeftKeepsBig(s, run[0]);
      } else {
        var a := Mirror(run[0]);
        assert IsBig(a);
        LeftSpends(Swap(s), a);
        LeftKeepsBig(Swap(s), a);
      }
      RunKeepsBig(Apply(s, run[0]), run[1..]);
    }
  }

  /** With flow control on both ends and chunks of at least 128 bytes, no run, aborts
      included, ever resets a stream: an arriving chunk always finds room. */
  lemma BigChunksNeverOverflow(leftInput: seq<byte>, rightInput: seq<byte>, run: seq<Action>)
    requires Feasible(Start(true, true, leftInput, rightInput), run) && BigReads(run)
    ensures var s := After(Start(true, true, leftInput, rightInput), run);
            && !s.left.life.resetting && !s.right.life.resetting
            && (s.toLeft != [] && s.toLeft[0].Data? ==> |s.left.inbound.inbox| < INBOX_BUFFER)
            && (s.toRight != [] && s.toRight[0].Data? ==> |s.right.inbound.inbox| < INBOX_BUFFER)
  {
    var start := Start(true, true, leftInput, rightInput);
    StartHasCredit(leftInput, rightInput);
    RunKeepsBig(start, run);
    var s := After(start, run);
    if s.toLeft != [] && s.toLeft[0].Data? {
      RoomForHead(s.right.outbound, s.toLeft, s.left.inbound, s.toRight);
    }
    if s.toRight != [] && s.toRight[0].Data? {
      RoomForHead(s.left.outbound, s.toRight, s.right.inbound, s.toLeft);
    }
  }

  // ─── Smaller chunks do overflow ──────────────────────────────────────────────

  /** The left end has sent `used` bytes, all of which wait in the right end's inbox. */
  function Piled(input: seq<byte>, used: nat, inbox: seq<Chunk>, rightInput: seq<byte>): Net
    requires used <= |input|
  {
    Net(NewEnd(true, []).(outbound := Outbound(input[used..], input[..used], AwaitCredit, WINDOW_SIZE - used, false, false)),
        NewEnd(true, rightInput).(inbound := Inbound(inbox, false, AwaitChunk, [], false, false)),
        [], [])
  }

  /** The left end sends one more chunk of m bytes. */
  function SendRun(m: nat): seq<Action> {
    [Local(Left, ByReader(TakeCredit)), Local(Left, ByReader(Read(m, false))), Local(Left, ByReader(Refund))]
  }

  lemma SendOne(input: seq<byte>, used: nat, inbox: seq<Chunk>, rightInput: seq<byte>, m: nat)
    requires 0 < m <= RELAY_BUF_SIZE && used + m <= |input| && used + m <= WINDOW_SIZE
    ensures var s := Piled(input, used, inbox, rightInput);
            && Feasible(s, SendRun(m))
            && After(s, SendRun(m)) == Piled(input, used + m, inbox, rightInput).(toRight := [Data(input[used..used + m])])
  {
    var s := Piled(input, used, inbox, rightInput);
    var run := SendRun(m);
    var s1 := Apply(s, run[0]);
    var s2 := Apply(s1, run[1]);
    var s3 := Apply(s2, run[2]);
    assert run[1..] == [run[1], run[2]] && run[1..][1..] == [run[2]] && run[1..][1..][1..] == [];
    assert input[used..][..m] == input[used..used + m];
    assert input[used..][m..] == input[used + m..];
    assert input[..used] + input[used..used + m] == input[..used + m];
    assert s3 == Piled(input, used + m, inbox, rightInput).(toRight := [Data(input[used..used + m])]);
    assert Feasible(s3, []) && Feasible(s2, [run[2]]) && Feasible(s1, [run[1], run[2]]);
    assert After(s3, []) == s3 && After(s2, [run[2]]) == s3 && After(s1, [run[1], run[2]]) == s3;
  }

  /** One chunk more in the right end's inbox. */
  lemma PileOne(input: seq<byte>, used: nat, inbox: seq<Chunk>, rightInput: seq<byte>, m: nat)
    requires 0 < m <= RELAY_BUF_SIZE && used + m <= |input| && used + m <= WINDOW_SIZE && |inbox| < INBOX_BUFFER
    ensures var s, run := Piled(input, used, inbox, rightInput), SendRun(m) + [Deliver(Right, false)];
            && Feasible(s, run)
            && After(s, run) == Piled(input, used + m, inbox + [input[used..used + m]], rightInput)
  {
    SendOne(input, used, inbox, rightInput, m);
    RunExtends(Piled(input, used, inbox, rightInput), SendRun(m), Deliver(Right, false));
  }

  lemma {:induction false} PileUp(input: seq<byte>, rightInput: seq<byte>, m: nat, count: nat)
      returns (run: seq<Action>, used: nat, inbox: seq<Chunk>)
    requires 0 < m < MIN_SAFE_CHUNK && count <= INBOX_BUFFER && |input| >= (MIN_SAFE_CHUNK - 1) * (INBOX_BUFFER + 1)
    ensures used <= (MIN_SAFE_CHUNK - 1) * count && |inbox| == count
    ensures Feasible(Piled(input, 0, [], rightInput), run)
    ensures After(Piled(input, 0, [], rightInput), run) == Piled(input, used, inbox, rightInput)
    ensures ReadsOf(run, m)
  {
    if count == 0 {
      run, used, inbox := [], 0, [];
    } else {
      run, used, inbox := PileUp(input, rightInput, m, count - 1);
      PileOne(input, used, inbox, rightInput, m);
      RunConcat(Piled(input, 0, [], rightInput), run, SendRun(m) + [Deliver(Right, false)]);
      run := run + (SendRun(m) + [Deliver(Right, false)]);
      inbox := inbox + [input[used..used + m]];
      used := used + m;
    }
  }

  /** For every smaller chunk size there is a run, without a single abort, whose reads all
      yield chunks of that size and which resets the stream. */
  lemma SmallChunksOverflow(input: seq<byte>, rightInput: seq<byte>, m: nat) returns (run: seq<Action>)
    requires 0 < m < MIN_SAFE_CHUNK && |input| >= (MIN_SAFE_CHUNK - 1) * (INBOX_BUFFER + 1)
    ensures Feasible(Start(true, true, input, rightInput), run)
    ensures ReadsOf(run, m)
    ensures var s := After(Start(true, true, input, rightInput), run);
            && s.right == NewEnd(true, rightInput).(inbound := s.right.inbound, life := Life(false, false, true, true))
            && s.left.inbound == NewEnd(true, []).inbound && s.left.life == NewEnd(true, []).life && s.left.fc
            && s.toLeft == [Close]
  {
    var start := Start(true, true, input, rightInput);
    assert start == Piled(input, 0, [], rightInput) by { assert input[0..] == input && input[..0] == []; }
    var used, inbox;
    run, used, inbox := PileUp(input, rightInput, m, INBOX_BUFFER);
    SendOne(input, used, inbox, rightInput, m);
    RunConcat(start, run, SendRun(m));
    run := run + SendRun(m);
    RunExtends(start, run, Deliver(Right, false));
    run := run + [Deliver(Right, false)];
  }

  /** No run whose reads all yield at least m bytes resets a stream. */
  ghost predicate NeverResets(m: nat) {
    forall leftInput: seq<byte>, rightInput: seq<byte>, run: seq<Action> ::
      QuietRun(leftInput, rightInput, run, m)
  }

  ghost predicate QuietRun(leftInput: seq<byte>, rightInput: seq<byte>, run: seq<Action>, m: nat) {
    (forall k :: 0 <= k < |run| && ReadSize(run[k]) != 0 ==> ReadSize(run[k]) >= m)
    && Feasible(Start(true, true, leftInput, rightInput), run)
    ==> var s := After(Start(true, true, leftInput, rightInput), run);
        !s.left.life.resetting && !s.right.life.resetting
  }

  /** The inbox is large enough exactly for chunks of 128 bytes and more. */
  lemma InboxBoundIsExact(m: nat)
    ensures NeverResets(m) <==> m >= 128
  {
    if m >= MIN_SAFE_CHUNK {
      forall leftInput: seq<byte>, rightInput: seq<byte>, run: seq<Action>
        ensures QuietRun(leftInput, rightInput, run, m)
      {
        if (forall k :: 0 <= k < |run| && ReadSize(run[k]) != 0 ==> ReadSize(run[k]) >= m)
           && Feasible(Start(true, true, leftInput, rightInput), run) {
          BigChunksNeverOverflow(leftInput, rightInput, run);
        }
      }
    } else {
      var input: seq<byte> := seq((MIN_SAFE_CHUNK - 1) * (INBOX_BUFFER + 1), _ => 0);
      var run := SmallChunksOverflow(input, [], if m == 0 then 1 else m);
      assert !QuietRun(input, [], run, m);
    }
  }

  // ─── What a reset does to the half-close ─────────────────────────────────────

  /** HalfCloseMeansComplete needs its hypothesis that the sender has not reset the stream:
      the reset's tunnel_close overtakes the reader, so the peer half-closes its connection
      although the reader takes in, and emits, one more byte. */
  lemma ResetTruncates(input: seq<byte>) returns (run: seq<Action>)
    requires |input| >= (MIN_SAFE_CHUNK - 1) * (INBOX_BUFFER + 1)
    ensures Feasible(Start(true, true, input, [7]), run)
    ensures var s := After(Start(true, true, input, [7]), run);
            s.left.inbound.halfClosed && s.left.inbound.written == [] && s.right.outbound.taken == [7]
  {
    var start := Start(true, true, input, [7]);
    run := SmallChunksOverflow(input, [7], 1);
    RunExtends(start, run, Local(Right, ByReader(TakeCredit)));
    run := run + [Local(Right, ByReader(TakeCredit))];
    RunExtends(start, run, Local(Right, ByReader(Read(1, false))));
    run := run + [Local(Right, ByReader(Read(1, false)))];
    RunExtends(start, run, Deliver(Left, false));
    run := run + [Deliver(Left, false)];
    RunExtends(start, run, Local(Left, ByWriter(SeeDrained)));
    run := run + [Local(Left, ByWriter(SeeDrained))];
  }
}
