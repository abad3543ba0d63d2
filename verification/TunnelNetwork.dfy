/** Two ends of one stream joined by two FIFO message queues. */
module TunnelNetwork {
  import opened Basics
  import opened TunnelStream

  datatype Side = Left | Right

  /** `toRight` holds what the left end emitted and the right end has not handled yet. */
  datatype Net = Net(left: End, right: End, toRight: seq<Message>, toLeft: seq<Message>)

  datatype Action =
    | Local(side: Side, section: Section)
    | Deliver(side: Side, drop: bool)

  /** The same network seen from the other end. */
  function Swap(s: Net): Net {
    Net(s.right, s.left, s.toLeft, s.toRight)
  }

  function Mirror(a: Action): Action {
    match a
    case Local(side, section) => Local(if side.Left? then Right else Left, section)
    case Deliver(side, drop) => Deliver(if side.Left? then Right else Left, drop)
  }

  predicate LeftEnabled(s: Net, a: Action)
    requires a.side.Left?
  {
    match a
    case Local(_, section) => CanRun(s.left, section)
    case Deliver(_, _) => s.toLeft != [] && CanReceive(s.left)
  }

  function LeftApply(s: Net, a: Action): Net
    requires a.side.Left? && LeftEnabled(s, a)
  {
    match a
    case Local(_, section) =>
      var (e, out) := Run(s.left, section);
      s.(left := e, toRight := s.toRight + out)
    case Deliver(_, drop) =>
      var (e, out) := Receive(s.left, s.toLeft[0], drop);
      s.(left := e, toLeft := s.toLeft[1..], toRight := s.toRight + out)
  }

  predicate Enabled(s: Net, a: Action) {
    if a.side.Left? then LeftEnabled(s, a) else LeftEnabled(Swap(s), Mirror(a))
  }

  function Apply(s: Net, a: Action): Net
    requires Enabled(s, a)
  {
    if a.side.Left? then LeftApply(s, a) else Swap(LeftApply(Swap(s), Mirror(a)))
  }

  function Start(leftFc: bool, rightFc: bool, leftInput: seq<byte>, rightInput: seq<byte>): Net {
    Net(NewEnd(leftFc, leftInput), NewEnd(rightFc, rightInput), [], [])
  }

  /** A schedule whose every action is enabled when its turn comes. */
  predicate Feasible(s: Net, run: seq<Action>)
    decreases |run|
  {
    run == [] || (Enabled(s, run[0]) && Feasible(Apply(s, run[0]), run[1..]))
  }

  function After(s: Net, run: seq<Action>): Net
    requires Feasible(s, run)
    decreases |run|
  {
    if run == [] then s else After(Apply(s, run[0]), run[1..])
  }

  lemma {:induction false} RunConcat(s: Net, r1: seq<Action>, r2: seq<Action>)
    requires Feasible(s, r1) && Feasible(After(s, r1), r2)
    ensures Feasible(s, r1 + r2) && After(s, r1 + r2) == After(After(s, r1), r2)
    decreases |r1|
  {
    if r1 == [] {
      assert r1 + r2 == r2;
    } else {
      assert (r1 + r2)[0] == r1[0] && (r1 + r2)[1..] == r1[1..] + r2;
      RunConcat(Apply(s, r1[0]), r1[1..], r2);
    }
  }

  /** One more action at the end of a run. */
  lemma RunExtends(s: Net, run: seq<Action>, a: Action)
    requires Feasible(s, run) && Enabled(After(s, run), a)
    ensures Feasible(s, run + [a]) && After(s, run + [a]) == Apply(After(s, run), a)
  {
    var last := After(s, run);
    assert Feasible(Apply(last, a), [a][1..]);
    RunConcat(s, run, [a]);
  }

  // What a queue carries.

  function Flat(chunks: seq<Chunk>): seq<byte> {
    if chunks == [] then [] else chunks[0] + Flat(chunks[1..])
  }

  function DataOf(q: seq<Message>): seq<byte> {
    if q == [] then []
    else (if q[0].Data? then q[0].bytes else []) + DataOf(q[1..])
  }

  function WindowOf(q: seq<Message>): nat {
    if q == [] then 0
    else (if q[0].Window? then q[0].count else 0) + WindowOf(q[1..])
  }

  lemma {:induction false} FlatAppend(chunks: seq<Chunk>, c: Chunk)
    ensures Flat(chunks + [c]) == Flat(chunks) + c
  {
    if chunks == [] {
      assert chunks + [c] == [c];
      assert Flat([c]) == c + Flat([]);
    } else {
      assert (chunks + [c])[1..] == chunks[1..] + [c];
      FlatAppend(chunks[1..], c);
    }
  }

  lemma {:induction false} QueueAppend(q: seq<Message>, m: Message)
    ensures DataOf(q + [m]) == DataOf(q) + (if m.Data? then m.bytes else [])
    ensures WindowOf(q + [m]) == WindowOf(q) + (if m.Window? then m.count else 0)
  {
    if q == [] {
      assert q + [m] == [m];
      assert [m][1..] == [];
    } else {
      assert (q + [m])[1..] == q[1..] + [m];
      QueueAppend(q[1..], m);
    }
  }

  /** The chunk the writer holds. */
  function InHand(i: Inbound): seq<byte> {
    if i.writer.Writing? then i.writer.chunk else []
  }

  /** The bytes an end has accepted, in order: written, held by the writer, in the inbox. */
  function Landed(i: Inbound): seq<byte> {
    i.written + (InHand(i) + Flat(i.inbox))
  }

  // Two facts about sequences that the proofs cite by name.

  lemma Assoc(a: seq<byte>, b: seq<byte>, c: seq<byte>)
    ensures a + (b + c) == a + b + c
  {
  }

  lemma PrefixExtends(a: seq<byte>, b: seq<byte>, c: seq<byte>)
    requires a <= b
    ensures a <= b + c
  {
  }
}
