/** How often a file is attempted, told from the messages of a run: the headers that the source
    emits and the verdicts that it takes. */
module MigrationAttempts {
  import opened MigrationModel
  import opened MigrationSession
  import opened MigrationInvariant
  import opened MigrationSteps
  import opened MigrationResults
  import opened MigrationReads

  /** The path announced last, and for every path the headers emitted and the verdicts taken. */
  datatype Tally = Tally(last: string, headers: multiset<string>, refusals: multiset<string>, accepts: multiset<string>)

  const NO_TALLY := Tally("", multiset{}, multiset{}, multiset{})

  /** What the source emits in the action. */
  function EmittedBy(j: Job, s: Session, a: Action): seq<ToDst>
    requires Enabled(j, s, a)
  {
    if a.Source? then StepSrc(j, s.src, s.chan, a.step).2 else []
  }

  function Noted(j: Job, s: Session, a: Action, t: Tally): Tally
    requires Enabled(j, s, a)
  {
    var out := EmittedBy(j, s, a);
    if out != [] && out[0].Header? then
      t.(last := out[0].info.path, headers := t.headers + multiset{out[0].info.path})
    else if a == Source(TakeFileAck) then
      if s.chan.fileAck[0].ok then t.(accepts := t.accepts + multiset{t.last})
      else t.(refusals := t.refusals + multiset{t.last})
    else t
  }

  function TallyOf(j: Job, s: Session, run: seq<Action>, t: Tally): Tally
    requires Feasible(j, s, run)
    decreases |run|
  {
    if run == [] then t else TallyOf(j, Apply(j, s, run[0]), run[1..], Noted(j, s, run[0], t))
  }

  // ─── What a run keeps ────────────────────────────────────────────────────────

  predicate GivenUp(s: Src, rel: string) {
    Warning("TRANSFER_CHUNK_MAX_RETRIES", rel) in s.warnings
  }

  /** The numbers of a file whose turn has come or is over. */
  predicate Counted(j: Job, s: Src, t: Tally, k: nat)
    requires k < |j.files|
  {
    var rel := j.files[k].rel;
    var h, f, a := t.headers[rel], t.refusals[rel], t.accepts[rel];
    if k < s.next then
      k < |s.outcomes| &&
      match s.outcomes[k]
      case Skipped => h == 0 && f == 0 && a == 0 && !GivenUp(s, rel)
      case Accepted(_) => h == f + 1 && h <= 3 && a == 1 && !GivenUp(s, rel)
      case Warned => h == f && h <= 3 && a == 0 && (GivenUp(s, rel) <==> h == 3)
    else if k == s.next then
      a == 0 && !GivenUp(s, rel) &&
      match s.phase
      case Attempting(n) => h == n && f == n
      case Drained(n) => h == n && f == n
      case Streaming(n, _) => h == n + 1 && f == n && t.last == rel
      case Awaiting(n) => h == n + 1 && f == n && t.last == rel
      case Failed => f < 3 && (h == f || h == f + 1)
      case _ => h == 0 && f == 0
    else
      h == 0 && f == 0 && a == 0 && !GivenUp(s, rel)
  }

  predicate TallyInv(j: Job, s: Session, t: Tally) {
    forall k :: 0 <= k < |j.files| ==> Counted(j, s.src, t, k)
  }

  /** Every warning is about a file whose turn is over. */
  lemma WarningIsPast(j: Job, s: Src, w: Warning)
    requires Books(j, s) && w in s.warnings
    ensures exists k :: 0 <= k < s.next && j.files[k].rel == w.file
  {
    var i :| 0 <= i < |s.warnings| && s.warnings[i] == w;
    assert FilesOf(s.warnings)[i] == w.file;
    WarnedIsListed(j.files, s.outcomes, w.file);
  }

  lemma NotYetWarned(j: Job, s: Session, k: nat)
    requires Inv(j, s) && s.src.next <= k < |j.files|
    ensures forall w :: w in s.src.warnings ==> w.file != j.files[k].rel
    ensures !HasWarning(s.src, j.files[k].rel)
  {
    forall w | w in s.src.warnings ensures w.file != j.files[k].rel {
      WarningIsPast(j, s.src, w);
    }
    forall i | 0 <= i < |s.src.warnings| ensures FilesOf(s.src.warnings)[i] != j.files[k].rel {
      assert s.src.warnings[i] in s.src.warnings;
    }
  }

  lemma OtherFiles(j: Job, destPath: string, k: nat, l: nat)
    requires ValidJob(j, destPath) && k < |j.files| && l < |j.files| && k != l
    ensures j.files[k].rel != j.files[l].rel
  {
  }

  /** A step of the source that neither announces nor takes a verdict. */
  lemma PlainStepKeepsCount(j: Job, s: Session, a: SrcStep, t: Tally, k: nat)
    requires Inv(j, s) && Enabled(j, s, Source(a)) && !a.SendHeader? && !a.TakeFileAck? && !a.Vanish?
    requires k < |j.files| && Counted(j, s.src, t, k)
    ensures Noted(j, s, Source(a), t) == t && Counted(j, Apply(j, s, Source(a)).src, t, k)
  {
  }

  lemma WarningAdds(s: Src, s': Src, w: Warning, rel: string)
    requires s'.warnings == s.warnings + [w]
    ensures GivenUp(s', rel) <==> GivenUp(s, rel) || w == Warning("TRANSFER_CHUNK_MAX_RETRIES", rel)
  {
  }

  lemma CodesDiffer()
    ensures FILE_MISSING != "TRANSFER_CHUNK_MAX_RETRIES"
  {
    assert FILE_MISSING[9] == 'S';
  }

  lemma VanishKeepsCount(j: Job, s: Session, t: Tally, k: nat)
    requires Inv(j, s) && Enabled(j, s, Source(Vanish))
    requires k < |j.files| && Counted(j, s.src, t, k)
    ensures Noted(j, s, Source(Vanish), t) == t && Counted(j, Apply(j, s, Source(Vanish)).src, t, k)
  {
    var s' := Apply(j, s, Source(Vanish));
    CodesDiffer();
    WarningAdds(s.src, s'.src, Warning(FILE_MISSING, j.files[s.src.next].rel), j.files[k].rel);
  }

  lemma HeaderKeepsCount(j: Job, s: Session, content: Content, t: Tally, k: nat)
    requires Inv(j, s) && Enabled(j, s, Source(SendHeader(content)))
    requires k < |j.files| && Counted(j, s.src, t, k)
    ensures var a := Source(SendHeader(content)); Counted(j, Apply(j, s, a).src, Noted(j, s, a, t), k)
  {
    if k != s.src.next {
      OtherFiles(j, s.dst.destPath, k, s.src.next);
    }
  }

  lemma AcceptKeepsCount(j: Job, s: Session, t: Tally, k: nat)
    requires Inv(j, s) && Enabled(j, s, Source(TakeFileAck)) && s.chan.fileAck[0].ok
    requires k < |j.files| && Counted(j, s.src, t, k) && t.last == j.files[s.src.next].rel
    ensures var a := Source(TakeFileAck); Counted(j, Apply(j, s, a).src, Noted(j, s, a, t), k)
  {
    if k != s.src.next {
      OtherFiles(j, s.dst.destPath, k, s.src.next);
    }
  }

  /** The refused file itself. */
  lemma RefusedIsCounted(j: Job, s: Session, t: Tally)
    requires Inv(j, s) && Enabled(j, s, Source(TakeFileAck)) && !s.chan.fileAck[0].ok
    requires Counted(j, s.src, t, s.src.next)
    ensures var a := Source(TakeFileAck); Counted(j, Apply(j, s, a).src, Noted(j, s, a, t), s.src.next)
  {
    var w := Warning(MAX_RETRIES, j.files[s.src.next].rel);
    assert w in s.src.warnings + [w];
  }

  lemma RefuseKeepsCount(j: Job, s: Session, t: Tally, k: nat)
    requires Inv(j, s) && Enabled(j, s, Source(TakeFileAck)) && !s.chan.fileAck[0].ok
    requires k < |j.files| && Counted(j, s.src, t, k) && t.last == j.files[s.src.next].rel && k != s.src.next
    ensures var a := Source(TakeFileAck); Counted(j, Apply(j, s, a).src, Noted(j, s, a, t), k)
  {
    OtherFiles(j, s.dst.destPath, k, s.src.next);
    var s' := Apply(j, s, Source(TakeFileAck));
    if s'.src.warnings != s.src.warnings {
      WarningAdds(s.src, s'.src, Warning(MAX_RETRIES, j.files[s.src.next].rel), j.files[k].rel);
    }
  }

  lemma VerdictKeepsCount(j: Job, s: Session, t: Tally, k: nat)
    requires Inv(j, s) && Enabled(j, s, Source(TakeFileAck)) && TallyInv(j, s, t) && k < |j.files|
    ensures var a := Source(TakeFileAck); Counted(j, Apply(j, s, a).src, Noted(j, s, a, t), k)
  {
    assert Counted(j, s.src, t, s.src.next) && Counted(j, s.src, t, k);
    if s.chan.fileAck[0].ok {
      AcceptKeepsCount(j, s, t, k);
    } else if k == s.src.next {
      RefusedIsCounted(j, s, t);
    } else {
      RefuseKeepsCount(j, s, t, k);
    }
  }

  lemma StepKeepsTally(j: Job, s: Session, a: Action, t: Tally)
    requires Inv(j, s) && Enabled(j, s, a) && TallyInv(j, s, t)
    ensures TallyInv(j, Apply(j, s, a), Noted(j, s, a, t))
  {
    forall k | 0 <= k < |j.files| ensures Counted(j, Apply(j, s, a).src, Noted(j, s, a, t), k) {
      if a.Source? {
        match a.step {
          case SendHeader(content) => HeaderKeepsCount(j, s, content, t, k);
          case Vanish => VanishKeepsCount(j, s, t, k);
          case TakeFileAck => VerdictKeepsCount(j, s, t, k);
          case _ => PlainStepKeepsCount(j, s, a.step, t, k);
        }
      }
    }
  }

  lemma {:induction false} RunKeepsTally(j: Job, s: Session, run: seq<Action>, t: Tally)
    requires Inv(j, s) && Feasible(j, s, run) && TallyInv(j, s, t)
    ensures Inv(j, After(j, s, run)) && TallyInv(j, After(j, s, run), TallyOf(j, s, run, t))
    ensures forall p :: t.headers[p] <= TallyOf(j, s, run, t).headers[p] && t.refusals[p] <= TallyOf(j, s, run, t).refusals[p]
    decreases |run|
  {
    if run != [] {
      StepKeepsInv(j, s, run[0]);
      StepKeepsTally(j, s, run[0], t);
      RunKeepsTally(j, Apply(j, s, run[0]), run[1..], Noted(j, s, run[0], t));
    }
  }

  // ─── Three attempts ──────────────────────────────────────────────────────────

  /** Over all runs: a file has the warning for too many attempts if and only if its header was
      emitted exactly three times and all three verdicts were refusals. It is never announced
      more often, and has been accepted if and only if one verdict on it was an acceptance. */
  lemma {:induction false} GivenUpAfterThree(j: Job, destPath: string, completed: map<string, FileInfo>, store: Store,
                                             run: seq<Action>, k: nat)
    requires ValidJob(j, destPath) && Feasible(j, StartSession(destPath, completed, store), run) && k < |j.files|
    ensures var start := StartSession(destPath, completed, store);
            var s, t, rel := After(j, start, run), TallyOf(j, start, run, NO_TALLY), j.files[k].rel;
            && (Warning("TRANSFER_CHUNK_MAX_RETRIES", rel) in s.src.warnings <==> t.headers[rel] == 3 && t.refusals[rel] == 3)
            && t.headers[rel] <= 3
            && (k < |s.src.outcomes| && s.src.outcomes[k].Accepted? <==> t.accepts[rel] == 1)
            && t.accepts[rel] <= 1
  {
    var start := StartSession(destPath, completed, store);
    StartIsInv(j, destPath, completed, store);
    RunKeepsTally(j, start, run, NO_TALLY);
    assert Counted(j, After(j, start, run).src, TallyOf(j, start, run, NO_TALLY), k);
  }

  // ─── Another attempt ─────────────────────────────────────────────────────────

  /** The source is about to announce file k once more; nothing is under way. */
  predicate MayAnnounce(j: Job, b: Session, k: nat) {
    && ValidJob(j, b.dst.destPath) && k < |j.files| && b.src.phase.Drained? && b.src.next == k
    && b.chan == Channels([], []) && b.toDst == [] && b.toSrc == []
  }

  /** Its n first bytes are sent and written, and everything acked has been taken. */
  function Under(j: Job, b: Session, k: nat, content: Content, last: nat, n: nat, a: nat): Session
    requires MayAnnounce(j, b, k) && n <= |content|
  {
    var path := Target(j, b.dst.destPath, k);
    b.(src := b.src.(phase := Streaming(b.src.phase.attempt, false), epoch := b.src.epoch + 1, headers := b.src.headers + 1,
                     hashed := content, sent := content[..n], lastStart := last, acked := a,
                     startBytes := b.src.bytesTransferred, bytesTransferred := b.src.bytesTransferred + n),
       dst := Dst(b.dst.destPath, b.dst.completed, b.src.fileID, j.files[k].rel, path, true,
                  HeaderInfo(j.files[k], content), content[..n], n, a, false),
       store := b.store.(disk := b.store.disk[path := content[..n]]))
  }

  lemma Announce(j: Job, b: Session, k: nat, content: Content)
    requires MayAnnounce(j, b, k)
    ensures CanReach(j, b, Under(j, b, k, content, 0, 0, 0), Full)
  {
    TargetsAreDistinct(j, b.dst.destPath, k, k);
    ReachByOne(j, b, Source(SendHeader(content)), Full);
    var s := Apply(j, b, Source(SendHeader(content)));
    ReachMore(j, b, s, DeliverDst(true, 0), Full);
    assert content[..0] == [];
    assert Apply(j, s, DeliverDst(true, 0)) == Under(j, b, k, content, 0, 0, 0);
  }

  /** The next read of the file. */
  function NextRead(j: Job, content: Content, n: nat): nat
    requires n <= |content|
  {
    Least(j.chunkSize, |content| - n)
  }

  /** The window never closes: it holds an ack, or the whole file. */
  predicate FitsWindow(j: Job, k: nat)
    requires k < |j.files|
  {
    j.window >= 0x10_0000 || j.files[k].size < j.window
  }

  /** A chunk has been written, and its ack, if there is one, is in transit. */
  function Wrote(j: Job, b: Session, k: nat, content: Content, n: nat, a: nat): Session
    requires MayAnnounce(j, b, k) && n < |content|
  {
    var m := n + NextRead(j, content, n);
    var u := Under(j, b, k, content, n, m, a);
    var more := if m - a >= E then [WindowAck(b.src.fileID, m, b.src.epoch + 1)] else [];
    u.(src := u.src.(phase := Streaming(b.src.phase.attempt, true)), toSrc := more,
       dst := u.dst.(curAcked := if m - a >= E then m else a))
  }

  /** A chunk is on its way. */
  function Chunked(j: Job, b: Session, k: nat, content: Content, n: nat, a: nat): Session
    requires MayAnnounce(j, b, k) && n < |content|
  {
    var r := NextRead(j, content, n);
    Under(j, b, k, content, n, n, a).(src := Wrote(j, b, k, content, n, a).src,
                                      toDst := [Chunk(b.src.fileID, n, content[n..n + r], true, b.src.epoch + 1)])
  }

  lemma SendNext(j: Job, b: Session, k: nat, content: Content, last: nat, n: nat, a: nat)
    requires MayAnnounce(j, b, k) && FitsWindow(j, k) && |content| == j.files[k].size && a <= n < |content| && n < a + E
    ensures CanReach(j, Under(j, b, k, content, last, n, a), Chunked(j, b, k, content, n, a), Full)
  {
    var s, data := Under(j, b, k, content, last, n, a), content[n..n + NextRead(j, content, n)];
    assert content[..n] + data == content[..n + |data|];
    ReachByOne(j, s, Source(SendChunk(data)), Full);
    assert Apply(j, s, Source(SendChunk(data))) == Chunked(j, b, k, content, n, a);
  }

  lemma WriteNext(j: Job, b: Session, k: nat, content: Content, n: nat, a: nat)
    requires MayAnnounce(j, b, k) && a <= n < |content| && n < a + E
    ensures CanReach(j, Chunked(j, b, k, content, n, a), Wrote(j, b, k, content, n, a), Full)
  {
    var s, r := Chunked(j, b, k, content, n, a), NextRead(j, content, n);
    assert content[..n] + content[n..n + r] == content[..n + r];
    var t := Apply(j, s, DeliverDst(true, r));
    assert t.store.disk == b.store.disk[Target(j, b.dst.destPath, k) := content[..n + r]];
    ReachByOne(j, s, DeliverDst(true, r), Full);
    assert t == Wrote(j, b, k, content, n, a);
  }

  /** What has been acked when the chunk after n has been written. */
  function AckedAfter(j: Job, content: Content, n: nat, a: nat): nat
    requires n <= |content|
  {
    if n + NextRead(j, content, n) - a >= E then n + NextRead(j, content, n) else a
  }

  /** The session after the piece that begins at n. */
  function Further(j: Job, b: Session, k: nat, content: Content, n: nat, a: nat): Session
    requires MayAnnounce(j, b, k) && n < |content|
  {
    Under(j, b, k, content, n, n + NextRead(j, content, n), AckedAfter(j, content, n, a))
  }

  /** The ack is queued. */
  function AckQueued(j: Job, b: Session, k: nat, content: Content, n: nat, a: nat): Session
    requires MayAnnounce(j, b, k) && n < |content|
  {
    var w := Wrote(j, b, k, content, n, a);
    w.(chan := Channels([], w.toSrc), toSrc := [])
  }

  lemma PostAck(j: Job, b: Session, k: nat, content: Content, n: nat, a: nat)
    requires MayAnnounce(j, b, k) && a <= n < |content| && n + NextRead(j, content, n) - a >= E
    ensures CanReach(j, Wrote(j, b, k, content, n, a), AckQueued(j, b, k, content, n, a), Full)
  {
    var w := Wrote(j, b, k, content, n, a);
    ReachByOne(j, w, DeliverSrc, Full);
    assert Apply(j, w, DeliverSrc) == AckQueued(j, b, k, content, n, a);
  }

  lemma TakeAck(j: Job, b: Session, k: nat, content: Content, n: nat, a: nat)
    requires MayAnnounce(j, b, k) && a <= n < |content| && n + NextRead(j, content, n) - a >= E
    ensures CanReach(j, AckQueued(j, b, k, content, n, a), Further(j, b, k, content, n, a), Full)
  {
    var s := AckQueued(j, b, k, content, n, a);
    ReachByOne(j, s, Source(TakeWindowAck), Full);
    var taken := Apply(j, s, Source(TakeWindowAck));
    ReachMore(j, s, taken, Source(ReadOn), Full);
    assert Apply(j, taken, Source(ReadOn)) == Further(j, b, k, content, n, a);
  }

  lemma NoAckToTake(j: Job, b: Session, k: nat, content: Content, n: nat, a: nat)
    requires MayAnnounce(j, b, k) && a <= n < |content| && n + NextRead(j, content, n) - a < E
    ensures CanReach(j, Wrote(j, b, k, content, n, a), Further(j, b, k, content, n, a), Full)
  {
    var w := Wrote(j, b, k, content, n, a);
    ReachByOne(j, w, Source(ReadOn), Full);
    assert Apply(j, w, Source(ReadOn)) == Further(j, b, k, content, n, a);
  }

  lemma SendPiece(j: Job, b: Session, k: nat, content: Content, last: nat, n: nat, a: nat)
    requires MayAnnounce(j, b, k) && FitsWindow(j, k) && |content| == j.files[k].size && a <= n < |content| && n < a + E
    ensures CanReach(j, Under(j, b, k, content, last, n, a), Further(j, b, k, content, n, a), Full)
  {
    var s, w := Under(j, b, k, content, last, n, a), Wrote(j, b, k, content, n, a);
    SendNext(j, b, k, content, last, n, a);
    WriteNext(j, b, k, content, n, a);
    ReachTrans(j, s, Chunked(j, b, k, content, n, a), w, Full);
    if n + NextRead(j, content, n) - a >= E {
      PostAck(j, b, k, content, n, a);
      TakeAck(j, b, k, content, n, a);
      ReachTrans(j, w, AckQueued(j, b, k, content, n, a), Further(j, b, k, content, n, a), Full);
    } else {
      NoAckToTake(j, b, k, content, n, a);
    }
    ReachTrans(j, s, w, Further(j, b, k, content, n, a), Full);
  }

  lemma {:induction false} SendAll(j: Job, b: Session, k: nat, content: Content, last: nat, n: nat, a: nat)
      returns (last': nat, a': nat)
    requires MayAnnounce(j, b, k) && FitsWindow(j, k) && |content| == j.files[k].size && a <= n <= |content| && n < a + E
    ensures a' <= |content| < a' + E
    ensures CanReach(j, Under(j, b, k, content, last, n, a), Under(j, b, k, content, last', |content|, a'), Full)
    decreases |content| - n
  {
    if n == |content| {
      last', a' := last, a;
      ReachNothing(j, Under(j, b, k, content, last, n, a), Full);
    } else {
      SendPiece(j, b, k, content, last, n, a);
      last', a' := SendAll(j, b, k, content, n, n + NextRead(j, content, n), AckedAfter(j, content, n, a));
      ReachTrans(j, Under(j, b, k, content, last, n, a), Further(j, b, k, content, n, a),
                 Under(j, b, k, content, last', |content|, a'), Full);
    }
  }

  /** The file is recorded, and its verdict is on the way. */
  function Verdicted(j: Job, b: Session, k: nat, content: Content, last: nat, a: nat): Session
    requires MayAnnounce(j, b, k)
  {
    var s := Under(j, b, k, content, last, |content|, a);
    s.(src := s.src.(phase := Awaiting(b.src.phase.attempt)),
       toSrc := [FileAck(b.src.fileID, true, b.src.epoch + 1)],
       dst := s.dst.(completed := s.dst.completed[j.files[k].rel := EntryOf(s.dst)], curOpen := false, curFileID := 0),
       store := AppendLine(s.store, EntryOf(s.dst)))
  }

  lemma EndAndVerify(j: Job, b: Session, k: nat, content: Content, last: nat, a: nat)
    requires MayAnnounce(j, b, k) && FitsWindow(j, k) && |content| == j.files[k].size && a <= |content| < a + E
    ensures CanReach(j, Under(j, b, k, content, last, |content|, a), Verdicted(j, b, k, content, last, a), Full)
  {
    var s := Under(j, b, k, content, last, |content|, a);
    assert content[..|content|] == content;
    ReachByOne(j, s, Source(EndOfFile), Full);
    var ended := Apply(j, s, Source(EndOfFile));
    assert ended == s.(src := s.src.(phase := Awaiting(b.src.phase.attempt)), toDst := [FileDone(b.src.fileID, b.src.epoch + 1)]);
    ReachMore(j, s, ended, DeliverDst(true, 0), Full);
    assert Apply(j, ended, DeliverDst(true, 0)) == Verdicted(j, b, k, content, last, a);
  }

  lemma TakeAcceptance(j: Job, b: Session, k: nat, content: Content, last: nat, a: nat) returns (t: Session)
    requires MayAnnounce(j, b, k)
    ensures CanReach(j, Verdicted(j, b, k, content, last, a), t, Full)
    ensures t.src.outcomes == b.src.outcomes + [Accepted(content)] && t.src.next == k + 1 && OnDisk(j, t, k, content)
    ensures t.src.phase.Listing?
  {
    var s := Verdicted(j, b, k, content, last, a);
    assert content[..|content|] == content;
    ReachByOne(j, s, DeliverSrc, Full);
    var posted := Apply(j, s, DeliverSrc);
    ReachMore(j, s, posted, Source(TakeFileAck), Full);
    t := Apply(j, posted, Source(TakeFileAck));
  }

  /** The whole file is written; the destination verifies it and the source takes the verdict. */
  lemma GetVerdict(j: Job, b: Session, k: nat, content: Content, last: nat, a: nat) returns (t: Session)
    requires MayAnnounce(j, b, k) && FitsWindow(j, k) && |content| == j.files[k].size && a <= |content| < a + E
    ensures CanReach(j, Under(j, b, k, content, last, |content|, a), t, Full)
    ensures t.src.outcomes == b.src.outcomes + [Accepted(content)] && t.src.next == k + 1 && OnDisk(j, t, k, content)
    ensures t.src.phase.Listing?
  {
    EndAndVerify(j, b, k, content, last, a);
    t := TakeAcceptance(j, b, k, content, last, a);
    ReachTrans(j, Under(j, b, k, content, last, |content|, a), Verdicted(j, b, k, content, last, a), t, Full);
  }

  /** A session that has just taken a refusal, with fewer than three headers of the file out, can
      drain its channels and announce the file. */
  lemma RefusalIsAnotherTry(j: Job, s: Session, t: Tally)
    requires Inv(j, s) && TallyInv(j, s, t) && Enabled(j, s, Source(TakeFileAck)) && !s.chan.fileAck[0].ok
    requires t.headers[t.last] < 3
    ensures var s1 := Apply(j, s, Source(TakeFileAck));
            && t.last == j.files[s.src.next].rel && s1.src.next == s.src.next
            && |s1.src.outcomes| == s.src.next && !HasWarning(s1.src, t.last)
            && Enabled(j, s1, Source(Drain)) && MayAnnounce(j, Apply(j, s1, Source(Drain)), s.src.next)
  {
    assert Counted(j, s.src, t, s.src.next);
    VerdictIsAnswered(j, s);
    RejectKeepsInv(j, s);
    var s1 := Apply(j, s, Source(TakeFileAck));
    NotYetWarned(j, s1, s.src.next);
    assert s1.toDst + [] == s1.toDst;
  }

  /** The same, over all runs: the file is still in progress after the refusal; and whatever of
      the listed size the source then finds there, if the window holds an ack or the file, a run
      exists in which it is announced again and accepted, and is on the disk as hashed. */
  lemma RefusedIsTriedAgain(j: Job, destPath: string, completed: map<string, FileInfo>, store: Store, run: seq<Action>,
                            content: Content) returns (more: seq<Action>)
    requires ValidJob(j, destPath) && Feasible(j, StartSession(destPath, completed, store), run)
    requires var s := After(j, StartSession(destPath, completed, store), run);
             Enabled(j, s, Source(TakeFileAck)) && !s.chan.fileAck[0].ok
    requires var t := TallyOf(j, StartSession(destPath, completed, store), run, NO_TALLY); t.headers[t.last] < 3
    ensures var start := StartSession(destPath, completed, store);
            var s, t := After(j, start, run), TallyOf(j, start, run, NO_TALLY);
            var s1, k := Apply(j, s, Source(TakeFileAck)), s.src.next;
            var t1 := Noted(j, s, Source(TakeFileAck), t);
            && k < |j.files| && j.files[k].rel == t.last
            && s1.src.next == k && |s1.src.outcomes| == k && !HasWarning(s1.src, t.last)
            && !s1.src.phase.Finished? && !s1.src.phase.Failed?
            && Feasible(j, s1, more)
            && (|content| == j.files[k].size && FitsWindow(j, k) ==>
                  var s2, t2 := After(j, s1, more), TallyOf(j, s1, more, t1);
                  && t2.headers[t.last] > t1.headers[t.last] && t2.accepts[t.last] == 1
                  && s2.src.outcomes == s1.src.outcomes + [Accepted(content)] && OnDisk(j, s2, k, content))
  {
    var start := StartSession(destPath, completed, store);
    var s, t := After(j, start, run), TallyOf(j, start, run, NO_TALLY);
    StartIsInv(j, destPath, completed, store);
    RunKeepsTally(j, start, run, NO_TALLY);
    RefusalIsAnotherTry(j, s, t);
    var s1, k := Apply(j, s, Source(TakeFileAck)), s.src.next;
    more := [];
    if |content| == j.files[k].size && FitsWindow(j, k) {
      StepKeepsInv(j, s, Source(TakeFileAck));
      StepKeepsTally(j, s, Source(TakeFileAck), t);
      var s2 := TryAgain(j, s1, k, content);
      more :| Leads(j, s1, more, s2, Full);
      AgainIsCounted(j, s1, s2, more, Noted(j, s, Source(TakeFileAck), t), k);
    }
  }

  lemma TryAgain(j: Job, s: Session, k: nat, content: Content) returns (t: Session)
    requires Enabled(j, s, Source(Drain)) && MayAnnounce(j, Apply(j, s, Source(Drain)), k)
    requires FitsWindow(j, k) && |content| == j.files[k].size
    ensures CanReach(j, s, t, Full)
    ensures t.src.outcomes == s.src.outcomes + [Accepted(content)] && t.src.next == k + 1 && OnDisk(j, t, k, content)
    ensures t.src.phase.Listing?
  {
    var b := Apply(j, s, Source(Drain));
    ReachByOne(j, s, Source(Drain), Full);
    Announce(j, b, k, content);
    var last, a := SendAll(j, b, k, content, 0, 0, 0);
    t := GetVerdict(j, b, k, content, last, a);
    ReachTrans(j, b, Under(j, b, k, content, 0, 0, 0), Under(j, b, k, content, last, |content|, a), Full);
    ReachTrans(j, b, Under(j, b, k, content, last, |content|, a), t, Full);
    ReachTrans(j, s, b, t, Full);
  }

  /** What was accepted after its refusals has had another header. */
  lemma AgainIsCounted(j: Job, s: Session, s': Session, run: seq<Action>, t: Tally, k: nat)
    requires Inv(j, s) && TallyInv(j, s, t) && Feasible(j, s, run) && After(j, s, run) == s'
    requires k < |j.files| && s.src.next == k && s.src.phase.Attempting?
    requires k < s'.src.next && k < |s'.src.outcomes| && s'.src.outcomes[k].Accepted?
    ensures var t', rel := TallyOf(j, s, run, t), j.files[k].rel;
            t'.headers[rel] > t.headers[rel] && t'.accepts[rel] == 1
  {
    assert Counted(j, s.src, t, k);
    RunKeepsTally(j, s, run, t);
    assert Counted(j, s'.src, TallyOf(j, s, run, t), k);
  }
}
