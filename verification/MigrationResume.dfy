/** Interruptions of a migration and its resumption from the manifest log. */
module MigrationResume {
  import opened Paths
  import opened MigrationModel
  import opened MigrationSession
  import opened MigrationInvariant
  import opened MigrationSteps
  import opened MigrationResults

  /** A source tree that does not change, and the migration's parameters. */
  datatype Tree = Tree(files: seq<Entry>, contents: seq<Content>, destPath: string, chunkSize: nat, window: nat)

  function JobOf(t: Tree, completed: map<string, FileInfo>): Job {
    Job(t.files, completed, t.chunkSize, t.window)
  }

  predicate ValidTree(t: Tree) {
    && ValidJob(JobOf(t, map[]), t.destPath)
    && |t.contents| == |t.files|
    && forall k :: 0 <= k < |t.files| ==> |t.contents[k]| == t.files[k].size
  }

  /** No session, or one in progress. */
  datatype World =
    | Down(store: Store)
    | Up(job: Job, s: Session)

  datatype WorldAction =
    | Restart                       // prepare, then start with the reported manifest
    | Run(a: Action)
    | Interrupt                     // both agents lose the session at any point
    | CrashInRecord(whole: bool)    // the destination stops while it records a verified file

  function StoreOf(w: World): Store {
    match w
    case Down(store) => store
    case Up(_, s) => s.store
  }

  /** What is left of the line being appended: all of it but the newline, or less. */
  function TornAppend(s: Store, info: FileInfo, whole: bool): Store {
    s.(tail := if s.tail.NoTail? && whole then WholeLine(info) else HalfLine)
  }

  predicate WorldEnabled(t: Tree, w: World, a: WorldAction) {
    match a
    case Restart => w.Down?
    case Run(b) =>
      w.Up? && Enabled(w.job, w.s, b)
      && (b.Source? && b.step.SendHeader? && w.s.src.next < |t.contents| ==> b.step.content == t.contents[w.s.src.next])
    case Interrupt => w.Up?
    case CrashInRecord(_) =>
      w.Up? && w.s.toDst != [] && w.s.toDst[0].FileDone? && w.s.toDst[0].fileID == w.s.dst.curFileID && Verified(w.s.dst)
  }

  function WorldApply(t: Tree, w: World, a: WorldAction): World
    requires WorldEnabled(t, w, a)
  {
    match a
    case Restart =>
      var completed := LoadManifest(LinesOf(w.store));
      Up(JobOf(t, completed), StartSession(t.destPath, completed, w.store))
    case Run(b) => Up(w.job, Apply(w.job, w.s, b))
    case Interrupt => Down(w.s.store)
    case CrashInRecord(whole) => Down(TornAppend(w.s.store, EntryOf(w.s.dst), whole))
  }

  predicate WorldFeasible(t: Tree, w: World, run: seq<WorldAction>)
    decreases |run|
  {
    run == [] || (WorldEnabled(t, w, run[0]) && WorldFeasible(t, WorldApply(t, w, run[0]), run[1..]))
  }

  function WorldAfter(t: Tree, w: World, run: seq<WorldAction>): World
    requires WorldFeasible(t, w, run)
    decreases |run|
  {
    if run == [] then w else WorldAfter(t, WorldApply(t, w, run[0]), run[1..])
  }

  // ─── The manifest log ────────────────────────────────────────────────────────

  /** The file is at the destination with the source's content. */
  predicate Delivered(t: Tree, disk: map<string, Content>, k: nat)
    requires k < |t.files| == |t.contents|
  {
    var path := Target(JobOf(t, map[]), t.destPath, k);
    path in disk && disk[path] == t.contents[k]
  }

  predicate Describes(info: FileInfo, e: Entry) {
    info.path == e.rel && info.size == e.size && info.mtime == e.mtime
  }

  /** The entry describes file k, digest included, which is at the destination. */
  predicate GoodFor(t: Tree, disk: map<string, Content>, info: FileInfo, k: nat)
    requires k < |t.files| == |t.contents|
  {
    Describes(info, t.files[k]) && info.sha256 == DigestOf(t.contents[k]) && Delivered(t, disk, k)
  }

  predicate GoodEntry(t: Tree, disk: map<string, Content>, info: FileInfo)
    requires |t.files| == |t.contents|
  {
    exists k :: 0 <= k < |t.files| && GoodFor(t, disk, info, k)
  }

  /** Every entry of the manifest names a file that is at the destination as in the tree. */
  predicate GoodLog(t: Tree, store: Store)
    requires |t.files| == |t.contents|
  {
    forall i :: 0 <= i < |LinesOf(store)| && LinesOf(store)[i].Recorded? ==> GoodEntry(t, store.disk, LinesOf(store)[i].info)
  }

  lemma {:induction false} ManifestHasLine(lines: seq<Line>, rel: string)
    ensures var m := LoadManifest(lines);
            rel in m ==> m[rel].path == rel && Recorded(m[rel]) in lines
  {
    if lines != [] {
      ManifestHasLine(lines[..|lines| - 1], rel);
    }
  }

  /** loadManifest reports every path that has an entry, with its last one. */
  lemma {:induction false} ManifestKeepsLast(lines: seq<Line>, i: nat)
    requires i < |lines| && lines[i].Recorded? && lines[i].info.path != ""
    requires forall k :: i < k < |lines| && lines[k].Recorded? ==> lines[k].info.path != lines[i].info.path
    ensures lines[i].info.path in LoadManifest(lines) && LoadManifest(lines)[lines[i].info.path] == lines[i].info
  {
    if i < |lines| - 1 {
      ManifestKeepsLast(lines[..|lines| - 1], i);
    }
  }

  // ─── What a session keeps ────────────────────────────────────────────────────

  /** The destination has recorded the file in progress, and its verdict is on the way. */
  predicate JustRecorded(j: Job, s: Session) {
    s.toDst == [] && (s.src.phase.Awaiting? || s.src.phase.Failed?) && Answered(j, s, true)
  }

  /** No step of the session will touch file k again. */
  predicate Settled(j: Job, s: Session, k: nat)
    requires k < |j.files|
  {
    || Covered(j, j.files[k])
    || (k < s.src.next && k < |s.src.outcomes| && s.src.outcomes[k].Accepted?)
    || (k == s.src.next && JustRecorded(j, s))
  }

  predicate SettledEntry(t: Tree, j: Job, s: Session, info: FileInfo)
    requires |t.files| == |t.contents| && j.files == t.files
  {
    exists k :: 0 <= k < |t.files| && GoodFor(t, s.store.disk, info, k) && Settled(j, s, k)
  }

  predicate LogInv(t: Tree, j: Job, s: Session)
    requires |t.files| == |t.contents| && j.files == t.files
  {
    forall i :: 0 <= i < |LinesOf(s.store)| && LinesOf(s.store)[i].Recorded? ==>
      SettledEntry(t, j, s, LinesOf(s.store)[i].info)
  }

  /** What the completed set covers is at the destination, and nothing else is in it. */
  predicate CoverInv(t: Tree, j: Job, s: Session)
    requires |t.files| == |t.contents| && j.files == t.files
  {
    forall k :: 0 <= k < |t.files| && t.files[k].rel in j.completed ==>
      Covered(j, t.files[k]) && Delivered(t, s.store.disk, k)
  }

  /** The attempt in progress sends the tree's content, and not of a covered file. */
  predicate HashInv(t: Tree, j: Job, s: Session)
    requires |t.files| == |t.contents| && j.files == t.files
  {
    && |s.src.outcomes| <= |t.files|
    && (s.src.phase.Streaming? || s.src.phase.Awaiting? || s.toDst != [] ==>
          s.src.next < |t.files| && s.src.hashed == t.contents[s.src.next] && !Covered(j, j.files[s.src.next]))
    && (forall k :: 0 <= k < |s.src.outcomes| && s.src.outcomes[k].Accepted? ==> s.src.outcomes[k].content == t.contents[k])
  }

  predicate SessionInv(t: Tree, j: Job, s: Session) {
    && ValidTree(t) && j == JobOf(t, j.completed) && s.dst.destPath == t.destPath
    && Inv(j, s) && LogInv(t, j, s) && CoverInv(t, j, s) && HashInv(t, j, s)
  }

  predicate WorldInv(t: Tree, w: World) {
    ValidTree(t) &&
    match w
    case Down(store) => GoodLog(t, store)
    case Up(j, s) => SessionInv(t, j, s)
  }

  lemma SameTarget(t: Tree, j: Job, k: nat)
    requires k < |t.files| && j.files == t.files
    ensures Target(j, t.destPath, k) == Target(JobOf(t, map[]), t.destPath, k)
  {
  }

  /** Steps that leave the store alone. */
  lemma StoreKept(t: Tree, j: Job, s: Session, s': Session)
    requires SessionInv(t, j, s) && s'.store == s.store
    requires forall k :: 0 <= k < |j.files| && Settled(j, s, k) ==> Settled(j, s', k)
    ensures LogInv(t, j, s') && CoverInv(t, j, s')
  {
    forall i | 0 <= i < |LinesOf(s'.store)| && LinesOf(s'.store)[i].Recorded?
      ensures SettledEntry(t, j, s', LinesOf(s'.store)[i].info)
    {
      var info := LinesOf(s'.store)[i].info;
      assert SettledEntry(t, j, s, info);
      var k :| 0 <= k < |t.files| && GoodFor(t, s.store.disk, info, k) && Settled(j, s, k);
      assert GoodFor(t, s'.store.disk, info, k) && Settled(j, s', k);
    }
  }

  lemma VerdictSettles(t: Tree, j: Job, s: Session)
    requires SessionInv(t, j, s) && Enabled(j, s, Source(TakeFileAck))
    ensures var s' := Apply(j, s, Source(TakeFileAck));
            && (forall k :: 0 <= k < |j.files| && Settled(j, s, k) ==> Settled(j, s', k))
            && HashInv(t, j, s')
  {
    VerdictIsAnswered(j, s);
    var s' := Apply(j, s, Source(TakeFileAck));
    assert s.toDst + [] == s.toDst;
    if !s.chan.fileAck[0].ok {
      assert !Answered(j, s, true);
    }
  }

  lemma SourceKeepsHash(t: Tree, j: Job, s: Session, a: SrcStep)
    requires SessionInv(t, j, s) && Enabled(j, s, Source(a)) && !a.TakeFileAck?
    requires a.SendHeader? && s.src.next < |t.contents| ==> a.content == t.contents[s.src.next]
    ensures HashInv(t, j, Apply(j, s, Source(a)))
  {
    assert s.toDst + [] == s.toDst;
  }

  lemma SourceKeepsSettled(t: Tree, j: Job, s: Session, a: SrcStep, k: nat)
    requires SessionInv(t, j, s) && Enabled(j, s, Source(a)) && !a.TakeFileAck?
    requires k < |j.files| && Settled(j, s, k)
    ensures Settled(j, Apply(j, s, Source(a)), k)
  {
    var s' := Apply(j, s, Source(a));
    if a.Fail? && JustRecorded(j, s) {
      assert Info(j, s') == Info(j, s);
      assert JustRecorded(j, s');
    }
  }

  lemma SourceKeepsSession(t: Tree, j: Job, s: Session, a: SrcStep)
    requires SessionInv(t, j, s) && Enabled(j, s, Source(a))
    requires a.SendHeader? && s.src.next < |t.contents| ==> a.content == t.contents[s.src.next]
    ensures SessionInv(t, j, Apply(j, s, Source(a)))
  {
    StepKeepsInv(j, s, Source(a));
    if a.TakeFileAck? {
      VerdictSettles(t, j, s);
    } else {
      SourceKeepsHash(t, j, s, a);
      forall k | 0 <= k < |j.files| && Settled(j, s, k) ensures Settled(j, Apply(j, s, Source(a)), k) {
        SourceKeepsSettled(t, j, s, a, k);
      }
    }
    StoreKept(t, j, s, Apply(j, s, Source(a)));
  }

  lemma TransitKeepsSession(t: Tree, j: Job, s: Session, a: Action)
    requires SessionInv(t, j, s) && Enabled(j, s, a) && (a.DeliverSrc? || a.Corrupt?)
    ensures SessionInv(t, j, Apply(j, s, a))
  {
    StepKeepsInv(j, s, a);
    var s' := Apply(j, s, a);
    if JustRecorded(j, s) && a.DeliverSrc? {
      AnsweredPosts(j, s, true);
    }
    StoreKept(t, j, s, s');
  }

  /** The lines of a log to which an entry has been appended, whole or torn. */
  lemma AppendedLines(store: Store, info: FileInfo, whole: bool)
    ensures forall l :: l in LinesOf(AppendLine(store, info)) && l.Recorded? ==> l in LinesOf(store) || l.info == info
    ensures forall l :: l in LinesOf(TornAppend(store, info, whole)) && l.Recorded? ==> l in LinesOf(store) || l.info == info
  {
  }

  lemma InProgressIsUnsettled(t: Tree, j: Job, s: Session, k: nat)
    requires SessionInv(t, j, s) && s.toDst != [] && k < |j.files| && Settled(j, s, k)
    ensures k != s.src.next
  {
  }

  /** The destination's step keeps settled files delivered. */
  lemma SettledStayDelivered(t: Tree, j: Job, s: Session, s': Session, k: nat)
    requires SessionInv(t, j, s) && s.toDst != [] && InFile(j, s) && DstOnly(j, s, s')
    requires k < |j.files| && Settled(j, s, k) && Delivered(t, s.store.disk, k)
    ensures Delivered(t, s'.store.disk, k) && Settled(j, s', k)
  {
    InProgressIsUnsettled(t, j, s, k);
    TargetsAreDistinct(j, s.dst.destPath, k, s.src.next);
    SameTarget(t, j, k);
  }

  /** A verified file is what the tree holds. */
  lemma VerifiedIsDelivered(t: Tree, j: Job, s: Session)
    requires SessionInv(t, j, s) && s.toDst != [] && s.toDst[0].FileDone?
    requires s.toDst[0].fileID == s.dst.curFileID && Verified(s.dst)
    ensures s.src.next < |t.files| && GoodFor(t, s.store.disk, EntryOf(s.dst), s.src.next)
  {
    CarriesAttempt(j, s);
    var done := Carry(j, s, true);
    CarryHead(j, s, done);
    assert Receiving(j, s, done);
    SameTarget(t, j, s.src.next);
  }

  lemma CarriesAttempt(j: Job, s: Session)
    requires Inv(j, s) && s.toDst != []
    ensures Carry(j, s, Carry(j, s, true))
  {
  }

  /** After the file_done of a verified file its verdict is on the way. */
  lemma VerifiedIsJustRecorded(t: Tree, j: Job, s: Session, openOk: bool, landed: nat)
    requires SessionInv(t, j, s) && s.toDst != [] && s.toDst[0].FileDone?
    requires s.toDst[0].fileID == s.dst.curFileID && Verified(s.dst)
    ensures var s' := Apply(j, s, DeliverDst(openOk, landed)); Settled(j, s', s.src.next)
  {
    CarriesAttempt(j, s);
    CarryHead(j, s, Carry(j, s, true));
    DoneArrives(j, s);
    var s' := Apply(j, s, DeliverDst(openOk, landed));
    assert s' == Apply(j, s, DeliverDst(true, 0));
    assert s'.toSrc == s.toSrc + [FileAck(s.src.fileID, true, s.src.epoch)];
    assert s'.toSrc[|s'.toSrc| - 1] == FileAck(s.src.fileID, true, s.src.epoch);
    assert Answered(j, s', true);
  }

  predicate Recording(s: Session) {
    s.toDst != [] && s.toDst[0].FileDone? && s.toDst[0].fileID == s.dst.curFileID && Verified(s.dst)
  }

  lemma HandledStore(s: Session, openOk: bool, landed: nat)
    requires s.toDst != [] && (s.toDst[0].Chunk? ==> landed <= |s.toDst[0].data|)
    ensures var store' := Handle(s.dst, s.store, s.toDst[0], openOk, landed).1;
            if Recording(s) then store' == AppendLine(s.store, EntryOf(s.dst))
            else LinesOf(store') == LinesOf(s.store)
  {
  }

  lemma DstKeepsLog(t: Tree, j: Job, s: Session, openOk: bool, landed: nat)
    requires SessionInv(t, j, s) && Enabled(j, s, DeliverDst(openOk, landed))
    ensures var s' := Apply(j, s, DeliverDst(openOk, landed)); LogInv(t, j, s') && CoverInv(t, j, s')
  {
    var s' := Apply(j, s, DeliverDst(openOk, landed));
    CarriesAttempt(j, s);
    CarryStep(j, s, Carry(j, s, true), openOk, landed);
    HandledStore(s, openOk, landed);
    AppendedLines(s.store, EntryOf(s.dst), true);
    if Recording(s) {
      VerifiedIsDelivered(t, j, s);
      VerifiedIsJustRecorded(t, j, s, openOk, landed);
    }
    forall i | 0 <= i < |LinesOf(s'.store)| && LinesOf(s'.store)[i].Recorded?
      ensures SettledEntry(t, j, s', LinesOf(s'.store)[i].info)
    {
      LineStaysGood(t, j, s, s', LinesOf(s'.store)[i]);
    }
    forall k | 0 <= k < |t.files| && t.files[k].rel in j.completed
      ensures Covered(j, t.files[k]) && Delivered(t, s'.store.disk, k)
    {
      SettledStayDelivered(t, j, s, s', k);
    }
  }

  lemma LineStaysGood(t: Tree, j: Job, s: Session, s': Session, l: Line)
    requires SessionInv(t, j, s) && s.toDst != [] && InFile(j, s) && DstOnly(j, s, s') && l.Recorded?
    requires l in LinesOf(s.store)
             || (Recording(s) && l.info == EntryOf(s.dst) && s'.store.disk == s.store.disk
                 && s.src.next < |t.files| && GoodFor(t, s.store.disk, EntryOf(s.dst), s.src.next) && Settled(j, s', s.src.next))
    ensures SettledEntry(t, j, s', l.info)
  {
    if l in LinesOf(s.store) {
      var i :| 0 <= i < |LinesOf(s.store)| && LinesOf(s.store)[i] == l;
      assert SettledEntry(t, j, s, LinesOf(s.store)[i].info);
      var k :| 0 <= k < |t.files| && GoodFor(t, s.store.disk, l.info, k) && Settled(j, s, k);
      SettledStayDelivered(t, j, s, s', k);
      assert GoodFor(t, s'.store.disk, l.info, k) && Settled(j, s', k);
    } else {
      assert GoodFor(t, s'.store.disk, l.info, s.src.next) && Settled(j, s', s.src.next);
    }
  }

  lemma DstKeepsSession(t: Tree, j: Job, s: Session, openOk: bool, landed: nat)
    requires SessionInv(t, j, s) && Enabled(j, s, DeliverDst(openOk, landed))
    ensures SessionInv(t, j, Apply(j, s, DeliverDst(openOk, landed)))
  {
    StepKeepsInv(j, s, DeliverDst(openOk, landed));
    KeepsDestPath(j, s, DeliverDst(openOk, landed));
    DstKeepsLog(t, j, s, openOk, landed);
  }

  // ─── Crashes and restarts ────────────────────────────────────────────────────

  lemma SessionLogIsGood(t: Tree, j: Job, s: Session)
    requires SessionInv(t, j, s)
    ensures GoodLog(t, s.store)
  {
    forall i | 0 <= i < |LinesOf(s.store)| && LinesOf(s.store)[i].Recorded?
      ensures GoodEntry(t, s.store.disk, LinesOf(s.store)[i].info)
    {
      assert SettledEntry(t, j, s, LinesOf(s.store)[i].info);
    }
  }

  lemma CrashKeepsLog(t: Tree, j: Job, s: Session, whole: bool)
    requires SessionInv(t, j, s) && Recording(s)
    ensures GoodLog(t, TornAppend(s.store, EntryOf(s.dst), whole))
  {
    var store' := TornAppend(s.store, EntryOf(s.dst), whole);
    SessionLogIsGood(t, j, s);
    VerifiedIsDelivered(t, j, s);
    AppendedLines(s.store, EntryOf(s.dst), whole);
    forall i | 0 <= i < |LinesOf(store')| && LinesOf(store')[i].Recorded?
      ensures GoodEntry(t, store'.disk, LinesOf(store')[i].info)
    {
      var l := LinesOf(store')[i];
      if l in LinesOf(s.store) {
        var n :| 0 <= n < |LinesOf(s.store)| && LinesOf(s.store)[n] == l;
        assert GoodEntry(t, s.store.disk, LinesOf(s.store)[n].info);
      } else {
        assert GoodFor(t, store'.disk, l.info, s.src.next);
      }
    }
  }

  /** The manifest covers exactly the files that have an entry. */
  lemma ManifestCovers(t: Tree, store: Store, k: nat)
    requires ValidTree(t) && GoodLog(t, store) && k < |t.files|
    requires t.files[k].rel in LoadManifest(LinesOf(store))
    ensures Covered(JobOf(t, LoadManifest(LinesOf(store))), t.files[k]) && Delivered(t, store.disk, k)
  {
    var rel := t.files[k].rel;
    var lines := LinesOf(store);
    ManifestHasLine(lines, rel);
    var i :| 0 <= i < |lines| && lines[i] == Recorded(LoadManifest(lines)[rel]);
    assert GoodEntry(t, store.disk, lines[i].info);
    var l :| 0 <= l < |t.files| && GoodFor(t, store.disk, lines[i].info, l);
    assert t.files[l].rel == t.files[k].rel;
    assert l == k;
  }

  lemma PlainIsNotEmpty(rel: string)
    requires PlainRel(rel)
    ensures rel != ""
  {
    if rel == "" {
      assert !Plain(Text.Split(rel, SLASH)[0]);
    }
  }

  lemma {:induction false} ManifestHasPath(lines: seq<Line>, i: nat)
    requires i < |lines| && lines[i].Recorded? && lines[i].info.path != ""
    ensures lines[i].info.path in LoadManifest(lines)
  {
    if i < |lines| - 1 {
      ManifestHasPath(lines[..|lines| - 1], i);
    }
  }

  lemma RestartKeepsInv(t: Tree, store: Store)
    requires ValidTree(t) && GoodLog(t, store)
    ensures WorldInv(t, WorldApply(t, Down(store), Restart))
  {
    var lines := LinesOf(store);
    var completed := LoadManifest(lines);
    var j, s := JobOf(t, completed), StartSession(t.destPath, completed, store);
    assert ValidJob(j, t.destPath) by { assert ValidJob(JobOf(t, map[]), t.destPath); }
    StartIsInv(j, t.destPath, completed, store);
    forall k | 0 <= k < |t.files| && t.files[k].rel in completed
      ensures Covered(j, t.files[k]) && Delivered(t, store.disk, k)
    {
      ManifestCovers(t, store, k);
    }
    forall i | 0 <= i < |lines| && lines[i].Recorded?
      ensures SettledEntry(t, j, s, lines[i].info)
    {
      assert GoodEntry(t, store.disk, lines[i].info);
      var k :| 0 <= k < |t.files| && GoodFor(t, store.disk, lines[i].info, k);
      PlainIsNotEmpty(t.files[k].rel);
      ManifestHasPath(lines, i);
      assert Settled(j, s, k);
    }
  }

  lemma WorldStepKeepsInv(t: Tree, w: World, a: WorldAction)
    requires WorldInv(t, w) && WorldEnabled(t, w, a)
    ensures WorldInv(t, WorldApply(t, w, a))
  {
    match a {
      case Restart => RestartKeepsInv(t, w.store);
      case Run(b) =>
        match b {
          case Source(step) => SourceKeepsSession(t, w.job, w.s, step);
          case DeliverDst(openOk, landed) => DstKeepsSession(t, w.job, w.s, openOk, landed);
          case _ => TransitKeepsSession(t, w.job, w.s, b);
        }
      case Interrupt => SessionLogIsGood(t, w.job, w.s);
      case CrashInRecord(whole) => CrashKeepsLog(t, w.job, w.s, whole);
    }
  }

  lemma {:induction false} WorldRunKeepsInv(t: Tree, w: World, run: seq<WorldAction>)
    requires WorldInv(t, w) && WorldFeasible(t, w, run)
    ensures WorldInv(t, WorldAfter(t, w, run))
    decreases |run|
  {
    if run != [] {
      WorldStepKeepsInv(t, w, run[0]);
      WorldRunKeepsInv(t, WorldApply(t, w, run[0]), run[1..]);
    }
  }

  // ─── Main results ────────────────────────────────────────────────────────────

  /** Over an unchanged tree, after any number of interruptions and crashes at any point, each
      followed by a restart from the manifest, every manifest entry names a file that is at the
      destination with the tree's content. */
  lemma ManifestNeverLies(t: Tree, disk: map<string, Content>, run: seq<WorldAction>)
    requires ValidTree(t) && WorldFeasible(t, Down(Store(disk, [], NoTail)), run)
    ensures GoodLog(t, StoreOf(WorldAfter(t, Down(Store(disk, [], NoTail)), run)))
  {
    var w := Down(Store(disk, [], NoTail));
    WorldRunKeepsInv(t, w, run);
    var w' := WorldAfter(t, w, run);
    if w'.Up? {
      SessionLogIsGood(t, w'.job, w'.s);
    }
  }

  /** A recorded file is never announced again. */
  lemma RecordedIsNeverResent(t: Tree, disk: map<string, Content>, run: seq<WorldAction>, content: Content)
    requires ValidTree(t) && WorldFeasible(t, Down(Store(disk, [], NoTail)), run)
    requires WorldEnabled(t, WorldAfter(t, Down(Store(disk, [], NoTail)), run), Run(Source(SendHeader(content))))
    ensures var w := WorldAfter(t, Down(Store(disk, [], NoTail)), run);
            && w.Up? && w.s.src.next < |t.files|
            && forall l :: l in LinesOf(w.s.store) && l.Recorded? ==> l.info.path != t.files[w.s.src.next].rel
  {
    WorldRunKeepsInv(t, Down(Store(disk, [], NoTail)), run);
    var w := WorldAfter(t, Down(Store(disk, [], NoTail)), run);
    var lines := LinesOf(w.s.store);
    forall l | l in lines && l.Recorded?
      ensures l.info.path != t.files[w.s.src.next].rel
    {
      var i :| 0 <= i < |lines| && lines[i] == l;
      assert SettledEntry(t, w.job, w.s, lines[i].info);
      var k :| 0 <= k < |t.files| && GoodFor(t, w.s.store.disk, l.info, k) && Settled(w.job, w.s, k);
      assert k != w.s.src.next;
    }
  }

  /** When a session finishes at last, every file without a warning is at the destination with
      the tree's content, whichever session sent it. */
  lemma FinishedMeansDelivered(t: Tree, disk: map<string, Content>, run: seq<WorldAction>)
    requires ValidTree(t) && WorldFeasible(t, Down(Store(disk, [], NoTail)), run)
    ensures var w := WorldAfter(t, Down(Store(disk, [], NoTail)), run);
            w.Up? && w.s.src.phase.Finished? ==>
              forall k :: 0 <= k < |t.files| && !HasWarning(w.s.src, t.files[k].rel) ==> Delivered(t, w.s.store.disk, k)
  {
    WorldRunKeepsInv(t, Down(Store(disk, [], NoTail)), run);
    var w := WorldAfter(t, Down(Store(disk, [], NoTail)), run);
    if w.Up? && w.s.src.phase.Finished? {
      forall k | 0 <= k < |t.files| && !HasWarning(w.s.src, t.files[k].rel)
        ensures Delivered(t, w.s.store.disk, k)
      {
        WarnedMeansListed(w.job, w.s.src.outcomes, k);
        SameTarget(t, w.job, k);
      }
    }
  }

  /** A tree that changes between sessions: whatever earlier sessions, over whatever trees, have
      left at the destination, the next session skips a file that has an entry exactly when its
      last entry has the size and the modification time that the file has now. A file that has
      changed since is, when the session has finished, on the disk as this session hashed it, or
      has a warning. */
  lemma ChangedIsSentAgain(files: seq<Entry>, destPath: string, chunkSize: nat, window: nat, store: Store,
                           run: seq<Action>, i: nat, k: nat)
    requires var j := Job(files, LoadManifest(LinesOf(store)), chunkSize, window);
             && ValidJob(j, destPath) && Feasible(j, StartSession(destPath, j.completed, store), run)
             && After(j, StartSession(destPath, j.completed, store), run).src.phase.Finished?
    requires var lines := LinesOf(store);
             && k < |files| && i < |lines| && lines[i].Recorded? && lines[i].info.path == files[k].rel
             && forall l :: i < l < |lines| && lines[l].Recorded? ==> lines[l].info.path != files[k].rel
    ensures var j := Job(files, LoadManifest(LinesOf(store)), chunkSize, window);
            var s, info := After(j, StartSession(destPath, j.completed, store), run), LinesOf(store)[i].info;
            && k < |s.src.outcomes|
            && (s.src.outcomes[k].Skipped? <==> info.size == files[k].size && info.mtime == files[k].mtime)
            && (info.size != files[k].size || info.mtime != files[k].mtime ==>
                  HasWarning(s.src, files[k].rel)
                  || exists content :: s.src.outcomes[k] == Accepted(content) && |content| == files[k].size
                                       && OnDisk(j, s, k, content))
  {
    var j := Job(files, LoadManifest(LinesOf(store)), chunkSize, window);
    PlainIsNotEmpty(files[k].rel);
    ManifestKeepsLast(LinesOf(store), i);
    DoneMeansTransferred(j, destPath, j.completed, store, run);
    var s := After(j, StartSession(destPath, j.completed, store), run);
    if s.src.outcomes[k].Accepted? {
      assert s.src.outcomes[k] == Accepted(s.src.outcomes[k].content);
    }
  }

  /** A file without an entry is never skipped. */
  lemma UnrecordedIsSent(files: seq<Entry>, destPath: string, chunkSize: nat, window: nat, store: Store,
                         run: seq<Action>, k: nat)
    requires var j := Job(files, LoadManifest(LinesOf(store)), chunkSize, window);
             && ValidJob(j, destPath) && Feasible(j, StartSession(destPath, j.completed, store), run)
             && After(j, StartSession(destPath, j.completed, store), run).src.phase.Finished?
    requires k < |files| && forall l :: l in LinesOf(store) && l.Recorded? ==> l.info.path != files[k].rel
    ensures var j := Job(files, LoadManifest(LinesOf(store)), chunkSize, window);
            var s := After(j, StartSession(destPath, j.completed, store), run);
            k < |s.src.outcomes| && !s.src.outcomes[k].Skipped?
  {
    var j := Job(files, LoadManifest(LinesOf(store)), chunkSize, window);
    ManifestHasLine(LinesOf(store), files[k].rel);
    DoneMeansTransferred(j, destPath, j.completed, store, run);
  }
}
