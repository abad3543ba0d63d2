/** What a history of sessions, interruptions and crashes does to entries of the manifest log:
    when an entry that was written stays there, and its file is never announced again. */
module MigrationHistory {
  import opened Basics
  import opened Paths
  import opened MigrationModel
  import opened MigrationSession
  import opened MigrationInvariant
  import opened MigrationResume

  const FRESH_LOG: seq<Line> := []

  function NewWorld(disk: map<string, Content>): World {
    Down(Store(disk, FRESH_LOG, NoTail))
  }

  /** The destination appends an entry to the log, in full or in part. */
  predicate Appends(t: Tree, w: World, a: WorldAction)
    requires WorldEnabled(t, w, a)
  {
    match a
    case Run(b) => b.DeliverDst? && Recording(w.s)
    case CrashInRecord(_) => true
    case _ => false
  }

  /** The path whose entry the action writes in full. */
  function RecordedBy(t: Tree, w: World, a: WorldAction): set<string>
    requires WorldEnabled(t, w, a)
  {
    if Appends(t, w, a) && (a.CrashInRecord? ==> a.whole) then {w.s.dst.curRel} else {}
  }

  function RecordedIn(t: Tree, w: World, run: seq<WorldAction>): set<string>
    requires WorldFeasible(t, w, run)
    decreases |run|
  {
    if run == [] then {} else RecordedBy(t, w, run[0]) + RecordedIn(t, WorldApply(t, w, run[0]), run[1..])
  }

  /** The entry is appended to an unterminated line, and the two run together: the new entry is
      lost when it is written in full, the old one when it was complete. */
  predicate Spoils(t: Tree, w: World, a: WorldAction)
    requires WorldEnabled(t, w, a)
  {
    Appends(t, w, a) && (w.s.store.tail.WholeLine? || (w.s.store.tail.HalfLine? && (a.CrashInRecord? ==> a.whole)))
  }

  predicate NoneSpoils(t: Tree, w: World, run: seq<WorldAction>)
    requires WorldFeasible(t, w, run)
    decreases |run|
  {
    run == [] || (!Spoils(t, w, run[0]) && NoneSpoils(t, WorldApply(t, w, run[0]), run[1..]))
  }

  /** The next restart would report all these paths. */
  predicate Reports(w: World, paths: set<string>) {
    forall p :: p in paths ==> p in LoadManifest(LinesOf(StoreOf(w)))
  }

  /** At every moment of the run, everything recorded so far is reported; `known` was recorded
      before it. */
  predicate AlwaysReports(t: Tree, w: World, known: set<string>, run: seq<WorldAction>)
    requires WorldFeasible(t, w, run)
    decreases |run|
  {
    Reports(w, known)
    && (run == [] || AlwaysReports(t, WorldApply(t, w, run[0]), known + RecordedBy(t, w, run[0]), run[1..]))
  }

  // ─── One step ────────────────────────────────────────────────────────────────

  /** A complete entry without its newline is the only one for its path, and is known. */
  predicate TailInv(w: World, known: set<string>) {
    var store := StoreOf(w);
    store.tail.WholeLine? ==>
      && store.tail.info.path in known
      && forall l :: l in store.log && l.Recorded? ==> l.info.path != store.tail.info.path
  }

  /** While a file is being recorded the log has no entry for it. */
  lemma RecordingIsNew(t: Tree, j: Job, s: Session)
    requires SessionInv(t, j, s) && Recording(s)
    ensures s.dst.curRel != "" && EntryOf(s.dst).path == s.dst.curRel
    ensures forall l :: l in LinesOf(s.store) && l.Recorded? ==> l.info.path != s.dst.curRel
  {
    CarriesAttempt(j, s);
    CarryHead(j, s, Carry(j, s, true));
    var lines := LinesOf(s.store);
    PlainIsNotEmpty(j.files[s.src.next].rel);
    forall l | l in lines && l.Recorded? ensures l.info.path != s.dst.curRel {
      var i :| 0 <= i < |lines| && lines[i] == l;
      assert SettledEntry(t, j, s, lines[i].info);
      var k :| 0 <= k < |t.files| && GoodFor(t, s.store.disk, l.info, k) && Settled(j, s, k);
      InProgressIsUnsettled(t, j, s, k);
    }
  }

  lemma NotInManifest(lines: seq<Line>, rel: string)
    requires forall l :: l in lines && l.Recorded? ==> l.info.path != rel
    ensures rel !in LoadManifest(lines)
  {
    ManifestHasLine(lines, rel);
  }

  lemma ManifestGrows(lines: seq<Line>, l: Line)
    ensures LoadManifest(lines).Keys <= LoadManifest(lines + [l]).Keys
    ensures l.Recorded? && l.info.path != "" ==> l.info.path in LoadManifest(lines + [l])
    ensures !l.Recorded? ==> LoadManifest(lines + [l]) == LoadManifest(lines)
  {
    assert (lines + [l])[..|lines|] == lines;
  }

  /** What an append does to the log. */
  function Appended(store: Store, info: FileInfo, a: WorldAction): Store {
    if a.CrashInRecord? then TornAppend(store, info, a.whole) else AppendLine(store, info)
  }

  lemma AppendingStore(t: Tree, w: World, a: WorldAction)
    requires WorldEnabled(t, w, a)
    ensures var store, store' := StoreOf(w), StoreOf(WorldApply(t, w, a));
            if Appends(t, w, a) then store' == Appended(store, EntryOf(w.s.dst), a)
            else store'.log == store.log && store'.tail == store.tail
  {
  }

  /** An append that spoils nothing keeps every line that counts, and adds its own. */
  lemma CleanAppend(store: Store, info: FileInfo, a: WorldAction)
    requires info.path != "" && !store.tail.WholeLine? && (store.tail.HalfLine? ==> a.CrashInRecord? && !a.whole)
    ensures var before, after := LoadManifest(LinesOf(store)), LoadManifest(LinesOf(Appended(store, info, a)));
            before.Keys <= after.Keys && ((a.CrashInRecord? ==> a.whole) ==> info.path in after)
  {
    ManifestGrows(store.log, Recorded(info));
    ManifestGrows(store.log, Garbage);
  }

  /** After one that does, the log is as it was before the unterminated line. */
  lemma SpoiledAppend(store: Store, info: FileInfo, a: WorldAction)
    requires !store.tail.NoTail?
    ensures LoadManifest(LinesOf(Appended(store, info, a))) == LoadManifest(store.log)
  {
    ManifestGrows(store.log, Garbage);
    ManifestGrows(store.log + [Garbage], Garbage);
  }

  lemma CleanStepKeepsReports(t: Tree, w: World, a: WorldAction, known: set<string>)
    requires WorldInv(t, w) && WorldEnabled(t, w, a) && !Spoils(t, w, a) && Reports(w, known) && TailInv(w, known)
    ensures var w', known' := WorldApply(t, w, a), known + RecordedBy(t, w, a);
            Reports(w', known') && TailInv(w', known')
  {
    AppendingStore(t, w, a);
    if Appends(t, w, a) {
      RecordingIsNew(t, w.job, w.s);
      CleanAppend(StoreOf(w), EntryOf(w.s.dst), a);
      CleanAppendKeepsTail(StoreOf(w), EntryOf(w.s.dst), a);
    }
  }

  lemma CleanAppendKeepsTail(store: Store, info: FileInfo, a: WorldAction)
    requires !store.tail.WholeLine? && (store.tail.HalfLine? ==> a.CrashInRecord? && !a.whole)
    requires forall l :: l in LinesOf(store) && l.Recorded? ==> l.info.path != info.path
    ensures var store' := Appended(store, info, a);
            store'.tail.WholeLine? ==> store'.tail.info == info && a.CrashInRecord? && a.whole && store'.log == store.log
    ensures store.tail.NoTail? ==> LinesOf(store) == store.log
  {
  }

  lemma SpoilingStepForgets(t: Tree, w: World, a: WorldAction, known: set<string>) returns (p: string)
    requires WorldInv(t, w) && WorldEnabled(t, w, a) && Spoils(t, w, a) && TailInv(w, known)
    ensures p in known + RecordedBy(t, w, a)
    ensures p !in LoadManifest(LinesOf(StoreOf(WorldApply(t, w, a))))
  {
    var store := StoreOf(w);
    AppendingStore(t, w, a);
    SpoiledAppend(store, EntryOf(w.s.dst), a);
    if store.tail.WholeLine? {
      p := store.tail.info.path;
    } else {
      p := w.s.dst.curRel;
      RecordingIsNew(t, w.job, w.s);
      assert forall l :: l in store.log ==> l in LinesOf(store);
    }
    NotInManifest(store.log, p);
  }

  // ─── Histories ───────────────────────────────────────────────────────────────

  lemma {:induction false} ReportsUnlessSpoiled(t: Tree, w: World, known: set<string>, run: seq<WorldAction>)
    requires WorldInv(t, w) && WorldFeasible(t, w, run) && Reports(w, known) && TailInv(w, known)
    ensures AlwaysReports(t, w, known, run) <==> NoneSpoils(t, w, run)
    decreases |run|
  {
    if run != [] {
      var w', known' := WorldApply(t, w, run[0]), known + RecordedBy(t, w, run[0]);
      if Spoils(t, w, run[0]) {
        var p := SpoilingStepForgets(t, w, run[0], known);
        assert !Reports(w', known');
      } else {
        WorldStepKeepsInv(t, w, run[0]);
        CleanStepKeepsReports(t, w, run[0], known);
        ReportsUnlessSpoiled(t, w', known', run[1..]);
      }
    }
  }

  /** Over an unchanged tree and any history: every entry that was ever written in full is still
      reported at every later moment, if and only if no later append met an unterminated line
      and lost one of the two. */
  lemma RecordedIsRemembered(t: Tree, disk: map<string, Content>, run: seq<WorldAction>)
    requires ValidTree(t) && WorldFeasible(t, NewWorld(disk), run)
    ensures AlwaysReports(t, NewWorld(disk), {}, run) <==> NoneSpoils(t, NewWorld(disk), run)
  {
    ReportsUnlessSpoiled(t, NewWorld(disk), {}, run);
  }

  lemma {:induction false} CleanRunReports(t: Tree, w: World, known: set<string>, run: seq<WorldAction>)
    requires WorldInv(t, w) && WorldFeasible(t, w, run) && NoneSpoils(t, w, run)
    requires Reports(w, known) && TailInv(w, known)
    ensures var w', known' := WorldAfter(t, w, run), known + RecordedIn(t, w, run);
            WorldInv(t, w') && Reports(w', known') && TailInv(w', known')
    decreases |run|
  {
    if run == [] {
      assert known + {} == known;
    } else {
      var next, more := WorldApply(t, w, run[0]), known + RecordedBy(t, w, run[0]);
      WorldStepKeepsInv(t, w, run[0]);
      CleanStepKeepsReports(t, w, run[0], known);
      CleanRunReports(t, next, more, run[1..]);
      assert more + RecordedIn(t, next, run[1..]) == known + RecordedIn(t, w, run);
    }
  }

  /** In such a history no file that was ever recorded, in whichever session, is announced
      again. */
  lemma RecordedIsNeverAnnounced(t: Tree, disk: map<string, Content>, run: seq<WorldAction>, content: Content)
    requires ValidTree(t) && WorldFeasible(t, NewWorld(disk), run) && NoneSpoils(t, NewWorld(disk), run)
    requires WorldEnabled(t, WorldAfter(t, NewWorld(disk), run), Run(Source(SendHeader(content))))
    ensures var w := WorldAfter(t, NewWorld(disk), run);
            w.s.src.next < |t.files| && t.files[w.s.src.next].rel !in RecordedIn(t, NewWorld(disk), run)
  {
    var w := WorldAfter(t, NewWorld(disk), run);
    CleanRunReports(t, NewWorld(disk), {}, run);
    assert {} + RecordedIn(t, NewWorld(disk), run) == RecordedIn(t, NewWorld(disk), run);
    RecordedIsNeverResent(t, disk, run, content);
    NotInManifest(LinesOf(w.s.store), t.files[w.s.src.next].rel);
  }

  predicate NeverTorn(run: seq<WorldAction>) {
    forall k :: 0 <= k < |run| ==> !run[k].CrashInRecord?
  }

  /** In particular when the destination never stops while it records a file. */
  lemma {:induction false} UntornIsClean(t: Tree, w: World, run: seq<WorldAction>)
    requires WorldFeasible(t, w, run) && StoreOf(w).tail.NoTail? && NeverTorn(run)
    ensures NoneSpoils(t, w, run)
    decreases |run|
  {
    if run != [] {
      assert !run[0].CrashInRecord?;
      AppendingStore(t, w, run[0]);
      assert forall k :: 0 <= k < |run[1..]| ==> run[1..][k] == run[k + 1];
      UntornIsClean(t, WorldApply(t, w, run[0]), run[1..]);
    }
  }

  // ─── A spoiled entry is announced again ──────────────────────────────────────

  /** No action of the run appends to the log. */
  predicate LeavesLog(t: Tree, w: World, run: seq<WorldAction>)
    requires WorldFeasible(t, w, run)
    decreases |run|
  {
    run == [] || (!Appends(t, w, run[0]) && LeavesLog(t, WorldApply(t, w, run[0]), run[1..]))
  }

  /** Some history leads from w to w', and appends nothing. */
  ghost predicate CanGo(t: Tree, w: World, w': World) {
    exists run: seq<WorldAction> :: WorldFeasible(t, w, run) && WorldAfter(t, w, run) == w' && LeavesLog(t, w, run)
  }

  lemma GoNowhere(t: Tree, w: World)
    ensures CanGo(t, w, w)
  {
    assert WorldFeasible(t, w, []) && WorldAfter(t, w, []) == w && LeavesLog(t, w, []);
  }

  lemma GoFirst(t: Tree, w: World, a: WorldAction, w': World)
    requires WorldEnabled(t, w, a) && !Appends(t, w, a) && CanGo(t, WorldApply(t, w, a), w')
    ensures CanGo(t, w, w')
  {
    var next := WorldApply(t, w, a);
    var run: seq<WorldAction> :| WorldFeasible(t, next, run) && WorldAfter(t, next, run) == w' && LeavesLog(t, next, run);
    var more := [a] + run;
    assert more[0] == a && more[1..] == run;
    assert WorldFeasible(t, w, more) && WorldAfter(t, w, more) == w' && LeavesLog(t, w, more);
  }

  /** A session between two files. */
  predicate AtHead(t: Tree, w: World, k: nat) {
    w.Up? && w.s.src.phase == Listing && w.s.src.next == k && w.job.files == t.files
  }

  /** A session can come to any file that lies ahead; those it is not to skip disappear. */
  lemma {:induction false} GoToFile(t: Tree, w: World, k: nat) returns (w': World)
    requires AtHead(t, w, if w.Up? then w.s.src.next else 0) && w.s.src.next <= k < |t.files|
    ensures CanGo(t, w, w') && AtHead(t, w', k) && w'.job == w.job && w'.s.store == w.s.store
    decreases k - w.s.src.next
  {
    var n := w.s.src.next;
    if n == k {
      w' := w;
      GoNowhere(t, w);
    } else if Covered(w.job, t.files[n]) {
      var w1 := WorldApply(t, w, Run(Source(Skip)));
      w' := GoToFile(t, w1, k);
      GoFirst(t, w, Run(Source(Skip)), w');
    } else {
      var w1 := WorldApply(t, w, Run(Source(Begin)));
      var w2 := WorldApply(t, w1, Run(Source(Drain)));
      var w3 := WorldApply(t, w2, Run(Source(Vanish)));
      w' := GoToFile(t, w3, k);
      GoFirst(t, w2, Run(Source(Vanish)), w');
      GoFirst(t, w1, Run(Source(Drain)), w');
      GoFirst(t, w, Run(Source(Begin)), w');
    }
  }

  /** A file that the log does not report can be announced by the next session. */
  lemma UnreportedIsAnnounced(t: Tree, store: Store, k: nat) returns (w: World)
    requires ValidTree(t) && k < |t.files| && t.files[k].rel !in LoadManifest(LinesOf(store))
    ensures CanGo(t, Down(store), w) && w.Up? && w.s.src.next == k
    ensures WorldEnabled(t, w, Run(Source(SendHeader(t.contents[k]))))
  {
    var up := WorldApply(t, Down(store), Restart);
    var there := GoToFile(t, up, k);
    var begun := WorldApply(t, there, Run(Source(Begin)));
    w := WorldApply(t, begun, Run(Source(Drain)));
    GoNowhere(t, w);
    GoFirst(t, begun, Run(Source(Drain)), w);
    GoFirst(t, there, Run(Source(Begin)), w);
    GoOn(t, up, there, w);
    GoFirst(t, Down(store), Restart, w);
  }

  lemma GoOn(t: Tree, w: World, w1: World, w2: World)
    requires CanGo(t, w, w1) && CanGo(t, w1, w2)
    ensures CanGo(t, w, w2)
  {
    var run: seq<WorldAction> :| WorldFeasible(t, w, run) && WorldAfter(t, w, run) == w1 && LeavesLog(t, w, run);
    GoAlong(t, w, run, w2);
  }

  lemma {:induction false} GoAlong(t: Tree, w: World, run: seq<WorldAction>, w2: World)
    requires WorldFeasible(t, w, run) && LeavesLog(t, w, run) && CanGo(t, WorldAfter(t, w, run), w2)
    ensures CanGo(t, w, w2)
    decreases |run|
  {
    if run != [] {
      GoAlong(t, WorldApply(t, w, run[0]), run[1..], w2);
      GoFirst(t, w, run[0], w2);
    }
  }

  lemma GoMore(t: Tree, w: World, w1: World, a: WorldAction)
    requires CanGo(t, w, w1) && WorldEnabled(t, w1, a) && !Appends(t, w1, a)
    ensures CanGo(t, w, WorldApply(t, w1, a))
  {
    GoNowhere(t, WorldApply(t, w1, a));
    GoFirst(t, w1, a, WorldApply(t, w1, a));
    GoOn(t, w, w1, WorldApply(t, w1, a));
  }

  /** Every path that a history has recorded is one of the tree's. */
  lemma {:induction false} RecordedIsListed(t: Tree, w: World, run: seq<WorldAction>, p: string)
    requires WorldInv(t, w) && WorldFeasible(t, w, run) && p in RecordedIn(t, w, run)
    ensures exists k :: 0 <= k < |t.files| && t.files[k].rel == p
    decreases |run|
  {
    if p in RecordedBy(t, w, run[0]) {
      CarriesAttempt(w.job, w.s);
      CarryHead(w.job, w.s, Carry(w.job, w.s, true));
      assert t.files[w.s.src.next].rel == p;
    } else {
      WorldStepKeepsInv(t, w, run[0]);
      RecordedIsListed(t, WorldApply(t, w, run[0]), run[1..], p);
    }
  }

  /** The other half: an append that loses an entry is followed by a history, without further
      appends, in which the source announces a file that was recorded. */
  lemma SpoiledIsAnnounced(t: Tree, disk: map<string, Content>, run: seq<WorldAction>, a: WorldAction)
      returns (k: nat, w: World)
    requires ValidTree(t) && WorldFeasible(t, NewWorld(disk), run) && NoneSpoils(t, NewWorld(disk), run)
    requires var w := WorldAfter(t, NewWorld(disk), run); WorldEnabled(t, w, a) && Spoils(t, w, a)
    ensures var before := WorldAfter(t, NewWorld(disk), run);
            && k < |t.files| && t.files[k].rel in RecordedIn(t, NewWorld(disk), run) + RecordedBy(t, before, a)
            && CanGo(t, WorldApply(t, before, a), w) && w.Up? && w.s.src.next == k
            && WorldEnabled(t, w, Run(Source(SendHeader(t.contents[k]))))
  {
    var start := NewWorld(disk);
    var before := WorldAfter(t, start, run);
    CleanRunReports(t, start, {}, run);
    var known := RecordedIn(t, start, run);
    assert {} + known == known;
    var p := SpoilingStepForgets(t, before, a, known);
    if p in known {
      RecordedIsListed(t, start, run, p);
    } else {
      assert [a][1..] == [];
      assert WorldFeasible(t, WorldApply(t, before, a), []);
      assert p in RecordedIn(t, before, [a]);
      RecordedIsListed(t, before, [a], p);
    }
    k :| 0 <= k < |t.files| && t.files[k].rel == p;
    var after := WorldApply(t, before, a);
    w := UnreportedIsAnnounced(t, StoreOf(after), k);
    if after.Up? {
      GoFirst(t, after, Interrupt, w);
    }
  }

  // ─── One file, one torn line ─────────────────────────────────────────────────

  const ONE_FILE := Tree([Entry("a", 1, 0, 5)], [[7]], "/d", 0x10_0000, 0x80_0000)

  lemma OneFileIsValid()
    ensures ValidTree(ONE_FILE)
    ensures TargetOf("/d", "a") == Some(Target(JobOf(ONE_FILE, map[]), "/d", 0))
  {
    ComponentsOfRooted(["d"]);
    assert Rooted(["d"]) == "/d";
    Text.SplitSingle("a", SLASH);
    TargetsAreDistinct(JobOf(ONE_FILE, map[]), "/d", 0, 0);
  }

  const ONE_INFO := HeaderInfo(ONE_FILE.files[0], [7])

  /** The file has been sent and written, and its file_done is next. */
  function OneSent(store: Store): World {
    var path := Target(JobOf(ONE_FILE, map[]), "/d", 0);
    Up(JobOf(ONE_FILE, map[]),
       Session(Src(Awaiting(0), 0, 1, 1, 1, [7], [7], 0, 0, 0, 1, 0, [], []), Channels([], []), [FileDone(1, 1)], [],
               Dst("/d", map[], 1, "a", path, true, ONE_INFO, [7], 1, 0, false),
               store.(disk := store.disk[path := [7]]), false))
  }

  /** The same just after the header has been handled. */
  function OneOpen(store: Store): World {
    var path := Target(JobOf(ONE_FILE, map[]), "/d", 0);
    Up(JobOf(ONE_FILE, map[]),
       Session(Src(Streaming(0, false), 0, 1, 1, 1, [7], [], 0, 0, 0, 0, 0, [], []), Channels([], []), [], [],
               Dst("/d", map[], 1, "a", path, true, ONE_INFO, [], 0, 0, false),
               store.(disk := store.disk[path := []]), false))
  }

  /** The header is under way. */
  function OneAnnounced(store: Store): World {
    var w := OneOpen(store);
    w.(s := w.s.(dst := NewDst("/d", map[]), store := store, toDst := [Header(1, ONE_INFO, 1)]))
  }

  function OneStarted(store: Store): World {
    Up(JobOf(ONE_FILE, map[]), StartSession("/d", map[], store))
  }

  lemma StartOne(store: Store)
    requires LoadManifest(LinesOf(store)) == map[]
    ensures CanGo(ONE_FILE, Down(store), OneStarted(store))
  {
    GoNowhere(ONE_FILE, Down(store));
    GoMore(ONE_FILE, Down(store), Down(store), Restart);
  }

  lemma AnnounceOne(store: Store)
    ensures CanGo(ONE_FILE, OneStarted(store), OneAnnounced(store))
  {
    var w1 := OneStarted(store);
    GoNowhere(ONE_FILE, w1);
    GoMore(ONE_FILE, w1, w1, Run(Source(Begin)));
    var w2 := WorldApply(ONE_FILE, w1, Run(Source(Begin)));
    GoMore(ONE_FILE, w1, w2, Run(Source(Drain)));
    var w3 := WorldApply(ONE_FILE, w2, Run(Source(Drain)));
    GoMore(ONE_FILE, w1, w3, Run(Source(SendHeader([7]))));
    assert WorldApply(ONE_FILE, w3, Run(Source(SendHeader([7])))) == OneAnnounced(store);
  }

  lemma OpenOne(store: Store)
    ensures CanGo(ONE_FILE, OneAnnounced(store), OneOpen(store))
  {
    OneFileIsValid();
    var w := OneAnnounced(store);
    GoNowhere(ONE_FILE, w);
    GoMore(ONE_FILE, w, w, Run(DeliverDst(true, 0)));
    assert WorldApply(ONE_FILE, w, Run(DeliverDst(true, 0))) == OneOpen(store);
  }

  /** The same with the byte on its way. */
  function OneUnderWay(store: Store): World {
    var w := OneOpen(store);
    w.(s := w.s.(src := w.s.src.(phase := Streaming(0, true), sent := [7], bytesTransferred := 1),
                 toDst := [Chunk(1, 0, [7], true, 1)]))
  }

  lemma SendByte(store: Store)
    ensures CanGo(ONE_FILE, OneOpen(store), OneUnderWay(store))
  {
    var w := OneOpen(store);
    assert [] + [7] == [7];
    GoNowhere(ONE_FILE, w);
    GoMore(ONE_FILE, w, w, Run(Source(SendChunk([7]))));
    assert WorldApply(ONE_FILE, w, Run(Source(SendChunk([7])))) == OneUnderWay(store);
  }

  /** The byte has been written. */
  function OneWritten(store: Store): World {
    var w := OneSent(store);
    w.(s := w.s.(src := w.s.src.(phase := Streaming(0, true)), toDst := []))
  }

  lemma WriteByte(store: Store)
    ensures CanGo(ONE_FILE, OneUnderWay(store), OneWritten(store))
  {
    var w := OneUnderWay(store);
    assert [] + [7] == [7];
    GoNowhere(ONE_FILE, w);
    GoMore(ONE_FILE, w, w, Run(DeliverDst(true, 1)));
    assert WorldApply(ONE_FILE, w, Run(DeliverDst(true, 1))) == OneWritten(store);
  }

  lemma EndByte(store: Store)
    ensures CanGo(ONE_FILE, OneWritten(store), OneSent(store))
  {
    var w1 := OneWritten(store);
    GoNowhere(ONE_FILE, w1);
    GoMore(ONE_FILE, w1, w1, Run(Source(ReadOn)));
    var w2 := WorldApply(ONE_FILE, w1, Run(Source(ReadOn)));
    GoMore(ONE_FILE, w1, w2, Run(Source(EndOfFile)));
    assert WorldApply(ONE_FILE, w2, Run(Source(EndOfFile))) == OneSent(store);
  }

  lemma ReachOneSent(store: Store)
    requires LoadManifest(LinesOf(store)) == map[]
    ensures CanGo(ONE_FILE, Down(store), OneSent(store)) && Recording(OneSent(store).s)
  {
    StartOne(store);
    AnnounceOne(store);
    GoOn(ONE_FILE, Down(store), OneStarted(store), OneAnnounced(store));
    OpenOne(store);
    GoOn(ONE_FILE, Down(store), OneAnnounced(store), OneOpen(store));
    SendByte(store);
    GoOn(ONE_FILE, Down(store), OneOpen(store), OneUnderWay(store));
    WriteByte(store);
    GoOn(ONE_FILE, Down(store), OneUnderWay(store), OneWritten(store));
    EndByte(store);
    GoOn(ONE_FILE, Down(store), OneWritten(store), OneSent(store));
  }

  /** The store after the file has been verified over a torn line. */
  function Glued(store: Store): Store {
    OneSent(store).s.store.(log := store.log + [Garbage], tail := NoTail)
  }

  lemma RecordOne(store: Store)
    requires !store.tail.NoTail?
    ensures WorldEnabled(ONE_FILE, OneSent(store), Run(DeliverDst(true, 0)))
    ensures var w := WorldApply(ONE_FILE, OneSent(store), Run(DeliverDst(true, 0)));
            && w.Up? && w.s.store == Glued(store) && w.s.toSrc == [FileAck(1, true, 1)] && w.s.toDst == []
            && w.s.src == OneSent(store).s.src && w.s.chan == Channels([], []) && "a" in w.s.dst.completed
  {
  }

  lemma AcceptOne(store: Store) returns (w: World)
    requires !store.tail.NoTail?
    ensures WorldEnabled(ONE_FILE, OneSent(store), Run(DeliverDst(true, 0)))
    ensures CanGo(ONE_FILE, WorldApply(ONE_FILE, OneSent(store), Run(DeliverDst(true, 0))), w)
    ensures w.Up? && w.s.src.outcomes == [Accepted([7])] && "a" in w.s.dst.completed && w.s.store == Glued(store)
  {
    RecordOne(store);
    var w1 := WorldApply(ONE_FILE, OneSent(store), Run(DeliverDst(true, 0)));
    GoNowhere(ONE_FILE, w1);
    GoMore(ONE_FILE, w1, w1, Run(DeliverSrc));
    var w2 := WorldApply(ONE_FILE, w1, Run(DeliverSrc));
    GoMore(ONE_FILE, w1, w2, Run(Source(TakeFileAck)));
    w := WorldApply(ONE_FILE, w2, Run(Source(TakeFileAck)));
  }

  /** The smallest failing history. The destination stops in the middle of recording the tree's
      only file; in the next session the file is sent again, verified, recorded and accepted by
      the source; and yet the log reports nothing, so that the session after that announces the
      file once more. */
  lemma TornLineLosesNextEntry() returns (torn: Store, w: World, again: World)
    ensures CanGo(ONE_FILE, NewWorld(map[]), OneSent(Store(map[], [], NoTail)))
    ensures WorldEnabled(ONE_FILE, OneSent(Store(map[], [], NoTail)), CrashInRecord(false))
    ensures WorldApply(ONE_FILE, OneSent(Store(map[], [], NoTail)), CrashInRecord(false)) == Down(torn)
    ensures CanGo(ONE_FILE, Down(torn), OneSent(torn))
    ensures WorldEnabled(ONE_FILE, OneSent(torn), Run(DeliverDst(true, 0)))
    ensures CanGo(ONE_FILE, WorldApply(ONE_FILE, OneSent(torn), Run(DeliverDst(true, 0))), w)
    ensures w.Up? && w.s.src.outcomes == [Accepted([7])] && "a" in w.s.dst.completed
    ensures LoadManifest(LinesOf(w.s.store)) == map[]
    ensures CanGo(ONE_FILE, w, again) && WorldEnabled(ONE_FILE, again, Run(Source(SendHeader([7]))))
  {
    var first := Store(map[], [], NoTail);
    OneFileIsValid();
    ReachOneSent(first);
    torn := TornAppend(OneSent(first).s.store, ONE_INFO, false);
    assert LinesOf(torn) == [Garbage] && [Garbage][..0] == [];
    ReachOneSent(torn);
    w := AcceptOne(torn);
    assert LinesOf(w.s.store) == [Garbage];
    again := UnreportedIsAnnounced(ONE_FILE, w.s.store, 0);
    GoFirst(ONE_FILE, w, Interrupt, again);
  }
}
