/** A directory migration (internal/migration/migration.go): the destination's handlers, the
    source's loop cut at the points where other goroutines may run, and the bounded channels
    between them. */
module MigrationModel {
  import opened Basics
  import opened Paths

  const MAX_FILE_RETRIES: nat := 3
  const WINDOW_ACK_EVERY: nat := 0x10_0000
  const WINDOW_ACK_SLOTS: nat := 64

  type Content = seq<byte>

  /** A SHA-256 sum, taken to be free of collisions. */
  datatype Digest = NoDigest | DigestOf(content: Content)

  datatype FileInfo = FileInfo(path: string, size: nat, mode: nat, mtime: int, sha256: Digest)

  /** Messages to the destination. `crcOk` says whether the chunk still matches its CRC32.
      `epoch` numbers the attempts of a session; no handler looks at it. */
  datatype ToDst =
    | Header(fileID: nat, info: FileInfo, epoch: nat)
    | Chunk(fileID: nat, offset: nat, data: Content, crcOk: bool, epoch: nat)
    | FileDone(fileID: nat, epoch: nat)

  /** Messages to the source. */
  datatype ToSrc =
    | WindowAck(fileID: nat, acked: nat, epoch: nat)
    | FileAck(fileID: nat, ok: bool, epoch: nat)

  // ─── The destination ─────────────────────────────────────────────────────────

  /** A line of the manifest log: an entry, or text that does not parse. */
  datatype Line = Recorded(info: FileInfo) | Garbage

  /** What a crash may leave after the last newline: nothing, half an entry, or an entry. */
  datatype Tail = NoTail | HalfLine | WholeLine(info: FileInfo)

  /** What survives a crash of the destination agent: the files and the manifest log. */
  datatype Store = Store(disk: map<string, Content>, log: seq<Line>, tail: Tail)

  /** A dstSession and its file in progress. */
  datatype Dst = Dst(
    destPath: string,
    completed: map<string, FileInfo>,
    curFileID: nat,
    curRel: string,
    curPath: string,
    curOpen: bool,
    curInfo: FileInfo,
    curHash: Content,
    curWritten: nat,
    curAcked: nat,
    curBroken: bool)

  const NO_INFO := FileInfo("", 0, 0, 0, NoDigest)

  function NewDst(destPath: string, completed: map<string, FileInfo>): Dst {
    Dst(destPath, completed, 0, "", "", false, NO_INFO, [], 0, 0, false)
  }

  function TargetOf(destPath: string, rel: string): Option<string> {
    if destPath != "" && destPath[0] == '/' then SafeJoin(destPath, rel) else None
  }

  /** dstFile: `openOk` says whether the directories and the file could be created. */
  function DstFile(d: Dst, disk: map<string, Content>, fileID: nat, info: FileInfo, openOk: bool)
      : (Dst, map<string, Content>)
  {
    var closed := d.(curOpen := false);
    match TargetOf(d.destPath, info.path)
    case None => (closed.(curBroken := true), disk)
    case Some(path) =>
      if !openOk then (closed.(curBroken := true), disk)
      else (d.(curFileID := fileID, curRel := info.path, curPath := path, curOpen := true, curInfo := info,
               curHash := [], curWritten := 0, curAcked := 0, curBroken := false),
            disk[path := []])
  }

  function Existing(disk: map<string, Content>, path: string): Content {
    if path in disk then disk[path] else []
  }

  /** dstChunk: `landed` is how many bytes the write put into the file. */
  function DstChunk(d: Dst, disk: map<string, Content>, fileID: nat, data: Content, crcOk: bool, epoch: nat, landed: nat)
      : (Dst, map<string, Content>, seq<ToSrc>)
    requires landed <= |data|
  {
    if d.curBroken || !d.curOpen || fileID != d.curFileID then
      (d, disk, [])
    else if !crcOk then
      (d.(curBroken := true), disk, [])
    else if landed < |data| then
      (d.(curBroken := true), disk[d.curPath := Existing(disk, d.curPath) + data[..landed]], [])
    else
      var disk' := disk[d.curPath := Existing(disk, d.curPath) + data];
      var written := d.curWritten + |data|;
      if written - d.curAcked >= WINDOW_ACK_EVERY then
        (d.(curHash := d.curHash + data, curWritten := written, curAcked := written), disk',
         [WindowAck(d.curFileID, written, epoch)])
      else
        (d.(curHash := d.curHash + data, curWritten := written), disk', [])
  }

  /** The verdict of dstFileDone. */
  predicate Verified(d: Dst) {
    && !d.curBroken && d.curOpen
    && d.curWritten == d.curInfo.size
    && (d.curInfo.sha256.NoDigest? || d.curInfo.sha256 == DigestOf(d.curHash))
  }

  /** A file whose header has no digest is verified by its size. */
  lemma SizeDecidesWithoutDigest(d: Dst)
    requires d.curInfo.sha256.NoDigest?
    ensures Verified(d) <==> d.curOpen && !d.curBroken && d.curWritten == d.curInfo.size
  {
  }

  /** The manifest entry of the file in progress. */
  function EntryOf(d: Dst): FileInfo {
    FileInfo(d.curRel, d.curInfo.size, 0, d.curInfo.mtime, d.curInfo.sha256)
  }

  /** Appending a line to the log: after an unterminated line the two run together. */
  function AppendLine(s: Store, info: FileInfo): Store {
    if s.tail.NoTail? then s.(log := s.log + [Recorded(info)])
    else s.(log := s.log + [Garbage], tail := NoTail)
  }

  /** dstFileDone. */
  function DstFileDone(d: Dst, s: Store, fileID: nat, epoch: nat): (Dst, Store, seq<ToSrc>) {
    if fileID != d.curFileID then (d, s, [])
    else
      var ok := Verified(d);
      var s' := if ok then AppendLine(s, EntryOf(d))
                else if d.curPath != "" then s.(disk := s.disk - {d.curPath})
                else s;
      var completed' := if ok then d.completed[d.curRel := EntryOf(d)] else d.completed;
      (d.(completed := completed', curOpen := false, curFileID := 0), s', [FileAck(fileID, ok, epoch)])
  }

  /** The lines loadManifest sees: an entry that only lacks its newline counts. */
  function LinesOf(s: Store): seq<Line> {
    match s.tail
    case NoTail => s.log
    case HalfLine => s.log + [Garbage]
    case WholeLine(info) => s.log + [Recorded(info)]
  }

  /** loadManifest: the last entry of a path counts; lines that do not parse are skipped. */
  function LoadManifest(lines: seq<Line>): map<string, FileInfo> {
    if lines == [] then map[]
    else
      var before := LoadManifest(lines[..|lines| - 1]);
      var last := lines[|lines| - 1];
      if last.Recorded? && last.info.path != "" then before[last.info.path := last.info] else before
  }

  // ─── The source ──────────────────────────────────────────────────────────────

  /** A listed file as the walk saw it. */
  datatype Entry = Entry(rel: string, size: nat, mode: nat, mtime: int)

  /** What startSource is given, with the defaults filled in. */
  datatype Job = Job(files: seq<Entry>, completed: map<string, FileInfo>, chunkSize: nat, window: nat)

  /** Positive parameters are used as they are; for others there are defaults. */
  function MakeJob(files: seq<Entry>, completed: map<string, FileInfo>, chunkSize: int, window: int): (j: Job)
    ensures j.chunkSize > 0 && j.window > 0
    ensures chunkSize > 0 ==> j.chunkSize == chunkSize
    ensures window > 0 ==> j.window == window
    ensures chunkSize <= 0 ==> j.chunkSize == 1024 * 1024
    ensures window <= 0 ==> j.window == 8 * 1024 * 1024
    ensures j.files == files && j.completed == completed
  {
    Job(files, completed,
        if chunkSize <= 0 then 0x10_0000 else chunkSize,
        if window <= 0 then 0x80_0000 else window)
  }

  datatype Warning = Warning(code: string, file: string)

  const FILE_MISSING := "TRANSFER_SOURCE_FILE_MISSING"
  const MAX_RETRIES := "TRANSFER_CHUNK_MAX_RETRIES"

  /** What became of a listed file; `content` is what was hashed on the accepted attempt. */
  datatype Outcome = Skipped | Accepted(content: Content) | Warned

  datatype Phase =
    | Listing                    // at the head of the loop over the files
    | Attempting(attempt: nat)   // at the head of the loop over the attempts
    | Drained(attempt: nat)      // the ack channels have been drained
    | Streaming(attempt: nat, draining: bool)   // in streamChunks; draining: emptying windowAck after a chunk
    | Awaiting(attempt: nat)     // file_done emitted; waiting for the verdict
    | Finished                   // migration_done emitted
    | Failed

  /** startSource and the sendFile call in progress. `sent` is what streamChunks has emitted in
      this attempt (its offset is |sent|), `hashed` what the hash pass read; `lastStart`,
      `outcomes` and `headers` record where the last chunk began, what has become of the files
      and how often this one was announced. */
  datatype Src = Src(
    phase: Phase,
    next: nat,
    fileID: nat,
    epoch: nat,
    headers: nat,
    hashed: Content,
    sent: Content,
    lastStart: nat,
    acked: nat,
    startBytes: int,
    bytesTransferred: int,
    filesCompleted: nat,
    warnings: seq<Warning>,
    outcomes: seq<Outcome>)

  const NEW_SRC := Src(Listing, 0, 0, 0, 0, [], [], 0, 0, 0, 0, 0, [], [])

  /** The channels fileAck (one slot) and windowAck (64 slots). */
  datatype Channels = Channels(fileAck: seq<ToSrc>, windowAck: seq<ToSrc>)

  datatype SrcStep =
    | Skip
    | Begin
    | Drain
    | Vanish                       // the file no longer exists
    | SendHeader(content: Content) // open and hash pass
    | TakeWindowAck
    | ReadOn                       // windowAck is empty: back to the head of streamChunks
    | SendChunk(data: Content)     // one Read that yields data
    | EndOfFile
    | TakeFileAck
    | Finish
    | Fail                         // any other error, a timeout or a cancellation

  function Offset(s: Src): nat {
    |s.sent|
  }

  /** The completed set covers the file: same size and modification time. */
  predicate Covered(j: Job, e: Entry) {
    e.rel in j.completed && j.completed[e.rel].size == e.size && j.completed[e.rel].mtime == e.mtime
  }

  /** The flow-control loop at the head of streamChunks lets the source read on. */
  predicate WindowOpen(j: Job, s: Src) {
    Offset(s) - s.acked < j.window
  }

  predicate CanStep(j: Job, s: Src, c: Channels, a: SrcStep) {
    match a
    case Skip => s.phase.Listing? && s.next < |j.files| && Covered(j, j.files[s.next])
    case Begin => s.phase.Listing? && s.next < |j.files| && !Covered(j, j.files[s.next])
    case Drain => s.phase.Attempting?
    case Vanish => s.phase.Drained? && s.next < |j.files|
    case SendHeader(_) => s.phase.Drained? && s.next < |j.files|
    case TakeWindowAck =>
      s.phase.Streaming? && (s.phase.draining || !WindowOpen(j, s)) && c.windowAck != [] && c.windowAck[0].WindowAck?
    case ReadOn => s.phase.Streaming? && s.phase.draining && c.windowAck == []
    case SendChunk(data) => s.phase.Streaming? && !s.phase.draining && WindowOpen(j, s) && 0 < |data| <= j.chunkSize
    case EndOfFile => s.phase.Streaming? && !s.phase.draining && WindowOpen(j, s)
    case TakeFileAck => s.phase.Awaiting? && c.fileAck != [] && c.fileAck[0].FileAck? && s.next < |j.files|
    case Finish => s.phase.Listing? && s.next == |j.files|
    case Fail => !s.phase.Finished? && !s.phase.Failed?
  }

  function HeaderInfo(e: Entry, content: Content): FileInfo {
    FileInfo(e.rel, e.size, e.mode, e.mtime, DigestOf(content))
  }

  /** sendFile gives the file up with a warning. */
  function GiveUp(s: Src, code: string, rel: string): Src {
    s.(phase := Listing, next := s.next + 1, warnings := s.warnings + [Warning(code, rel)],
       outcomes := s.outcomes + [Warned])
  }

  /** The source after the step, its channels, and what it emits. */
  function StepSrc(j: Job, s: Src, c: Channels, a: SrcStep): (Src, Channels, seq<ToDst>)
    requires CanStep(j, s, c, a)
  {
    match a
    case Skip =>
      (s.(bytesTransferred := s.bytesTransferred + j.files[s.next].size, filesCompleted := s.filesCompleted + 1,
          next := s.next + 1, outcomes := s.outcomes + [Skipped]), c, [])
    case Begin => (s.(fileID := s.fileID + 1, headers := 0, phase := Attempting(0)), c, [])
    case Drain => (s.(phase := Drained(s.phase.attempt)), Channels([], []), [])
    case Vanish => (GiveUp(s, FILE_MISSING, j.files[s.next].rel), c, [])
    case SendHeader(content) =>
      (s.(phase := Streaming(s.phase.attempt, false), epoch := s.epoch + 1, headers := s.headers + 1,
          hashed := content, sent := [], lastStart := 0, acked := 0, startBytes := s.bytesTransferred), c,
       [Header(s.fileID, HeaderInfo(j.files[s.next], content), s.epoch + 1)])
    case TakeWindowAck =>
      (s.(acked := if c.windowAck[0].acked > s.acked then c.windowAck[0].acked else s.acked),
       c.(windowAck := c.windowAck[1..]), [])
    case ReadOn => (s.(phase := Streaming(s.phase.attempt, false)), c, [])
    case SendChunk(data) =>
      (s.(phase := Streaming(s.phase.attempt, true), sent := s.sent + data, lastStart := Offset(s),
          bytesTransferred := s.startBytes + |s.sent| + |data|), c,
       [Chunk(s.fileID, Offset(s), data, true, s.epoch)])
    case EndOfFile => (s.(phase := Awaiting(s.phase.attempt)), c, [FileDone(s.fileID, s.epoch)])
    case TakeFileAck =>
      var c' := c.(fileAck := c.fileAck[1..]);
      if c.fileAck[0].ok then
        (s.(phase := Listing, next := s.next + 1, filesCompleted := s.filesCompleted + 1,
            outcomes := s.outcomes + [Accepted(s.hashed)]), c', [])
      else
        var s' := s.(bytesTransferred := s.startBytes);
        if s.phase.attempt + 1 < MAX_FILE_RETRIES then (s'.(phase := Attempting(s.phase.attempt + 1)), c', [])
        else (GiveUp(s', MAX_RETRIES, j.files[s.next].rel), c', [])
    case Finish => (s.(phase := Finished), c, [])
    case Fail => (s.(phase := Failed), c, [])
  }

  /** srcFileAck and srcWindowAck: a full channel drops the ack. */
  function Post(c: Channels, m: ToSrc): Channels {
    match m
    case FileAck(_, _, _) => if |c.fileAck| < 1 then c.(fileAck := c.fileAck + [m]) else c
    case WindowAck(_, _, _) => if |c.windowAck| < WINDOW_ACK_SLOTS then c.(windowAck := c.windowAck + [m]) else c
  }
}
