/** The migration code as it updates its objects: `dstSession` with the files and the manifest
    log behind it, the ack channels of `srcSession`, and the loops of `loadManifest`, `drain`
    and the ack consumption of streamChunks. Proved against the functions of MigrationModel. */
module MigrationManager {
  import opened MigrationModel
  import opened MigrationInvariant
  import opened MigrationResults

  /** The destination's files and manifest log. */
  class Storage {
    var disk: map<string, Content>
    var log: seq<Line>
    var tail: Tail

    constructor ()
      ensures View() == Store(map[], [], NoTail)
    {
      disk, log, tail := map[], [], NoTail;
    }

    function View(): Store
      reads this
    {
      Store(disk, log, tail)
    }

    /** Create or truncate. */
    method Create(path: string)
      modifies this`disk
      ensures disk == old(disk)[path := []]
    {
      disk := disk[path := []];
    }

    method Write(path: string, data: Content)
      modifies this`disk
      ensures disk == old(disk)[path := Existing(old(disk), path) + data]
    {
      var before := if path in disk then disk[path] else [];
      disk := disk[path := before + data];
    }

    method Remove(path: string)
      modifies this`disk
      ensures disk == old(disk) - {path}
    {
      disk := disk - {path};
    }

    method Append(info: FileInfo)
      modifies this`log, this`tail
      ensures View() == AppendLine(old(View()), info)
    {
      if tail.NoTail? {
        log := log + [Recorded(info)];
      } else {
        log := log + [Garbage];
        tail := NoTail;
      }
    }

    /** loadManifest: one pass over the lines; the last entry of a path wins. */
    method LoadManifestFile() returns (out: map<string, FileInfo>)
      ensures out == LoadManifest(LinesOf(View()))
    {
      out := map[];
      var lines := LinesOf(View());
      for i := 0 to |lines|
        invariant out == LoadManifest(lines[..i])
      {
        assert lines[..i + 1][..i] == lines[..i];
        match lines[i] {
          case Recorded(info) =>
            if info.path != "" {
              out := out[info.path := info];
            }
          case Garbage =>
        }
      }
      assert lines[..|lines|] == lines;
    }
  }

  class DstSession {
    const destPath: string
    const storage: Storage
    var completed: map<string, FileInfo>
    var curFileID: nat
    var curRel: string
    var curPath: string
    var curOpen: bool
    var curInfo: FileInfo
    var curHash: Content
    var curWritten: nat
    var curAcked: nat
    var curBroken: bool

    function View(): Dst
      reads this
    {
      Dst(destPath, completed, curFileID, curRel, curPath, curOpen, curInfo, curHash, curWritten, curAcked, curBroken)
    }

    constructor (destPath: string, storage: Storage, completed: map<string, FileInfo>)
      ensures View() == NewDst(destPath, completed) && this.storage == storage
    {
      this.destPath, this.storage, this.completed := destPath, storage, completed;
      curFileID, curRel, curPath, curOpen, curInfo := 0, "", "", false, NO_INFO;
      curHash, curWritten, curAcked, curBroken := [], 0, 0, false;
    }

    method RecordCompleted(info: FileInfo)
      modifies this`completed, storage`log, storage`tail
      ensures completed == old(completed)[info.path := info]
      ensures storage.View() == AppendLine(old(storage.View()), info)
    {
      completed := completed[info.path := info];
      storage.Append(info);
    }

    /** dstFile. */
    method DstFile(fileID: nat, info: FileInfo, openOk: bool)
      modifies this, storage
      ensures (View(), storage.disk) == MigrationModel.DstFile(old(View()), old(storage.disk), fileID, info, openOk)
      ensures storage.log == old(storage.log) && storage.tail == old(storage.tail)
    {
      if curOpen {
        curOpen := false;
      }
      var dest := TargetOf(destPath, info.path);
      if dest.None? {
        curBroken := true;
        return;
      }
      if !openOk {
        curBroken := true;
        return;
      }
      storage.Create(dest.value);
      curFileID := fileID;
      curRel := info.path;
      curPath := dest.value;
      curOpen := true;
      curInfo := info;
      curHash := [];
      curWritten := 0;
      curAcked := 0;
      curBroken := false;
    }

    /** dstChunk. */
    method DstChunk(fileID: nat, data: Content, crcOk: bool, epoch: nat, landed: nat) returns (out: seq<ToSrc>)
      requires landed <= |data|
      modifies this, storage
      ensures (View(), storage.disk, out)
              == MigrationModel.DstChunk(old(View()), old(storage.disk), fileID, data, crcOk, epoch, landed)
      ensures storage.log == old(storage.log) && storage.tail == old(storage.tail)
    {
      out := [];
      if curBroken || !curOpen || fileID != curFileID {
        return;
      }
      if !crcOk {
        curBroken := true;
        return;
      }
      storage.Write(curPath, data[..landed]);
      if landed < |data| {
        curBroken := true;
        return;
      }
      assert data[..landed] == data;
      curHash := curHash + data;
      curWritten := curWritten + |data|;
      if curWritten - curAcked >= WINDOW_ACK_EVERY {
        curAcked := curWritten;
        out := [WindowAck(curFileID, curWritten, epoch)];
      }
    }

    /** dstFileDone. */
    method DstFileDone(fileID: nat, epoch: nat) returns (out: seq<ToSrc>)
      modifies this, storage
      ensures (View(), storage.View(), out) == MigrationModel.DstFileDone(old(View()), old(storage.View()), fileID, epoch)
    {
      if fileID != curFileID {
        return [];
      }
      var ok := !curBroken && curOpen;
      if ok {
        if curWritten != curInfo.size || (curInfo.sha256 != NoDigest && DigestOf(curHash) != curInfo.sha256) {
          ok := false;
        }
      }
      if ok {
        RecordCompleted(FileInfo(curRel, curInfo.size, 0, curInfo.mtime, curInfo.sha256));
      } else {
        if curPath != "" {
          storage.Remove(curPath);
        }
      }
      curOpen := false;
      curFileID := 0;
      out := [FileAck(fileID, ok, epoch)];
    }
  }

  /** The larger of the acks and the counter, as the consuming loop leaves it. */
  function Consumed(acked: nat, acks: seq<ToSrc>): nat
    decreases |acks|
  {
    if acks == [] then acked
    else Consumed(if acks[0].WindowAck? && acks[0].acked > acked then acks[0].acked else acked, acks[1..])
  }

  lemma {:induction false} ConsumedIsMaximum(acked: nat, acks: seq<ToSrc>)
    ensures Consumed(acked, acks) >= acked
    ensures forall k :: 0 <= k < |acks| ==> Consumed(acked, acks) >= AckedBy(acks[k])
    ensures Consumed(acked, acks) == acked || exists k :: 0 <= k < |acks| && Consumed(acked, acks) == AckedBy(acks[k])
    decreases |acks|
  {
    if acks != [] {
      var next := if acks[0].WindowAck? && acks[0].acked > acked then acks[0].acked else acked;
      ConsumedIsMaximum(next, acks[1..]);
      if Consumed(acked, acks) != next {
        var k :| 0 <= k < |acks[1..]| && Consumed(next, acks[1..]) == AckedBy(acks[1..][k]);
        assert acks[k + 1] == acks[1..][k];
      }
    }
  }

  class SrcSession {
    var fileAck: seq<ToSrc>
    var windowAck: seq<ToSrc>

    function View(): Channels
      reads this
    {
      Channels(fileAck, windowAck)
    }

    constructor ()
      ensures View() == Channels([], [])
    {
      fileAck, windowAck := [], [];
    }

    /** srcFileAck and srcWindowAck: never block, drop when full. */
    method PostAck(m: ToSrc)
      modifies this
      ensures View() == Post(old(View()), m)
    {
      match m {
        case FileAck(_, _, _) =>
          if |fileAck| < 1 {
            fileAck := fileAck + [m];
          }
        case WindowAck(_, _, _) =>
          if |windowAck| < WINDOW_ACK_SLOTS {
            windowAck := windowAck + [m];
          }
      }
    }

    /** drain and drainInt at the start of an attempt. */
    method DrainBoth()
      modifies this
      ensures View() == Channels([], [])
    {
      while fileAck != []
        decreases |fileAck|
      {
        fileAck := fileAck[1..];
      }
      while windowAck != []
        invariant fileAck == []
        decreases |windowAck|
      {
        windowAck := windowAck[1..];
      }
    }

    /** The loop that consumes pending window acks without blocking. */
    method ConsumeAcks(acked: nat) returns (r: nat)
      modifies this`windowAck
      ensures windowAck == [] && r == Consumed(acked, old(windowAck))
    {
      r := acked;
      while windowAck != []
        invariant Consumed(r, windowAck) == Consumed(acked, old(windowAck))
        decreases |windowAck|
      {
        var a := windowAck[0];
        windowAck := windowAck[1..];
        if a.WindowAck? && a.acked > r {
          r := a.acked;
        }
      }
    }
  }

  /** The byte total of the listing. */
  method SumSizes(files: seq<Entry>) returns (total: nat)
    ensures total == TotalSize(files)
  {
    total := 0;
    for i := 0 to |files|
      invariant total == TotalSize(files[..i])
    {
      assert files[..i + 1][..i] == files[..i];
      total := total + files[i].size;
    }
    assert files[..|files|] == files;
  }
}
