/** Names of database dump files: how `dump` prints them and how they are read back
    (internal/database/backup.go). */
module DumpNames {
  import opened Text

  function EnginePrefix(engine: string): string {
    if engine == "postgres" then "pg" else if engine == "mongodb" then "mongo" else "my"
  }

  function DumpSuffix(engine: string): string {
    if engine == "mongodb" then ".archive.gz" else ".sql.gz"
  }

  /** The file name printed by `dump` and `dumpMongo`. */
  function DumpName(engine: string, db: string, stamp: string): string {
    EnginePrefix(engine) + "_" + db + "_" + stamp + DumpSuffix(engine)
  }

  predicate IsDumpFile(name: string) {
    HasSuffix(name, ".sql.gz") || HasSuffix(name, ".archive.gz")
  }

  /** The parts between the first and the last, joined again. */
  function Middle(base: string): string {
    var parts := Split(base, '_');
    if |parts| < 3 then base else Join(parts[1..|parts| - 1], '_')
  }

  function ParseDumpName(name: string): (string, string) {
    var base := TrimSuffix(TrimSuffix(name, ".sql.gz"), ".archive.gz");
    var parts := Split(base, '_');
    if |parts| < 3 then ("", base)
    else
      var engine := if parts[0] == "pg" then "postgres"
                    else if parts[0] == "my" then "mysql"
                    else if parts[0] == "mongo" then "mongodb"
                    else "";
      (engine, Middle(base))
  }

  /** The engines `dump` accepts. */
  predicate Supported(engine: string) {
    engine == "postgres" || engine == "mysql" || engine == "mongodb"
  }

  /** validIdent: the names `dump` accepts. */
  predicate IdentChar(c: char) {
    'A' <= c <= 'Z' || 'a' <= c <= 'z' || '0' <= c <= '9' || c == '_'
  }

  predicate ValidIdent(s: string) {
    && 1 <= |s| <= 63 && IdentChar(s[0])
    && forall k :: 1 <= k < |s| ==> IdentChar(s[k]) || s[k] == '$' || s[k] == '-'
  }

  /** What the layout 20060102-150405 prints. */
  predicate ValidStamp(s: string) {
    |s| == 15 && s[8] == '-' && forall k :: 0 <= k < 15 && k != 8 ==> '0' <= s[k] <= '9'
  }

  /** safeDumpPath's syntactic test: a recognised dump that is its own base name. */
  predicate SafeName(name: string) {
    name != "" && '/' !in name && IsDumpFile(name)
  }

  /** A suffix without the separator is trimmed from the last part only. */
  lemma TrimKeepsHead(head: string, tail: string, suffix: string)
    requires '_' !in suffix && suffix != ""
    ensures TrimSuffix(head + "_" + tail, suffix) == head + "_" + TrimSuffix(tail, suffix)
    ensures '_' in TrimSuffix(tail, suffix) <==> '_' in tail
  {
    var s := head + "_" + tail;
    if HasSuffix(s, suffix) {
      assert |suffix| <= |tail| by {
        assert s[|head|] == '_';
      }
      assert s[|s| - |suffix|..] == tail[|tail| - |suffix|..];
    }
    if HasSuffix(tail, suffix) {
      assert s[|s| - |suffix|..] == tail[|tail| - |suffix|..];
      assert tail == tail[..|tail| - |suffix|] + suffix;
      assert s[..|s| - |suffix|] == head + "_" + tail[..|tail| - |suffix|];
    }
  }

  lemma TrimAppended(s: string, suffix: string)
    ensures HasSuffix(s + suffix, suffix) && TrimSuffix(s + suffix, suffix) == s
  {
    assert (s + suffix)[|s|..] == suffix && (s + suffix)[..|s|] == s;
  }

  /** What is left of a printed name when both suffixes have been trimmed. */
  lemma TrimmedName(engine: string, db: string, stamp: string) returns (rest: string)
    ensures TrimSuffix(TrimSuffix(DumpName(engine, db, stamp), ".sql.gz"), ".archive.gz")
            == EnginePrefix(engine) + "_" + db + "_" + rest
    ensures '_' in rest <==> '_' in stamp
    ensures IsDumpFile(DumpName(engine, db, stamp))
  {
    var head := EnginePrefix(engine) + "_" + db;
    var base := head + "_" + stamp;
    var name := DumpName(engine, db, stamp);
    TrimAppended(base, DumpSuffix(engine));
    if engine == "mongodb" {
      assert name[|name| - 7..] == "hive.gz" by {
        assert name[|name| - 11..] == ".archive.gz";
        assert name[|name| - 7..] == name[|name| - 11..][4..];
      }
      assert ".sql.gz"[0] == '.' && "hive.gz"[0] == 'h';
      rest := stamp;
    } else {
      TrimKeepsHead(head, stamp, ".archive.gz");
      rest := TrimSuffix(stamp, ".archive.gz");
    }
  }

  lemma HeadAndRest(head: string, p: seq<string>, q: seq<string>)
    ensures ([head] + p + q)[0] == head && ([head] + p + q)[1..] == p + q
  {
  }

  lemma SplitThree(prefix: string, db: string, rest: string)
    requires '_' !in prefix
    ensures var parts := Split(prefix + "_" + db + "_" + rest, '_');
            |parts| >= 3 && parts[0] == prefix && parts[1..] == Split(db, '_') + Split(rest, '_')
  {
    var head := prefix + "_" + db;
    SplitConcat(head, rest, '_');
    SplitConcat(prefix, db, '_');
    SplitSingle(prefix, '_');
    HeadAndRest(prefix, Split(db, '_'), Split(rest, '_'));
  }

  lemma MiddleIsDb(prefix: string, db: string, rest: string)
    requires '_' !in prefix
    ensures Middle(prefix + "_" + db + "_" + rest) == db <==> '_' !in rest
  {
    var dbParts, restParts := Split(db, '_'), Split(rest, '_');
    var parts := Split(prefix + "_" + db + "_" + rest, '_');
    SplitThree(prefix, db, rest);
    SplitSingle(rest, '_');
    JoinSplit(db, '_');
    var n := |restParts| - 1;
    assert parts[1..|parts| - 1] == dbParts + restParts[..n] by {
      assert parts[1..|parts| - 1] == parts[1..][..|parts| - 2];
    }
    if n > 0 {
      JoinConcat(dbParts, restParts[..n], '_');
      assert |Join(dbParts + restParts[..n], '_')| > |db|;
    } else {
      assert dbParts + restParts[..0] == dbParts;
    }
  }

  /** The two suffixes exclude each other. */
  lemma SuffixTellsArchive(base: string, engine: string)
    ensures HasSuffix(base + DumpSuffix(engine), ".archive.gz") <==> engine == "mongodb"
    ensures HasSuffix(base + DumpSuffix(engine), ".sql.gz") <==> engine != "mongodb"
  {
    var name := base + DumpSuffix(engine);
    TrimAppended(base, DumpSuffix(engine));
    if HasSuffix(name, ".archive.gz") {
      assert name[|name| - 7..] == ".archive.gz"[4..];
      assert name[|name| - 7] == 'h';
    }
    if HasSuffix(name, ".sql.gz") {
      assert name[|name| - 7] == '.';
    }
  }

  /** The printed name is a recognised dump, of an archive exactly for MongoDB, and names its engine; the database read back is
      the one printed, whatever underscores it has, exactly when the timestamp has none. */
  lemma DumpNameRoundTrip(engine: string, db: string, stamp: string)
    requires Supported(engine)
    ensures IsDumpFile(DumpName(engine, db, stamp))
    ensures ParseDumpName(DumpName(engine, db, stamp)).0 == engine
    ensures ParseDumpName(DumpName(engine, db, stamp)).1 == db <==> '_' !in stamp
    ensures HasSuffix(DumpName(engine, db, stamp), ".archive.gz") <==> engine == "mongodb"
    ensures HasSuffix(DumpName(engine, db, stamp), ".sql.gz") <==> engine != "mongodb"
  {
    SuffixTellsArchive(EnginePrefix(engine) + "_" + db + "_" + stamp, engine);
    var rest := TrimmedName(engine, db, stamp);
    SplitThree(EnginePrefix(engine), db, rest);
    MiddleIsDb(EnginePrefix(engine), db, rest);
  }

  predicate SlashFree(s: string) {
    forall k :: 0 <= k < |s| ==> s[k] != '/'
  }

  lemma SlashFreeConcat(a: string, b: string)
    requires SlashFree(a) && SlashFree(b)
    ensures SlashFree(a + b)
  {
  }

  lemma PartsAreSlashFree(engine: string, db: string, stamp: string)
    requires ValidIdent(db) && ValidStamp(stamp)
    ensures SlashFree(EnginePrefix(engine)) && SlashFree(DumpSuffix(engine)) && SlashFree(db) && SlashFree(stamp)
  {
  }

  lemma NameIsSlashFree(prefix: string, db: string, stamp: string, suffix: string)
    requires SlashFree(prefix) && SlashFree(db) && SlashFree(stamp) && SlashFree(suffix)
    ensures SlashFree(prefix + "_" + db + "_" + stamp + suffix)
  {
    var a := prefix + "_";
    SlashFreeConcat(prefix, "_");
    var b := a + db;
    SlashFreeConcat(a, db);
    var c := b + "_";
    SlashFreeConcat(b, "_");
    var d := c + stamp;
    SlashFreeConcat(c, stamp);
    SlashFreeConcat(d, suffix);
  }

  /** What `dump` prints, `restore` and `dumps` accept and attribute to the right database. */
  lemma DumpsAreRestorable(engine: string, db: string, stamp: string)
    requires Supported(engine) && ValidIdent(db) && ValidStamp(stamp)
    ensures SafeName(DumpName(engine, db, stamp))
    ensures ParseDumpName(DumpName(engine, db, stamp)) == (engine, db)
  {
    DumpNameRoundTrip(engine, db, stamp);
    PartsAreSlashFree(engine, db, stamp);
    NameIsSlashFree(EnginePrefix(engine), db, stamp, DumpSuffix(engine));
    assert SlashFree(DumpName(engine, db, stamp));
  }

  /** Two dumps with the same file name are dumps of the same database of the same engine at
      the same time. */
  lemma DumpNamesAreDistinct(engine1: string, db1: string, stamp1: string,
                             engine2: string, db2: string, stamp2: string)
    requires Supported(engine1) && Supported(engine2) && ValidStamp(stamp1) && ValidStamp(stamp2)
    requires DumpName(engine1, db1, stamp1) == DumpName(engine2, db2, stamp2)
    ensures engine1 == engine2 && db1 == db2 && stamp1 == stamp2
  {
    DumpNameRoundTrip(engine1, db1, stamp1);
    DumpNameRoundTrip(engine2, db2, stamp2);
    var head := EnginePrefix(engine1) + "_" + db1 + "_";
    var name := DumpName(engine1, db1, stamp1);
    assert stamp1 == name[|head|..|head| + 15];
    assert stamp2 == name[|head|..|head| + 15];
  }
}
