/** The mapping of source files to destination files: `relPath` and `safeJoin`, over the
    lexical path functions of the Go library (internal/migration/migration.go). */
module Paths {
  import opened Basics
  import opened Text

  const SLASH := '/'

  /** A path component that Clean keeps. */
  predicate Plain(c: string) {
    c != "" && c != "." && c != ".." && SLASH !in c
  }

  predicate AllPlain(parts: seq<string>) {
    forall k :: 0 <= k < |parts| ==> Plain(parts[k])
  }

  /** Clean on a rooted path, component by component; ".." at the root stays at the root. */
  function Resolve(stack: seq<string>, parts: seq<string>): seq<string>
    decreases |parts|
  {
    if parts == [] then stack
    else if parts[0] == "" || parts[0] == "." then Resolve(stack, parts[1..])
    else if parts[0] == ".." then Resolve(if stack == [] then [] else stack[..|stack| - 1], parts[1..])
    else Resolve(stack + [parts[0]], parts[1..])
  }

  /** The rooted path with these components. */
  function Rooted(parts: seq<string>): string {
    [SLASH] + Join(parts, SLASH)
  }

  /** filepath.Clean on a rooted path. */
  function Clean(path: string): string
    requires path != "" && path[0] == SLASH
  {
    Rooted(Resolve([], Split(path[1..], SLASH)))
  }

  /** What `prepare` accepts as a destination: IsAbs and already clean. */
  predicate IsCleanAbs(path: string) {
    path != "" && path[0] == SLASH && Clean(path) == path
  }

  /** The components of a clean absolute path. */
  function Components(path: string): seq<string> {
    if |path| <= 1 then [] else Split(path[1..], SLASH)
  }

  /** filepath.Join(base, rel) on a rooted base. */
  function JoinPath(base: string, rel: string): string
    requires base != "" && base[0] == SLASH
  {
    if rel == "" then Clean(base) else Clean(base + [SLASH] + rel)
  }

  function SafeJoin(base: string, rel: string): Option<string>
    requires base != "" && base[0] == SLASH
  {
    var joined := JoinPath(base, rel);
    if joined != base && !(base + [SLASH] <= joined) then None else Some(joined)
  }

  function CommonLength(a: seq<string>, b: seq<string>): (n: nat)
    ensures n <= |a| && n <= |b| && a[..n] == b[..n]
    ensures n < |a| && n < |b| ==> a[n] != b[n]
  {
    if a == [] || b == [] || a[0] != b[0] then 0
    else
      var n := CommonLength(a[1..], b[1..]);
      assert a[..n + 1] == [a[0]] + a[1..][..n] && b[..n + 1] == [b[0]] + b[1..][..n];
      n + 1
  }

  function Ups(n: nat): seq<string> {
    seq(n, _ => "..")
  }

  /** filepath.Rel on clean absolute paths. */
  function RelPath(base: string, target: string): string {
    var b, t := Components(base), Components(target);
    var n := CommonLength(b, t);
    if n == |b| && n == |t| then "." else Join(Ups(|b| - n) + t[n..], SLASH)
  }

  // ─── Clean, by components ────────────────────────────────────────────────────

  lemma {:induction false} ResolveConcat(stack: seq<string>, p: seq<string>, q: seq<string>)
    ensures Resolve(stack, p + q) == Resolve(Resolve(stack, p), q)
    decreases |p|
  {
    if p == [] {
      assert p + q == q;
    } else {
      assert (p + q)[0] == p[0] && (p + q)[1..] == p[1..] + q;
      var next := if p[0] == "" || p[0] == "." then stack
                  else if p[0] == ".." then (if stack == [] then [] else stack[..|stack| - 1])
                  else stack + [p[0]];
      ResolveConcat(next, p[1..], q);
    }
  }

  lemma {:induction false} ResolvePlain(stack: seq<string>, parts: seq<string>)
    requires AllPlain(parts)
    ensures Resolve(stack, parts) == stack + parts
    decreases |parts|
  {
    if parts != [] {
      ResolvePlain(stack + [parts[0]], parts[1..]);
      assert stack + [parts[0]] + parts[1..] == stack + parts;
    }
  }

  lemma {:induction false} ResolveIsPlain(stack: seq<string>, parts: seq<string>)
    requires AllPlain(stack) && SepFree(parts, SLASH)
    ensures AllPlain(Resolve(stack, parts))
    decreases |parts|
  {
    if parts != [] {
      var next := if parts[0] == "" || parts[0] == "." then stack
                  else if parts[0] == ".." then (if stack == [] then [] else stack[..|stack| - 1])
                  else stack + [parts[0]];
      ResolveIsPlain(next, parts[1..]);
    }
  }

  lemma {:induction false} ResolveUps(stack: seq<string>, n: nat)
    requires n <= |stack|
    ensures Resolve(stack, Ups(n)) == stack[..|stack| - n]
    decreases n
  {
    if n > 0 {
      assert Ups(n)[0] == ".." && Ups(n)[1..] == Ups(n - 1);
      ResolveUps(stack[..|stack| - 1], n - 1);
    }
  }

  /** Components and Rooted undo each other. */
  lemma ComponentsOfRooted(parts: seq<string>)
    requires AllPlain(parts)
    ensures Components(Rooted(parts)) == parts
    ensures IsCleanAbs(Rooted(parts))
  {
    var path := Rooted(parts);
    assert path[1..] == Join(parts, SLASH);
    if parts == [] {
      assert Split("", SLASH) == [""];
      assert Resolve([], [""]) == [] by { assert [""][1..] == []; }
    } else {
      SplitJoin(parts, SLASH);
      ResolvePlain([], parts);
      assert [] + parts == parts;
      assert |Join(parts, SLASH)| > 0 by { assert |parts[0]| > 0; }
    }
  }

  lemma CleanIsRooted(path: string)
    requires IsCleanAbs(path)
    ensures AllPlain(Components(path)) && Rooted(Components(path)) == path
  {
    SplitIsSepFree(path[1..], SLASH);
    ResolveIsPlain([], Split(path[1..], SLASH));
    ComponentsOfRooted(Resolve([], Split(path[1..], SLASH)));
  }

  /** The components that base + "/" + rel resolves to. */
  function Resolved(base: string, rel: string): seq<string> {
    Resolve(Components(base), if rel == "" then [] else Split(rel, SLASH))
  }

  lemma JoinPathIsTarget(base: string, rel: string)
    requires IsCleanAbs(base)
    ensures JoinPath(base, rel) == Rooted(Resolved(base, rel)) && AllPlain(Resolved(base, rel))
  {
    CleanIsRooted(base);
    var b := Components(base);
    SplitIsSepFree(rel, SLASH);
    ResolveIsPlain(b, if rel == "" then [] else Split(rel, SLASH));
    if rel == "" {
    } else {
      var path := base + [SLASH] + rel;
      assert path[1..] == base[1..] + [SLASH] + rel;
      SplitConcat(base[1..], rel, SLASH);
      ResolveConcat([], Split(base[1..], SLASH), Split(rel, SLASH));
      if |base| == 1 {
        assert base[1..] == "" && Split("", SLASH) == [""];
        assert Resolve([], [""]) == [] by { assert [""][1..] == []; }
      } else {
        ResolvePlain([], b);
        assert [] + b == b;
      }
    }
  }

  // ─── safeJoin ────────────────────────────────────────────────────────────────

  /** base + "/" is a string prefix of a clean path exactly when the path lies under base. */
  lemma UnderIsPrefix(b: seq<string>, t: seq<string>)
    requires AllPlain(b) && AllPlain(t) && b != []
    ensures Rooted(b) + [SLASH] <= Rooted(t) <==> b < t
  {
    if b < t {
      assert t == b + t[|b|..];
      JoinConcat(b, t[|b|..], SLASH);
      assert Rooted(t) == Rooted(b) + [SLASH] + Join(t[|b|..], SLASH);
    }
    if Rooted(b) + [SLASH] <= Rooted(t) {
      var rest := Rooted(t)[|Rooted(b)| + 1..];
      assert Rooted(t) == Rooted(b) + [SLASH] + rest;
      assert Join(t, SLASH) == Rooted(t)[1..];
      assert (Rooted(b) + [SLASH] + rest)[1..] == Join(b, SLASH) + [SLASH] + rest;
      if t != [] {
        SplitJoin(t, SLASH);
        SplitJoin(b, SLASH);
        SplitConcat(Join(b, SLASH), rest, SLASH);
        assert t == b + Split(rest, SLASH);
      }
    }
  }

  lemma RootedInjective(p: seq<string>, q: seq<string>)
    requires AllPlain(p) && AllPlain(q) && Rooted(p) == Rooted(q)
    ensures p == q
  {
    ComponentsOfRooted(p);
    ComponentsOfRooted(q);
  }

  /** safeJoin accepts exactly what resolves to the base or below it, and returns that path. */
  lemma SafeJoinIsContainment(base: string, rel: string)
    requires IsCleanAbs(base) && base != "/"
    ensures SafeJoin(base, rel).Some? <==> Components(base) <= Resolved(base, rel)
    ensures SafeJoin(base, rel).Some? ==>
              IsCleanAbs(SafeJoin(base, rel).value) && Components(SafeJoin(base, rel).value) == Resolved(base, rel)
  {
    var b, t := Components(base), Resolved(base, rel);
    CleanIsRooted(base);
    JoinPathIsTarget(base, rel);
    ComponentsOfRooted(t);
    assert b != [] by { assert Rooted([]) == "/"; }
    UnderIsPrefix(b, t);
    if Rooted(t) == Rooted(b) {
      RootedInjective(t, b);
    }
    if b <= t && !(b < t) {
      assert t == b;
    }
  }

  lemma SlashSlash(parts: seq<string>)
    requires AllPlain(parts)
    ensures !("//" <= Rooted(parts))
  {
    if parts != [] {
      assert Rooted(parts)[1] == parts[0][0];
      assert parts[0][0] in parts[0];
    }
  }

  /** Under the base "/" everything but the root itself is refused, although `prepare` accepts
      "/" as a destination. */
  lemma RootDestinationRefusesFiles(rel: string)
    ensures IsCleanAbs("/")
    ensures SafeJoin("/", rel).Some? <==> Resolved("/", rel) == []
  {
    ComponentsOfRooted([]);
    assert Rooted([]) == "/";
    JoinPathIsTarget("/", rel);
    var t := Resolved("/", rel);
    SlashSlash(t);
    assert "/" + [SLASH] == "//";
    if Rooted(t) == "/" {
      RootedInjective(t, []);
    }
  }

  // ─── relPath ─────────────────────────────────────────────────────────────────

  lemma ClimbIsSepFree(ups: nat, tail: seq<string>)
    requires AllPlain(tail)
    ensures SepFree(Ups(ups) + tail, SLASH)
    ensures ups + |tail| > 0 ==> (Ups(ups) + tail)[0] != ""
  {
    var parts := Ups(ups) + tail;
    forall k | 0 <= k < |parts| ensures SLASH !in parts[k] && parts[k] != "" {
      if k < ups {
        assert parts[k] == "..";
      } else {
        assert parts[k] == tail[k - ups];
      }
    }
  }

  lemma JoinIsNotEmpty(parts: seq<string>)
    requires parts != [] && parts[0] != ""
    ensures Join(parts, SLASH) != ""
  {
    assert |Join(parts, SLASH)| >= |parts[0]|;
  }

  lemma UpsAreNotEmpty(ups: nat, tail: seq<string>)
    requires AllPlain(tail) && ups + |tail| > 0
    ensures Join(Ups(ups) + tail, SLASH) != ""
    ensures Split(Join(Ups(ups) + tail, SLASH), SLASH) == Ups(ups) + tail
  {
    var parts := Ups(ups) + tail;
    ClimbIsSepFree(ups, tail);
    SplitJoin(parts, SLASH);
    JoinIsNotEmpty(parts);
  }

  /** Climbing out of what is not shared and descending again. */
  lemma ClimbAndDescend(b: seq<string>, t: seq<string>, n: nat)
    requires AllPlain(t) && n <= |b| && n <= |t| && b[..n] == t[..n]
    ensures Resolve(b, Ups(|b| - n) + t[n..]) == t
  {
    var tail := t[n..];
    assert AllPlain(tail);
    ResolveConcat(b, Ups(|b| - n), tail);
    ResolveUps(b, |b| - n);
    assert Resolve(b, Ups(|b| - n)) == t[..n];
    ResolvePlain(t[..n], tail);
    assert t == t[..n] + tail;
  }

  lemma DotStays(b: seq<string>)
    ensures Split(".", SLASH) == ["."] && Resolve(b, ["."]) == b
  {
    SplitSingle(".", SLASH);
    assert ["."][1..] == [];
  }

  /** The relative path leads from the base to the target. */
  lemma RelResolves(base: string, target: string)
    requires AllPlain(Components(target))
    ensures Resolved(base, RelPath(base, target)) == Components(target)
  {
    var b, t := Components(base), Components(target);
    var n := CommonLength(b, t);
    if n == |b| && n == |t| {
      DotStays(b);
      assert b == b[..n] && t == t[..n];
    } else {
      UpsAreNotEmpty(|b| - n, t[n..]);
      ClimbAndDescend(b, t, n);
    }
  }

  /** filepath.Rel's promise: joining the base and the relative path gives the target back. */
  lemma JoinUndoesRel(base: string, target: string)
    requires IsCleanAbs(base) && IsCleanAbs(target)
    ensures JoinPath(base, RelPath(base, target)) == target
  {
    CleanIsRooted(target);
    RelResolves(base, target);
    JoinPathIsTarget(base, RelPath(base, target));
  }

  lemma CommonLengthOfPrefix(b: seq<string>, c: seq<string>)
    ensures CommonLength(b, b + c) == |b|
  {
    assert forall n :: 0 <= n < |b| ==> b[n] == (b + c)[n];
  }

  /** A file below the source root, given by its components. */
  lemma RelOfFile(root: string, c: seq<string>)
    requires IsCleanAbs(root) && AllPlain(c) && c != []
    ensures RelPath(root, Rooted(Components(root) + c)) == Join(c, SLASH)
  {
    CleanIsRooted(root);
    ComponentsOfRooted(Components(root) + c);
    CommonLengthOfPrefix(Components(root), c);
    assert (Components(root) + c)[|Components(root)|..] == c;
    assert Ups(0) + c == c;
  }

  /** A relative path that is a plain list of components, as `relPath` yields for files. */
  predicate PlainRel(rel: string) {
    AllPlain(Split(rel, SLASH))
  }

  lemma SafeJoinOfPlain(dest: string, rel: string)
    requires IsCleanAbs(dest) && dest != "/" && PlainRel(rel)
    ensures SafeJoin(dest, rel) == Some(Rooted(Components(dest) + Split(rel, SLASH)))
  {
    CleanIsRooted(dest);
    assert rel != "" by { if rel == "" { assert !Plain(Split(rel, SLASH)[0]); } }
    ResolvePlain(Components(dest), Split(rel, SLASH));
    SafeJoinIsContainment(dest, rel);
    CleanIsRooted(SafeJoin(dest, rel).value);
  }

  /** A file under the source root lands under the destination root at the same components. */
  lemma FileKeepsItsComponents(root: string, dest: string, c: seq<string>)
    requires IsCleanAbs(root) && IsCleanAbs(dest) && dest != "/" && AllPlain(c) && c != []
    ensures PlainRel(RelPath(root, Rooted(Components(root) + c)))
    ensures SafeJoin(dest, RelPath(root, Rooted(Components(root) + c))) == Some(Rooted(Components(dest) + c))
  {
    RelOfFile(root, c);
    SplitJoin(c, SLASH);
    SafeJoinOfPlain(dest, Join(c, SLASH));
  }

  /** Different relative paths land on different files. */
  lemma PlainTargetsDistinct(dest: string, rel1: string, rel2: string)
    requires IsCleanAbs(dest) && dest != "/" && PlainRel(rel1) && PlainRel(rel2)
    requires SafeJoin(dest, rel1) == SafeJoin(dest, rel2)
    ensures rel1 == rel2
  {
    SafeJoinOfPlain(dest, rel1);
    SafeJoinOfPlain(dest, rel2);
    CleanIsRooted(dest);
    var d := Components(dest);
    RootedInjective(d + Split(rel1, SLASH), d + Split(rel2, SLASH));
    assert Split(rel1, SLASH) == (d + Split(rel1, SLASH))[|d|..];
    assert Split(rel2, SLASH) == (d + Split(rel2, SLASH))[|d|..];
    JoinSplit(rel1, SLASH);
    JoinSplit(rel2, SLASH);
  }

  /** Different files under the source root land on different files. */
  lemma FilesStayDistinct(root: string, dest: string, c1: seq<string>, c2: seq<string>)
    requires IsCleanAbs(root) && IsCleanAbs(dest) && dest != "/"
    requires AllPlain(c1) && c1 != [] && AllPlain(c2) && c2 != []
    requires SafeJoin(dest, RelPath(root, Rooted(Components(root) + c1)))
             == SafeJoin(dest, RelPath(root, Rooted(Components(root) + c2)))
    ensures c1 == c2
  {
    FileKeepsItsComponents(root, dest, c1);
    FileKeepsItsComponents(root, dest, c2);
    CleanIsRooted(dest);
    var d := Components(dest);
    RootedInjective(d + c1, d + c2);
    assert c1 == (d + c1)[|d|..] && c2 == (d + c2)[|d|..];
  }
}
