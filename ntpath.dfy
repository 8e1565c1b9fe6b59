/**
 * The Windows path functions the script calls through `os.path`
 * (`ntpath`): `join`, `basename`, `dirname` and `normpath`. Both `\` and `/`
 * separate path segments; `\` is the separator written into new paths.
 */
module NtPath {
  import opened PyStrings

  const Sep: char := '\\'
  const AltSep: char := '/'
  const Seps: set<char> := {Sep, AltSep}
  const CurDir: string := "."
  const ParDir: string := ".."

  /** The path starts at a root (a leading separator). */
  predicate IsRooted(p: string) {
    |p| > 0 && p[0] in Seps
  }

  /** `ntpath.join(a, b)`: a rooted `b` replaces `a`; otherwise `b` is appended after one separator. */
  function JoinPath(a: string, b: string): string {
    if IsRooted(b) then b
    else if |a| > 0 && a[|a| - 1] !in Seps then a + [Sep] + b
    else a + b
  }

  /** `ntpath.basename(p)`: the tail of `p` after its last separator. */
  function BaseName(p: string): string {
    Last(Split(p, Seps))
  }

  /** The basename is a separator-free suffix of the path. */
  lemma BaseNameIsTail(p: string)
    ensures Avoids(BaseName(p), Seps)
    ensures |BaseName(p)| <= |p| && BaseName(p) == p[|p| - |BaseName(p)|..]
  {
    SplitEnds(p, Seps);
  }

  /**
   * `ntpath.dirname(p)`: `p` up to its last separator, with trailing
   * separators stripped unless only separators are left.
   */
  function DirName(p: string): string {
    BaseNameIsTail(p);
    var tail := BaseName(p);
    var head := p[..|p| - |tail|];
    var stripped := RStrip(head, Seps);
    if stripped == [] then head else stripped
  }

  /** The file name after a separator is the file name of what follows it. */
  lemma BaseNameAfterSep(x: string, c: char, b: string)
    requires c in Seps
    ensures BaseName(x + [c] + b) == BaseName(b)
  {
    SplitAppend(x, c, b, Seps);
    var sb := Split(b, Seps);
    assert Last(Split(x, Seps) + sb) == Last(sb);
  }

  /** Joining never changes the file name: `basename(join(a, b)) == basename(b)`. */
  lemma JoinPathKeepsBaseName(a: string, b: string)
    ensures BaseName(JoinPath(a, b)) == BaseName(b)
  {
    if IsRooted(b) {
    } else if |a| > 0 && a[|a| - 1] !in Seps {
      BaseNameAfterSep(a, Sep, b);
    } else if |a| > 0 {
      assert a + b == a[..|a| - 1] + [a[|a| - 1]] + b;
      BaseNameAfterSep(a[..|a| - 1], a[|a| - 1], b);
    } else {
      assert a + b == b;
    }
  }

  /** For `x\y` with a separator-free `y`, basename is `y` and, when `x` does not end in a separator, dirname is `x`. */
  lemma SplitAtLastSep(x: string, s: char, y: string)
    requires s in Seps && Avoids(y, Seps)
    ensures BaseName(x + [s] + y) == y
    ensures |x| > 0 && x[|x| - 1] !in Seps ==> DirName(x + [s] + y) == x
  {
    SplitAppend(x, s, y, Seps);
    SplitSingle(y, Seps);
    var p := x + [s] + y;
    assert p[..|p| - |y|] == x + [s];
    assert (x + [s])[..|x|] == x;
  }

  // ---------------------------------------------------------------------
  // normpath

  /** Every segment is free of separators. */
  predicate SepFree(segs: seq<string>) {
    forall i :: 0 <= i < |segs| ==> Avoids(segs[i], Seps)
  }

  /**
   * Segments in normal form: none is empty or `.`, `..` appears only as a
   * leading run, and under a root not at all.
   */
  predicate NormalSegments(segs: seq<string>, rooted: bool) {
    && (forall i :: 0 <= i < |segs| ==> segs[i] != "" && segs[i] != CurDir)
    && (forall i, j :: 0 <= i < j < |segs| && segs[j] == ParDir ==> segs[i] == ParDir)
    && (rooted ==> forall i :: 0 <= i < |segs| ==> segs[i] != ParDir)
  }

  /**
   * One step of normpath's scan: drop empty and `.` segments; let `..` cancel
   * the previous segment unless that is `..` too; drop `..` right under a
   * root; keep every other segment.
   */
  function Step(acc: seq<string>, c: string, rooted: bool): seq<string> {
    if c == "" || c == CurDir then acc
    else if c == ParDir then
      if |acc| > 0 && Last(acc) != ParDir then acc[..|acc| - 1]
      else if rooted && |acc| == 0 then acc
      else acc + [ParDir]
    else acc + [c]
  }

  /** The scan over all remaining segments, starting from the already resolved `acc`. */
  function Resolve(acc: seq<string>, comps: seq<string>, rooted: bool): seq<string>
    decreases |comps|
  {
    if comps == [] then acc else Resolve(Step(acc, comps[0], rooted), comps[1..], rooted)
  }

  /** Resolved segments written back as a path: `.` for nothing, a leading `\` under a root. */
  function Render(rooted: bool, comps: seq<string>): string {
    if comps == [] then (if rooted then [Sep] else CurDir)
    else (if rooted then [Sep] else "") + Join(comps, Sep)
  }

  /** `ntpath.normpath(p)` (without drive letters): resolve `.` and `..` segment by segment. */
  function NormPath(p: string): string {
    var rooted := IsRooted(p);
    Render(rooted, Resolve([], Split(p, Seps), rooted))
  }

  /** The shape normpath produces: `.`, a lone root, or normal segments joined by `\` only. */
  predicate IsNormalized(q: string) {
    && Avoids(q, {AltSep})
    && (q == CurDir || q == [Sep] ||
        (|q| > 0 &&
         var rooted := q[0] == Sep;
         NormalSegments(Split(if rooted then q[1..] else q, Seps), rooted)))
  }

  lemma StepKeepsNormal(acc: seq<string>, c: string, rooted: bool)
    requires NormalSegments(acc, rooted) && SepFree(acc) && Avoids(c, Seps)
    ensures NormalSegments(Step(acc, c, rooted), rooted) && SepFree(Step(acc, c, rooted))
  {
    if c == ParDir && !(|acc| > 0 && Last(acc) != ParDir) && !(rooted && |acc| == 0) {
      assert |acc| > 0 ==> Last(acc) == ParDir;
      assert !rooted;
      assert forall i :: 0 <= i < |acc| ==> acc[i] == ParDir;
    }
  }

  lemma {:induction false} ResolveKeepsNormal(acc: seq<string>, comps: seq<string>, rooted: bool)
    requires NormalSegments(acc, rooted) && SepFree(acc) && SepFree(comps)
    ensures NormalSegments(Resolve(acc, comps, rooted), rooted) && SepFree(Resolve(acc, comps, rooted))
    decreases |comps|
  {
    if comps != [] {
      StepKeepsNormal(acc, comps[0], rooted);
      ResolveKeepsNormal(Step(acc, comps[0], rooted), comps[1..], rooted);
    }
  }

  /** Segments already in normal form pass through the scan unchanged. */
  lemma {:induction false} ResolveNormalIsIdentity(acc: seq<string>, rest: seq<string>, rooted: bool)
    requires NormalSegments(acc + rest, rooted)
    ensures Resolve(acc, rest, rooted) == acc + rest
    decreases |rest|
  {
    if rest != [] {
      var c := rest[0];
      assert c == (acc + rest)[|acc|];
      if c == ParDir {
        assert forall i :: 0 <= i < |acc| ==> acc[i] == (acc + rest)[i] == ParDir;
        assert !rooted;
      }
      assert Step(acc, c, rooted) == acc + [c];
      assert acc + [c] + rest[1..] == acc + rest;
      ResolveNormalIsIdentity(acc + [c], rest[1..], rooted);
    }
  }

  /** The scan is a left fold: the last segment is processed last. */
  lemma {:induction false} ResolveSnoc(acc: seq<string>, comps: seq<string>, c: string, rooted: bool)
    ensures Resolve(acc, comps + [c], rooted) == Step(Resolve(acc, comps, rooted), c, rooted)
    decreases |comps|
  {
    if comps == [] {
      assert [] + [c] == [c];
    } else {
      assert (comps + [c])[1..] == comps[1..] + [c];
      ResolveSnoc(Step(acc, comps[0], rooted), comps[1..], c, rooted);
    }
  }

  /** Splitting a rendered path gives back its segments (behind an empty one for the root). */
  lemma SplitRender(rooted: bool, comps: seq<string>)
    requires |comps| > 0 && SepFree(comps)
    ensures Split(Render(rooted, comps), Seps) == (if rooted then [""] else []) + comps
  {
    var body := Join(comps, Sep);
    SplitJoin(comps, Sep, Seps);
    if rooted {
      SplitAppend("", Sep, body, Seps);
      assert Split("", Seps) == [""];
      assert Render(rooted, comps) == "" + [Sep] + body;
    } else {
      assert Render(rooted, comps) == body;
      assert [] + comps == comps;
    }
  }

  /** The result of normpath is never empty and always in normal form. */
  lemma NormPathIsNormalized(p: string)
    ensures |NormPath(p)| > 0 && IsNormalized(NormPath(p))
  {
    var rooted := IsRooted(p);
    var comps := Resolve([], Split(p, Seps), rooted);
    ResolveKeepsNormal([], Split(p, Seps), rooted);
    if comps != [] {
      var q := NormPath(p);
      var body := Join(comps, Sep);
      SplitJoin(comps, Sep, Seps);
      assert comps[0] != "";
      assert |body| > 0 && body[0] == comps[0][0] by {
        if |comps| > 1 { assert body == comps[0] + [Sep] + Join(comps[1..], Sep); }
      }
      assert comps[0][0] !in Seps;
      forall k | 0 <= k < |comps| ensures Avoids(comps[k], {AltSep}) {
        assert Avoids(comps[k], Seps);
      }
      JoinAvoids(comps, Sep, AltSep);
      if rooted {
        assert q == [Sep] + body;
        assert q[1..] == body;
      } else {
        assert q == body;
      }
    }
  }

  /** A normalized path with at least one segment is a fixed point of normpath. */
  lemma SegmentsAreFixed(q: string, rooted: bool, body: string)
    requires Avoids(q, {AltSep}) && |q| > 0 && rooted == (q[0] == Sep)
    requires body == if rooted then q[1..] else q
    requires NormalSegments(Split(body, Seps), rooted)
    ensures NormPath(q) == q
  {
    assert IsRooted(q) == rooted by { assert q[0] != AltSep; }
    var segs := Split(body, Seps);
    ResolveNormalIsIdentity([], segs, rooted);
    assert [] + segs == segs;
    forall j | 0 <= j < |body| && body[j] in Seps ensures body[j] == Sep {
      if rooted { assert body[j] == q[j + 1]; } else { assert body[j] == q[j]; }
    }
    JoinSplit(body, Seps, Sep);
    if rooted {
      SplitAppend("", Sep, body, Seps);
      assert q == "" + [Sep] + body;
      assert Split("", Seps) == [""];
      assert Split(q, Seps) == [""] + segs;
      assert ([""] + segs)[1..] == segs;
      assert Resolve([], [""] + segs, rooted) == Resolve([], segs, rooted);
    }
  }

  /** A normalized path is a fixed point of normpath. */
  lemma NormalizedIsFixed(q: string)
    requires IsNormalized(q)
    ensures NormPath(q) == q
  {
    if q == CurDir {
      SplitSingle(q, Seps);
      assert !IsRooted(q);
      assert Resolve([], [CurDir], false) == Resolve([], [], false) == [];
    } else if q == [Sep] {
      SplitAppend("", Sep, "", Seps);
      assert q == "" + [Sep] + "";
      assert Split("", Seps) == [""];
      assert Split(q, Seps) == ["", ""];
      assert Resolve([], ["", ""], true) == Resolve([], [""], true) == [];
    } else {
      SegmentsAreFixed(q, q[0] == Sep, if q[0] == Sep then q[1..] else q);
    }
  }

  /** normpath is idempotent. */
  lemma NormPathIdempotent(p: string)
    ensures NormPath(NormPath(p)) == NormPath(p)
  {
    NormPathIsNormalized(p);
    NormalizedIsFixed(NormPath(p));
  }

  /** normpath keeps the file name when it is an ordinary name (not empty, `.` or `..`). */
  lemma NormPathKeepsBaseName(p: string)
    requires BaseName(p) != "" && BaseName(p) != CurDir && BaseName(p) != ParDir
    ensures BaseName(NormPath(p)) == BaseName(p)
  {
    var rooted := IsRooted(p);
    var parts := Split(p, Seps);
    var name := Last(parts);
    var init := parts[..|parts| - 1];
    assert parts == init + [name];
    ResolveSnoc([], init, name, rooted);
    var r := Resolve([], init, rooted);
    assert Resolve([], parts, rooted) == r + [name];
    ResolveKeepsNormal([], init, rooted);
    SplitRender(rooted, r + [name]);
  }
}
