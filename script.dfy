/**
 * The one-line string expressions of the script's top level: the descriptor
 * path derived from the working directory, the image tag of
 * `generar_docker_image`, the project folder `initial_route` and the
 * sub-project root of a dependency that has not been built yet.
 */
module Script {
  import opened PyStrings
  import opened NtPath
  import opened Dockerfile

  /** The Docker Hub account the image is tagged under (`host_name`). */
  const HostName: string := "ioxee"

  /** The descriptor is named after the working directory's last `\`-component. */
  function DescriptorName(cwd: string): string {
    Last(Split(cwd, {Sep})) + ".csproj"
  }

  /** `csproj_route`: the working directory, a `\`, and the descriptor's name. */
  function CsprojRoute(cwd: string): string {
    cwd + [Sep] + DescriptorName(cwd)
  }

  /** The descriptor's name holds no separator when the working directory holds no `/`. */
  lemma DescriptorNameAvoidsSeps(cwd: string)
    requires Avoids(cwd, {AltSep})
    ensures Avoids(DescriptorName(cwd), Seps)
  {
    var folder := Last(Split(cwd, {Sep}));
    SplitEnds(cwd, {Sep});
    assert Avoids(folder, Seps) by {
      forall j | 0 <= j < |folder|
        ensures folder[j] !in Seps
      {
        assert folder[j] == cwd[|cwd| - |folder| + j];
      }
    }
    var name := DescriptorName(cwd);
    forall j | 0 <= j < |name|
      ensures name[j] !in Seps
    {
      if j < |folder| {
        assert name[j] == folder[j];
      } else {
        assert name[j] == ".csproj"[j - |folder|];
      }
    }
  }

  /**
   * For a working directory without `/`, the descriptor's file name
   * (`file_name`) is the descriptor's name, and when the directory does not
   * end in `\` the descriptor's directory is the working directory.
   */
  lemma CsprojRouteNames(cwd: string)
    requires Avoids(cwd, {AltSep})
    ensures FileName(CsprojRoute(cwd)) == DescriptorName(cwd)
    ensures |cwd| > 0 && cwd[|cwd| - 1] != Sep ==> DirName(CsprojRoute(cwd)) == cwd
  {
    DescriptorNameAvoidsSeps(cwd);
    SplitAtLastSep(cwd, Sep, DescriptorName(cwd));
  }

  // ---------------------------------------------------------------------
  // The image tag

  /** `f"{host_name}/{file_name.split('.')[0].lower()}"`. */
  function ImageTag(host: string, fileName: string): string {
    host + "/" + Lower(Stem(fileName))
  }

  /** The command `generar_docker_image` hands to `os.system` (two spaces before `-f`). */
  function DockerBuildCommand(host: string, fileName: string): string {
    "docker build -t " + ImageTag(host, fileName) + "  -f Dockerfile .."
  }

  /** Two build commands differ exactly when their tags do: the tag is the only part that varies. */
  lemma DockerBuildCommandVariesOnlyInTag(host: string, f1: string, f2: string)
    ensures DockerBuildCommand(host, f1) == DockerBuildCommand(host, f2) <==> ImageTag(host, f1) == ImageTag(host, f2)
  {
    var prefix, suffix := "docker build -t ", "  -f Dockerfile ..";
    var t1, t2 := ImageTag(host, f1), ImageTag(host, f2);
    var c1, c2 := DockerBuildCommand(host, f1), DockerBuildCommand(host, f2);
    assert c1 == prefix + t1 + suffix && c2 == prefix + t2 + suffix;
    if c1 == c2 {
      assert |t1| == |t2|;
      assert t1 == c1[|prefix|..|prefix| + |t1|];
      assert t2 == c2[|prefix|..|prefix| + |t2|];
    }
  }

  /**
   * The script's own build command tags the image under `ioxee/`, and two
   * projects get the same command exactly when their names agree up to the
   * first `.` and letter case.
   */
  lemma ScriptBuildCommands(f1: string, f2: string)
    ensures StartsWith(DockerBuildCommand(HostName, f1), "docker build -t ioxee/")
    ensures DockerBuildCommand(HostName, f1) == DockerBuildCommand(HostName, f2) <==> Lower(Stem(f1)) == Lower(Stem(f2))
  {
    DockerBuildCommandVariesOnlyInTag(HostName, f1, f2);
    var prefix := "docker build -t ioxee/";
    assert DockerBuildCommand(HostName, f1) == prefix + Lower(Stem(f1)) + "  -f Dockerfile ..";
    var t1, t2 := ImageTag(HostName, f1), ImageTag(HostName, f2);
    if t1 == t2 {
      assert Lower(Stem(f1)) == t1[|HostName| + 1..];
      assert Lower(Stem(f2)) == t2[|HostName| + 1..];
    }
  }

  /**
   * The tag is `host/repo` where `repo` is the file name up to its first `.`,
   * lower-cased: it holds no `.` and no upper-case letter.
   */
  lemma ImageTagShape(host: string, fileName: string)
    ensures var repo := ImageTag(host, fileName)[|host| + 1..];
            && ImageTag(host, fileName) == host + "/" + repo
            && Avoids(repo, {'.'})
            && (forall i :: 0 <= i < |repo| ==> !IsUpper(repo[i]))
            && |repo| <= |fileName|
            && repo == Lower(fileName[..|repo|])
  {
    var stem := Stem(fileName);
    StemIsPrefix(fileName);
    var repo := Lower(stem);
    assert ImageTag(host, fileName)[|host| + 1..] == repo;
    assert Avoids(repo, {'.'}) by {
      forall i | 0 <= i < |repo|
        ensures repo[i] != '.'
      {
        assert stem[i] != '.';
      }
    }
  }

  /** For `stem.ext` with a dot-free `stem`, the tag is `host/` and the lower-cased stem. */
  lemma ImageTagOf(host: string, stem: string, ext: string)
    requires Avoids(stem, {'.'})
    ensures ImageTag(host, stem + "." + ext) == host + "/" + Lower(stem)
  {
    StemOf(stem, ext);
  }

  /** Lower-casing and taking the part before the first `.` commute. */
  lemma {:induction false} StemLower(s: string)
    ensures Stem(Lower(s)) == Lower(Stem(s))
  {
    if s != [] {
      var l := Lower(s);
      assert l[1..] == Lower(s[1..]);
      StemLower(s[1..]);
      if s[0] == '.' {
        assert l[0] == '.';
      } else {
        assert l[0] != '.';
        assert Stem(l) == [l[0]] + Stem(l[1..]);
        assert Stem(s) == [s[0]] + Stem(s[1..]);
        assert Lower([s[0]] + Stem(s[1..])) == [LowerChar(s[0])] + Lower(Stem(s[1..]));
      }
    }
  }

  /** The tag does not depend on the case of the file name, and tagging is stable under lower-casing. */
  lemma ImageTagIgnoresCase(host: string, fileName: string)
    ensures ImageTag(host, Lower(fileName)) == ImageTag(host, fileName)
  {
    StemLower(fileName);
    LowerIdempotent(Stem(fileName));
  }

  // ---------------------------------------------------------------------
  // initial_route

  /** `archivo_csproj.replace(file_name, "")`, with `file_name` the descriptor's base name. */
  function InitialRoute(csproj: string): string {
    RemoveAll(csproj, FileName(csproj))
  }

  /**
   * For `dir + name` with a non-empty file name `name` that does not occur
   * earlier in the path, `initial_route` is `dir` (ending in its separator).
   */
  lemma InitialRouteIsFolder(dir: string, name: string)
    requires |name| > 0 && Avoids(name, Seps)
    requires |dir| > 0 && dir[|dir| - 1] == Sep
    requires forall i :: 0 <= i < |dir| ==> !OccursAt(dir + name, name, i)
    ensures InitialRoute(dir + name) == dir
  {
    var x := dir[..|dir| - 1];
    assert dir + name == x + [Sep] + name;
    SplitAtLastSep(x, Sep, name);
    RemoveAllSuffix(dir, name);
  }

  // ---------------------------------------------------------------------
  // The sub-project root

  /** `s` holds `sub` somewhere. */
  predicate Contains(s: string, sub: string) {
    exists i :: 0 <= i <= |s| && OccursAt(s, sub, i)
  }

  /** `ruta.split("bin")[0].rstrip(os.path.sep)`: the path before its first `bin`, trailing `\` stripped. */
  function SubProjectRoot(path: string): string {
    RStrip(Before(path, "bin"), {Sep})
  }

  /** The root is a prefix of the path, holds no `bin`, and does not end in `\`. */
  lemma SubProjectRootShape(path: string)
    ensures var root := SubProjectRoot(path);
            && |root| <= |path| && root == path[..|root|]
            && !Contains(root, "bin")
            && (root == [] || root[|root| - 1] != Sep)
  {
    var before := Before(path, "bin");
    var root := SubProjectRoot(path);
    assert root == path[..|root|] by {
      assert root == before[..|root|];
      assert before == path[..|before|];
    }
    if Contains(root, "bin") {
      var i :| 0 <= i <= |root| && OccursAt(root, "bin", i);
      assert path[i..i + 3] == root[i..i + 3];
      assert OccursAt(path, "bin", i);
    }
  }

  /** `Before` is determined by its contract: the prefix up to the first occurrence. */
  lemma BeforeAt(s: string, sub: string, k: nat)
    requires |sub| > 0 && OccursAt(s, sub, k)
    requires forall i :: 0 <= i < k ==> !OccursAt(s, sub, i)
    ensures Before(s, sub) == s[..k]
  {
  }

  /** `RStrip` leaves a string that does not end in a stripped character alone. */
  lemma RStripStops(s: string, c: char)
    requires s == [] || s[|s| - 1] != c
    ensures RStrip(s + [c], {c}) == s
  {
    assert (s + [c])[..|s|] == s;
  }

  /**
   * A dependency built into `root\bin\...` leads back to `root`, provided the
   * text `bin` does not occur in `root` itself.
   */
  lemma SubProjectRootOfBuildOutput(root: string, rest: string)
    requires !Contains(root, "bin") && (root == [] || root[|root| - 1] != Sep)
    ensures SubProjectRoot(root + [Sep] + "bin" + [Sep] + rest) == root
  {
    var path := root + [Sep] + "bin" + [Sep] + rest;
    var k := |root| + 1;
    assert OccursAt(path, "bin", k);
    forall i | 0 <= i < k
      ensures !OccursAt(path, "bin", i)
    {
      if i + 3 <= |root| {
        assert path[i..i + 3] == root[i..i + 3];
        assert !OccursAt(root, "bin", i);
      } else {
        assert path[|root|] == Sep;
        assert path[i..i + 3][|root| - i] == Sep;
      }
    }
    BeforeAt(path, "bin", k);
    assert path[..k] == root + [Sep];
    RStripStops(root, Sep);
  }

  /**
   * As written, a folder whose name merely contains `bin` cuts the path short:
   * `C:\robin\lib\bin\Debug\lib.dll` leads to `C:\ro`, not `C:\robin\lib`.
   */
  lemma SubstringCutsFolderName()
    ensures SubProjectRoot("C:\\robin\\lib" + "\\bin\\Debug\\lib.dll") == "C:\\ro"
  {
    var root := "C:\\robin\\lib";
    var path := root + "\\bin\\Debug\\lib.dll";
    assert path[5..8] == root[5..8] == "bin";
    forall i | 0 <= i < 5
      ensures !OccursAt(path, "bin", i)
    {
      assert path[i] == root[i];
    }
    BeforeAt(path, "bin", 5);
    assert path[..5] == root[..5] == "C:\\ro";
  }

  // The corrected derivation: cut at the first `bin` path segment.

  /** The index of the first segment equal to `name`, or `|segs|` when there is none. */
  function FirstSegment(segs: seq<string>, name: string): (k: nat)
    ensures k <= |segs|
    ensures forall j :: 0 <= j < k ==> segs[j] != name
    ensures k < |segs| ==> segs[k] == name
  {
    if segs == [] then 0
    else if segs[0] == name then 0
    else 1 + FirstSegment(segs[1..], name)
  }

  /** The path up to its first `bin` folder, trailing `\` stripped. */
  function SubProjectRootAtSegment(path: string): string {
    var segs := Split(path, {Sep});
    RStrip(Join(segs[..FirstSegment(segs, "bin")], Sep), {Sep})
  }

  /** The segments of `root\bin\rest`: those of `root`, then `bin`, then those of `rest`. */
  lemma SplitBuildOutput(root: string, rest: string)
    ensures Split(root + [Sep] + "bin" + [Sep] + rest, {Sep}) == Split(root, {Sep}) + ["bin"] + Split(rest, {Sep})
  {
    assert root + [Sep] + "bin" + [Sep] + rest == root + [Sep] + ("bin" + [Sep] + rest);
    SplitAppend(root, Sep, "bin" + [Sep] + rest, {Sep});
    SplitAppend("bin", Sep, rest, {Sep});
    SplitSingle("bin", {Sep});
  }

  /** The first `bin` segment after segments none of which is `bin`. */
  lemma FirstBinSegment(before: seq<string>, after: seq<string>)
    requires forall j :: 0 <= j < |before| ==> before[j] != "bin"
    ensures FirstSegment(before + ["bin"] + after, "bin") == |before|
  {
    var segs := before + ["bin"] + after;
    assert segs[|before|] == "bin";
    assert forall j :: 0 <= j < |before| ==> segs[j] == before[j];
  }

  /**
   * A dependency built into `root\bin\...` leads back to `root` whenever no
   * folder of `root` is named `bin`, whatever text the folder names contain.
   */
  lemma SubProjectRootAtSegmentOfBuildOutput(root: string, rest: string)
    requires forall j :: 0 <= j < |Split(root, {Sep})| ==> Split(root, {Sep})[j] != "bin"
    requires root == [] || root[|root| - 1] != Sep
    ensures SubProjectRootAtSegment(root + [Sep] + "bin" + [Sep] + rest) == root
  {
    var before := Split(root, {Sep});
    var after := Split(rest, {Sep});
    SplitBuildOutput(root, rest);
    FirstBinSegment(before, after);
    assert (before + ["bin"] + after)[..|before|] == before;
    JoinSplit(root, {Sep}, Sep);
  }

  /** The folders of `C:\robin\lib`: none of them is named `bin`. */
  lemma RobinSegments()
    ensures Split("C:\\robin\\lib", {Sep}) == ["C:", "robin", "lib"]
  {
    assert "C:\\robin\\lib" == "C:" + [Sep] + "robin" + [Sep] + "lib";
    SplitAppend("C:" + [Sep] + "robin", Sep, "lib", {Sep});
    SplitAppend("C:", Sep, "robin", {Sep});
    SplitSingle("C:", {Sep});
    SplitSingle("robin", {Sep});
    SplitSingle("lib", {Sep});
  }

  /** The corrected derivation keeps `C:\robin\lib` for `C:\robin\lib\bin\Debug\lib.dll`. */
  lemma SegmentKeepsFolderName()
    ensures SubProjectRootAtSegment("C:\\robin\\lib" + "\\bin\\Debug\\lib.dll") == "C:\\robin\\lib"
  {
    var root := "C:\\robin\\lib";
    RobinSegments();
    assert root + "\\bin\\Debug\\lib.dll" == root + [Sep] + "bin" + [Sep] + "Debug\\lib.dll";
    SubProjectRootAtSegmentOfBuildOutput(root, "Debug\\lib.dll");
  }
}
