/**
 * `generar_dockerfile`: the multi-stage Dockerfile text built from the
 * descriptor's `ProjectReference` elements and the main project's path.
 * The text is modelled as its list of lines, each written with a final
 * newline.
 */
module Dockerfile {
  import opened Wrappers
  import opened PyStrings
  import opened NtPath
  import opened Csproj

  /** The exceptions the `Include` normalisation can raise; the script does not catch them. */
  datatype PyError =
    | AttributeError  // `None.split`: a `ProjectReference` without `Include`
    | IndexError      // `[-2]` of a one-element list: an `Include` without `\`

  /** What a call produces: nothing on a parse error, an escaping exception, or the Dockerfile text. */
  datatype Outcome = NotParsed | Raised(error: PyError) | Generated(content: string)

  /** `name.split('.')[0]`: the text before the first `.`. */
  function Stem(name: string): string {
    Split(name, {'.'})[0]
  }

  /** The stem is a prefix of the name without any `.`. */
  lemma StemIsPrefix(name: string)
    ensures Avoids(Stem(name), {'.'})
    ensures |Stem(name)| <= |name| && Stem(name) == name[..|Stem(name)|]
  {
    SplitEnds(name, {'.'});
  }

  /** The stem of `stem.ext` is `stem`. */
  lemma StemOf(stem: string, ext: string)
    requires Avoids(stem, {'.'})
    ensures Stem(stem + "." + ext) == stem
  {
    SplitAppend(stem, '.', ext, {'.'});
    SplitSingle(stem, {'.'});
  }

  /** A name without any `.` is its own stem. */
  lemma StemOfDotFree(name: string)
    requires Avoids(name, {'.'})
    ensures Stem(name) == name
  {
    SplitSingle(name, {'.'});
  }

  /** The file name of the descriptor (`file_name`). */
  function FileName(csproj: string): string {
    BaseName(csproj)
  }

  /** The main project's folder name: `basename(dirname(archivo_csproj))`. */
  function ProjectFolder(csproj: string): string {
    BaseName(DirName(csproj))
  }

  /** `"/".join(csproj_route.split(os.path.sep)[-2:])`: the last two `\`-components joined by `/`. */
  function RelativeProjectPath(csproj: string): string {
    Join(LastN(Split(csproj, {Sep}), 2), '/')
  }

  /**
   * For a descriptor at `prefix\folder\file`, the relative path is
   * `folder/file` and the project folder is `folder`.
   */
  lemma MainProjectNames(prefix: string, folder: string, file: string)
    requires |folder| > 0 && Avoids(folder, Seps) && Avoids(file, Seps)
    ensures var csproj := prefix + [Sep] + folder + [Sep] + file;
            && RelativeProjectPath(csproj) == folder + "/" + file
            && ProjectFolder(csproj) == folder
            && FileName(csproj) == file
  {
    var csproj := prefix + [Sep] + folder + [Sep] + file;
    assert Avoids(folder, {Sep}) && Avoids(file, {Sep});
    SplitAppend(prefix + [Sep] + folder, Sep, file, {Sep});
    SplitAppend(prefix, Sep, folder, {Sep});
    SplitSingle(folder, {Sep});
    SplitSingle(file, {Sep});
    var parts := Split(csproj, {Sep});
    assert parts == Split(prefix, {Sep}) + [folder] + [file];
    assert LastN(parts, 2) == [folder, file];
    assert Join([folder, file], '/') == folder + ['/'] + Join([file], '/');
    SplitAtLastSep(prefix + [Sep] + folder, Sep, file);
    SplitAtLastSep(prefix, Sep, folder);
  }

  /**
   * Line 150: `include.split('\\')[-2] + '/' + include.split('\\')[-1].split('.')[0]`.
   * It fails on a missing attribute and on an `Include` without `\`.
   */
  function NormalizeInclude(includeAttr: Option<string>): (r: Result<string, PyError>)
    ensures r.Ok? <==> includeAttr.Some? && !Avoids(includeAttr.value, {Sep})
    ensures includeAttr.None? ==> r == Err(AttributeError)
    ensures includeAttr.Some? && Avoids(includeAttr.value, {Sep}) ==> r == Err(IndexError)
    ensures r.Ok? ==> Avoids(r.value, {Sep})
  {
    match includeAttr
    case None => Err(AttributeError)
    case Some(s) =>
      var parts := Split(s, {Sep});
      SplitSingle(s, {Sep});
      if |parts| < 2 then Err(IndexError)
      else
        var folder := parts[|parts| - 2];
        var stem := Stem(Last(parts));
        StemIsPrefix(Last(parts));
        assert Avoids(stem, {Sep}) by {
          forall j | 0 <= j < |stem| ensures stem[j] != Sep { assert stem[j] == Last(parts)[j]; }
        }
        Ok(folder + "/" + stem)
  }

  /**
   * The value of line 150 for any `Include` with a `\`: the component before
   * the last `\` (empty when there is none), a `/`, and the stem of the last
   * component.
   */
  lemma NormalizeIncludeValue(x: string, name: string)
    requires Avoids(name, {Sep})
    ensures NormalizeInclude(Some(x + [Sep] + name)) == Ok(Last(Split(x, {Sep})) + "/" + Stem(name))
  {
    SplitAppend(x, Sep, name, {Sep});
    SplitSingle(name, {Sep});
  }

  /** A one-separator `Include` such as `Lib\Lib.csproj` becomes `Lib/Lib`. */
  lemma NormalizeIncludeOfChild(folder: string, name: string)
    requires Avoids(folder, {Sep}) && Avoids(name, {Sep})
    ensures NormalizeInclude(Some(folder + [Sep] + name)) == Ok(folder + "/" + Stem(name))
  {
    NormalizeIncludeValue(folder, name);
    SplitSingle(folder, {Sep});
  }

  /** `..\Shared\Shared.csproj` and the like: the `Include` of a sibling project becomes `Shared/Shared`. */
  lemma NormalizeIncludeOfSibling(prefix: string, folder: string, stem: string, ext: string)
    requires Avoids(folder, {Sep}) && Avoids(stem, {Sep, '.'}) && Avoids(ext, {Sep})
    ensures NormalizeInclude(Some(prefix + [Sep] + folder + [Sep] + (stem + "." + ext)))
            == Ok(folder + "/" + stem)
  {
    var name := stem + "." + ext;
    assert Avoids(name, {Sep});
    SplitAppend(prefix + [Sep] + folder, Sep, name, {Sep});
    SplitAppend(prefix, Sep, folder, {Sep});
    SplitSingle(folder, {Sep});
    SplitSingle(name, {Sep});
    assert Avoids(stem, {'.'});
    StemOf(stem, ext);
  }

  // ---------------------------------------------------------------------
  // Dotted project names

  /**
   * `split('.')[0]` keeps only the text before the FIRST `.`, so a dotted
   * project name loses its tail: `..\Company.Shared\Company.Shared.csproj`
   * is copied as `Company.Shared/Company`, a descriptor that does not exist.
   */
  lemma DottedIncludeLosesSuffix()
    ensures NormalizeInclude(Some("..\\" + "Company.Shared\\" + "Company.Shared.csproj")) == Ok("Company.Shared/Company")
  {
    var prefix, folder, stem, ext := "..", "Company.Shared", "Company", "Shared.csproj";
    assert "..\\" == prefix + [Sep] && "Company.Shared\\" == folder + [Sep];
    assert "Company.Shared.csproj" == stem + "." + ext;
    assert "Company.Shared/Company" == folder + "/" + stem;
    assert prefix + [Sep] + folder + [Sep] + (stem + "." + ext)
           == ("..\\" + "Company.Shared\\") + "Company.Shared.csproj";
    NormalizeIncludeOfSibling(prefix, folder, stem, ext);
  }

  /** The same cut names the assembly of `Company.Web.csproj` `Company`. */
  lemma DottedNameLosesSuffix()
    ensures Stem("Company.Web.csproj") == "Company"
  {
    assert "Company.Web.csproj" == "Company" + "." + "Web.csproj";
    StemOf("Company", "Web.csproj");
  }

  /** The name without its extension: the text before the LAST `.` (`name.rsplit('.', 1)[0]`). */
  function StemAtLastDot(name: string): string {
    var parts := Split(name, {'.'});
    if |parts| == 1 then name else Join(parts[..|parts| - 1], '.')
  }

  /** Cutting at the last `.` gives back the whole stem of `stem.ext`, dots included. */
  lemma StemAtLastDotOf(stem: string, ext: string)
    requires Avoids(ext, {'.'})
    ensures StemAtLastDot(stem + "." + ext) == stem
  {
    SplitAppend(stem, '.', ext, {'.'});
    SplitSingle(ext, {'.'});
    var parts := Split(stem + "." + ext, {'.'});
    assert parts[..|parts| - 1] == Split(stem, {'.'});
    JoinSplit(stem, {'.'}, '.');
  }

  /** Line 150 with the extension cut at the last `.`: the evidently intended `folder/project-name`. */
  function NormalizeIncludeAtLastDot(includeAttr: Option<string>): (r: Result<string, PyError>)
    ensures r.Err? <==> NormalizeInclude(includeAttr).Err?
    ensures r.Err? ==> r == NormalizeInclude(includeAttr)
  {
    match includeAttr
    case None => Err(AttributeError)
    case Some(s) =>
      var parts := Split(s, {Sep});
      if |parts| < 2 then Err(IndexError)
      else Ok(parts[|parts| - 2] + "/" + StemAtLastDot(Last(parts)))
  }

  /** The `Include` of a sibling project keeps every dot of its name. */
  lemma NormalizeIncludeAtLastDotOfSibling(prefix: string, folder: string, stem: string, ext: string)
    requires Avoids(folder, {Sep}) && Avoids(stem, {Sep}) && Avoids(ext, {Sep, '.'})
    ensures NormalizeIncludeAtLastDot(Some(prefix + [Sep] + folder + [Sep] + (stem + "." + ext)))
            == Ok(folder + "/" + stem)
  {
    var name := stem + "." + ext;
    assert Avoids(name, {Sep});
    SplitAppend(prefix + [Sep] + folder, Sep, name, {Sep});
    SplitAppend(prefix, Sep, folder, {Sep});
    SplitSingle(folder, {Sep});
    SplitSingle(name, {Sep});
    assert Avoids(ext, {'.'});
    StemAtLastDotOf(stem, ext);
  }

  /** With the corrected cut, `..\Company.Shared\Company.Shared.csproj` names the project `Company.Shared`. */
  lemma DottedIncludeKeepsName()
    ensures NormalizeIncludeAtLastDot(Some("..\\" + "Company.Shared\\" + "Company.Shared.csproj")) == Ok("Company.Shared/Company.Shared")
  {
    var prefix, folder, stem, ext := "..", "Company.Shared", "Company.Shared", "csproj";
    assert "..\\" == prefix + [Sep] && "Company.Shared\\" == folder + [Sep];
    assert "Company.Shared.csproj" == stem + "." + ext;
    assert "Company.Shared/Company.Shared" == folder + "/" + stem;
    assert prefix + [Sep] + folder + [Sep] + (stem + "." + ext)
           == ("..\\" + "Company.Shared\\") + "Company.Shared.csproj";
    NormalizeIncludeAtLastDotOfSibling(prefix, folder, stem, ext);
  }

  /** With the corrected cut, `Company.Web.csproj` names the assembly `Company.Web`. */
  lemma DottedNameKeepsName()
    ensures StemAtLastDot("Company.Web.csproj") == "Company.Web"
  {
    assert "Company.Web.csproj" == "Company.Web" + "." + "csproj";
    StemAtLastDotOf("Company.Web", "csproj");
  }

  /** Reference `k` is the first whose `Include` cannot be normalised. */
  predicate FirstFailure(refs: seq<ProjectReference>, k: int) {
    && 0 <= k < |refs|
    && NormalizeInclude(refs[k].includeAttr).Err?
    && forall m :: 0 <= m < k ==> NormalizeInclude(refs[m].includeAttr).Ok?
  }

  /**
   * The first loop of `generar_dockerfile`: every `ProjectReference` normalised
   * in order, or the exception of the first one that fails.
   */
  function NormalizeAll(refs: seq<ProjectReference>): (r: Result<seq<string>, PyError>)
    ensures r.Ok? <==> forall k :: 0 <= k < |refs| ==> NormalizeInclude(refs[k].includeAttr).Ok?
    ensures r.Ok? ==> |r.value| == |refs|
    ensures r.Ok? ==> forall k :: 0 <= k < |refs| ==> r.value[k] == NormalizeInclude(refs[k].includeAttr).value
    ensures forall k :: FirstFailure(refs, k) ==> r == Err(NormalizeInclude(refs[k].includeAttr).error)
  {
    if refs == [] then Ok([])
    else
      var n := |refs| - 1;
      assert forall k :: 0 <= k < n ==> refs[..n][k] == refs[k];
      match NormalizeAll(refs[..n])
      case Err(e) => Err(e)
      case Ok(projects) =>
        match NormalizeInclude(refs[n].includeAttr)
        case Err(e) => Err(e)
        case Ok(p) => Ok(projects + [p])
  }

  // ---------------------------------------------------------------------
  // The lines of the Dockerfile

  const CopyPrefix: string := "COPY [\""
  const RestorePrefix: string := "RUN dotnet restore "
  const FromPrefix: string := "FROM "

  const BaseImageLine: string := FromPrefix + "mcr.microsoft.com/dotnet/aspnet:6.0 AS base"
  const BuildImageLine: string := FromPrefix + "mcr.microsoft.com/dotnet/sdk:6.0 AS build"
  const PublishStageLine: string := FromPrefix + "build AS publish"
  const FinalStageLine: string := FromPrefix + "base AS final"

  /** The fixed header: the base stage (ports 80 and 443) and the start of the build stage. */
  const HeaderLines: seq<string> := [
    "#See" + " https://aka.ms/customizecontainer to learn how to customize your debug container"
    + " and how Visual Studio uses this Dockerfile to build your images for faster debugging.",
    "",
    BaseImageLine,
    "WORKDIR /app",
    "EXPOSE 80",
    "EXPOSE 443",
    "",
    BuildImageLine,
    "WORKDIR /src"
  ]

  /** `COPY ["<folder>/<file>", "<folder>/"]` for the main project. */
  function MainCopyLine(relativePath: string, folder: string): string {
    CopyPrefix + relativePath + "\", \"" + folder + "/\"]"
  }

  /** `COPY ["<p>.csproj", "<dirname p>/"]` for a referenced project `p`. */
  function ProjectCopyLine(project: string): string {
    CopyPrefix + project + ".csproj\", \"" + DirName(project) + "/\"]"
  }

  function CopyLines(projects: seq<string>): seq<string> {
    seq(|projects|, k requires 0 <= k < |projects| => ProjectCopyLine(projects[k]))
  }

  lemma CopyLinesSnoc(projects: seq<string>, j: nat)
    requires j < |projects|
    ensures CopyLines(projects[..j + 1]) == CopyLines(projects[..j]) + [ProjectCopyLine(projects[j])]
  {
  }

  function RestoreLine(relativePath: string): string {
    RestorePrefix + "\"" + relativePath + "\""
  }

  function WorkdirLine(folder: string): string {
    "WORKDIR \"/src/" + folder + "\""
  }

  function BuildLine(fileName: string): string {
    "RUN dotnet build \"" + fileName + "\" -c Release -o /app/build"
  }

  function PublishLine(fileName: string): string {
    "RUN dotnet publish \"" + fileName + "\" -c Release -o /app/publish /p:UseAppHost=false"
  }

  /** `ENTRYPOINT ["dotnet", "<assembly>.dll"]`, the assembly being the file name up to its first `.`. */
  function EntryPointLine(fileName: string): string {
    "ENTRYPOINT [\"dotnet\", \"" + Stem(fileName) + ".dll\"]"
  }

  /** The restore, copy and build steps of the build stage. */
  function BuildStepLines(rel: string, folder: string, fileName: string): seq<string> {
    [RestoreLine(rel), "", "COPY . .", WorkdirLine(folder), BuildLine(fileName)]
  }

  /** The publish stage. */
  function PublishStageLines(fileName: string): seq<string> {
    ["", PublishStageLine, PublishLine(fileName)]
  }

  /** The final stage. */
  function FinalStageLines(fileName: string): seq<string> {
    ["", FinalStageLine, "WORKDIR /app", "COPY --from=publish /app/publish .", EntryPointLine(fileName)]
  }

  /**
   * All lines of the Dockerfile, given the main project's relative path,
   * folder and file name and the normalised project references.
   */
  function LinesOf(rel: string, folder: string, fileName: string, projects: seq<string>): seq<string> {
    HeaderLines
    + ["", MainCopyLine(rel, folder)]
    + CopyLines(projects)
    + BuildStepLines(rel, folder, fileName)
    + PublishStageLines(fileName)
    + FinalStageLines(fileName)
  }

  /** All lines of the Dockerfile for the descriptor at `csproj` and the normalised project references. */
  function DockerfileLines(csproj: string, projects: seq<string>): seq<string> {
    LinesOf(RelativeProjectPath(csproj), ProjectFolder(csproj), FileName(csproj), projects)
  }

  /** The text of a list of lines, each followed by a newline. */
  function Unlines(lines: seq<string>): string {
    if lines == [] then "" else Unlines(lines[..|lines| - 1]) + Last(lines) + "\n"
  }

  lemma UnlinesSnoc(lines: seq<string>, line: string)
    ensures Unlines(lines + [line]) == Unlines(lines) + line + "\n"
  {
    assert (lines + [line])[..|lines|] == lines;
  }

  /** What `generar_dockerfile` writes for the descriptor at `csproj`, or why it writes nothing. */
  function DockerfileFor(csproj: string, parsed: ParseResult): Outcome {
    match parsed
    case ParseError => NotParsed
    case Parsed(doc) =>
      match NormalizeAll(doc.projectReferences)
      case Err(e) => Raised(e)
      case Ok(projects) => Generated(Unlines(DockerfileLines(csproj, projects)))
  }

  // ---------------------------------------------------------------------
  // The shape of the Dockerfile

  /** A character that differs from the prefix at position `j` rules the prefix out. */
  lemma MismatchAt(s: string, prefix: string, j: nat)
    requires j < |prefix| && j < |s| && s[j] != prefix[j]
    ensures !StartsWith(s, prefix)
  {
  }

  lemma StartsWithConcat(a: string, b: string)
    ensures StartsWith(a + b, a)
  {
    assert (a + b)[..|a|] == a;
  }

  /** Indexing into five consecutive blocks of lines. */
  lemma Blocks(a: seq<string>, b: seq<string>, c: seq<string>, d: seq<string>, e: seq<string>)
    ensures var s := a + b + c + d + e;
            var i := |a| + |b|;
            && |s| == i + |c| + |d| + |e|
            && s[..|a|] == a
            && (forall k :: 0 <= k < |b| ==> s[|a| + k] == b[k])
            && s[i..i + |c|] == c
            && s[i + |c|..i + |c| + |d|] == d
            && s[i + |c| + |d|..] == e
  {
    var s := a + b + c + d + e;
    var i := |a| + |b|;
    assert s == (a + b) + c + d + e;
    assert s[..i] == a + b;
    assert s[..|a|] == (a + b)[..|a|];
  }

  /** Where each line of the Dockerfile sits: 24 fixed lines around one COPY line per referenced project. */
  lemma LinesOfLayout(rel: string, folder: string, fileName: string, projects: seq<string>)
    ensures var lines := LinesOf(rel, folder, fileName, projects);
            var n := |projects|;
            && |lines| == 24 + n
            && lines[..11] == HeaderLines + ["", MainCopyLine(rel, folder)]
            && (forall k :: 0 <= k < n ==> lines[11 + k] == ProjectCopyLine(projects[k]))
            && lines[11 + n..16 + n] == BuildStepLines(rel, folder, fileName)
            && lines[16 + n..19 + n] == PublishStageLines(fileName)
            && lines[19 + n..] == FinalStageLines(fileName)
  {
    var head := HeaderLines + ["", MainCopyLine(rel, folder)];
    assert |head| == 11;
    var copies := CopyLines(projects);
    Blocks(head, copies, BuildStepLines(rel, folder, fileName),
           PublishStageLines(fileName), FinalStageLines(fileName));
    var lines := LinesOf(rel, folder, fileName, projects);
    forall k | 0 <= k < |projects|
      ensures lines[11 + k] == ProjectCopyLine(projects[k])
    {
      assert lines[|head| + k] == copies[k];
    }
  }

  /** The block that line `i` of the Dockerfile comes from. */
  lemma LocateLine(rel: string, folder: string, fileName: string, projects: seq<string>, i: nat)
    requires i < |LinesOf(rel, folder, fileName, projects)|
    ensures var line := LinesOf(rel, folder, fileName, projects)[i];
            var n := |projects|;
            && (i < 9 ==> line == HeaderLines[i])
            && (i == 9 ==> line == "")
            && (i == 10 ==> line == MainCopyLine(rel, folder))
            && (11 <= i < 11 + n ==> line == ProjectCopyLine(projects[i - 11]))
            && (11 + n <= i < 16 + n ==> line == BuildStepLines(rel, folder, fileName)[i - 11 - n])
            && (16 + n <= i < 19 + n ==> line == PublishStageLines(fileName)[i - 16 - n])
            && (19 + n <= i ==> line == FinalStageLines(fileName)[i - 19 - n])
  {
    var lines := LinesOf(rel, folder, fileName, projects);
    var n := |projects|;
    LinesOfLayout(rel, folder, fileName, projects);
    if i < 11 {
      assert lines[..11][i] == lines[i];
    } else if 11 + n <= i < 16 + n {
      assert lines[11 + n..16 + n][i - 11 - n] == lines[i];
    } else if 16 + n <= i < 19 + n {
      assert lines[16 + n..19 + n][i - 16 - n] == lines[i];
    } else if 19 + n <= i {
      assert lines[19 + n..][i - 19 - n] == lines[i];
    }
  }

  /** A line that starts with one prefix does not start with another that differs from it at `j`. */
  lemma PrefixesExclude(s: string, p: string, q: string, j: nat)
    requires StartsWith(s, p) && j < |p| && j < |q| && p[j] != q[j]
    ensures !StartsWith(s, q)
  {
    assert s[..|p|][j] == s[j];
    MismatchAt(s, q, j);
  }

  /** None of the fixed lines is a `COPY ["...` line. */
  lemma HeaderHasNoCopy()
    ensures forall j :: 0 <= j < |HeaderLines| ==> !StartsWith(HeaderLines[j], CopyPrefix)
  {
    MismatchAt(HeaderLines[0], CopyPrefix, 0);
    MismatchAt(HeaderLines[2], CopyPrefix, 0);
    MismatchAt(HeaderLines[3], CopyPrefix, 0);
    MismatchAt(HeaderLines[4], CopyPrefix, 0);
    MismatchAt(HeaderLines[5], CopyPrefix, 0);
    MismatchAt(HeaderLines[7], CopyPrefix, 0);
    MismatchAt(HeaderLines[8], CopyPrefix, 0);
  }

  lemma StagesHaveNoCopy(rel: string, folder: string, fileName: string)
    ensures forall j :: 0 <= j < 5 ==> !StartsWith(BuildStepLines(rel, folder, fileName)[j], CopyPrefix)
    ensures forall j :: 0 <= j < 3 ==> !StartsWith(PublishStageLines(fileName)[j], CopyPrefix)
    ensures forall j :: 0 <= j < 5 ==> !StartsWith(FinalStageLines(fileName)[j], CopyPrefix)
  {
    var build := BuildStepLines(rel, folder, fileName);
    MismatchAt(build[0], CopyPrefix, 0);
    MismatchAt(build[2], CopyPrefix, 5);
    MismatchAt(build[3], CopyPrefix, 0);
    MismatchAt(build[4], CopyPrefix, 0);
    var publish := PublishStageLines(fileName);
    MismatchAt(publish[1], CopyPrefix, 0);
    MismatchAt(publish[2], CopyPrefix, 0);
    var final := FinalStageLines(fileName);
    MismatchAt(final[1], CopyPrefix, 0);
    MismatchAt(final[2], CopyPrefix, 0);
    MismatchAt(final[3], CopyPrefix, 5);
    MismatchAt(final[4], CopyPrefix, 0);
  }

  /** Both kinds of COPY line start with `COPY ["`. */
  lemma CopyLinesAreCopies(rel: string, folder: string, projects: seq<string>)
    ensures StartsWith(MainCopyLine(rel, folder), CopyPrefix)
    ensures forall k :: 0 <= k < |projects| ==> StartsWith(ProjectCopyLine(projects[k]), CopyPrefix)
  {
    StartsWithConcat(CopyPrefix, rel + "\", \"" + folder + "/\"]");
    assert MainCopyLine(rel, folder) == CopyPrefix + (rel + "\", \"" + folder + "/\"]");
    forall k | 0 <= k < |projects|
      ensures StartsWith(ProjectCopyLine(projects[k]), CopyPrefix)
    {
      var p := projects[k];
      StartsWithConcat(CopyPrefix, p + ".csproj\", \"" + DirName(p) + "/\"]");
      assert ProjectCopyLine(p) == CopyPrefix + (p + ".csproj\", \"" + DirName(p) + "/\"]");
    }
  }

  /**
   * The `COPY ["...` lines are exactly lines 10 to 10 + n: the main project's
   * first, then one per referenced project, all before the restore.
   */
  lemma CopyLinesBeforeRestore(rel: string, folder: string, fileName: string, projects: seq<string>)
    ensures var lines := LinesOf(rel, folder, fileName, projects);
            forall i :: 0 <= i < |lines| ==> (StartsWith(lines[i], CopyPrefix) <==> 10 <= i <= 10 + |projects|)
  {
    var lines := LinesOf(rel, folder, fileName, projects);
    HeaderHasNoCopy();
    StagesHaveNoCopy(rel, folder, fileName);
    CopyLinesAreCopies(rel, folder, projects);
    forall i | 0 <= i < |lines|
      ensures StartsWith(lines[i], CopyPrefix) <==> 10 <= i <= 10 + |projects|
    {
      LocateLine(rel, folder, fileName, projects, i);
    }
  }

  /** The header holds no `RUN dotnet restore` line. */
  lemma HeaderHasNoRestore()
    ensures forall j :: 0 <= j < |HeaderLines| ==> !StartsWith(HeaderLines[j], RestorePrefix)
  {
    MismatchAt(HeaderLines[0], RestorePrefix, 0);
    MismatchAt(HeaderLines[2], RestorePrefix, 0);
    MismatchAt(HeaderLines[3], RestorePrefix, 0);
    MismatchAt(HeaderLines[4], RestorePrefix, 0);
    MismatchAt(HeaderLines[5], RestorePrefix, 0);
    MismatchAt(HeaderLines[7], RestorePrefix, 0);
    MismatchAt(HeaderLines[8], RestorePrefix, 0);
  }

  /** In the stages, only the first build step is a `RUN dotnet restore` line. */
  lemma StagesRestoreOnce(rel: string, folder: string, fileName: string)
    ensures forall j :: 0 <= j < 5 ==> (StartsWith(BuildStepLines(rel, folder, fileName)[j], RestorePrefix) <==> j == 0)
    ensures forall j :: 0 <= j < 3 ==> !StartsWith(PublishStageLines(fileName)[j], RestorePrefix)
    ensures forall j :: 0 <= j < 5 ==> !StartsWith(FinalStageLines(fileName)[j], RestorePrefix)
  {
    var build := BuildStepLines(rel, folder, fileName);
    StartsWithConcat(RestorePrefix, "\"" + rel + "\"");
    assert build[0] == RestorePrefix + ("\"" + rel + "\"");
    MismatchAt(build[2], RestorePrefix, 0);
    MismatchAt(build[3], RestorePrefix, 0);
    MismatchAt(build[4], RestorePrefix, 11);
    var publish := PublishStageLines(fileName);
    MismatchAt(publish[1], RestorePrefix, 0);
    MismatchAt(publish[2], RestorePrefix, 11);
    var final := FinalStageLines(fileName);
    MismatchAt(final[1], RestorePrefix, 0);
    MismatchAt(final[2], RestorePrefix, 0);
    MismatchAt(final[3], RestorePrefix, 0);
    MismatchAt(final[4], RestorePrefix, 0);
  }

  /**
   * `RUN dotnet restore` appears once, right after the COPY lines, and
   * restores the same project the first COPY line copies.
   */
  lemma SingleRestore(rel: string, folder: string, fileName: string, projects: seq<string>)
    ensures var lines := LinesOf(rel, folder, fileName, projects);
            && (forall i :: 0 <= i < |lines| ==> (StartsWith(lines[i], RestorePrefix) <==> i == 11 + |projects|))
            && lines[10] == MainCopyLine(rel, folder)
            && lines[11 + |projects|] == RestoreLine(rel)
  {
    var lines := LinesOf(rel, folder, fileName, projects);
    var n := |projects|;
    CopyLinesAreCopies(rel, folder, projects);
    HeaderHasNoRestore();
    StagesRestoreOnce(rel, folder, fileName);
    LocateLine(rel, folder, fileName, projects, 10);
    LocateLine(rel, folder, fileName, projects, 11 + n);
    forall i | 0 <= i < |lines|
      ensures StartsWith(lines[i], RestorePrefix) <==> i == 11 + n
    {
      LocateLine(rel, folder, fileName, projects, i);
      if 10 <= i < 11 + n {
        PrefixesExclude(lines[i], CopyPrefix, RestorePrefix, 0);
      }
    }
  }

  /** The header opens the `base` and `build` stages with its only `FROM` lines. */
  lemma HeaderFromLines()
    ensures forall j :: 0 <= j < |HeaderLines| ==> (StartsWith(HeaderLines[j], FromPrefix) <==> j == 2 || j == 7)
  {
    MismatchAt(HeaderLines[0], FromPrefix, 0);
    StartsWithConcat(FromPrefix, "mcr.microsoft.com/dotnet/aspnet:6.0 AS base");
    MismatchAt(HeaderLines[3], FromPrefix, 0);
    MismatchAt(HeaderLines[4], FromPrefix, 0);
    MismatchAt(HeaderLines[5], FromPrefix, 0);
    StartsWithConcat(FromPrefix, "mcr.microsoft.com/dotnet/sdk:6.0 AS build");
    MismatchAt(HeaderLines[8], FromPrefix, 0);
  }

  /** After the header, the `FROM` lines are the openings of the publish and final stages. */
  lemma StageFromLines(rel: string, folder: string, fileName: string)
    ensures forall j :: 0 <= j < 5 ==> !StartsWith(BuildStepLines(rel, folder, fileName)[j], FromPrefix)
    ensures forall j :: 0 <= j < 3 ==> (StartsWith(PublishStageLines(fileName)[j], FromPrefix) <==> j == 1)
    ensures forall j :: 0 <= j < 5 ==> (StartsWith(FinalStageLines(fileName)[j], FromPrefix) <==> j == 1)
  {
    var build := BuildStepLines(rel, folder, fileName);
    MismatchAt(build[0], FromPrefix, 0);
    MismatchAt(build[2], FromPrefix, 0);
    MismatchAt(build[3], FromPrefix, 0);
    MismatchAt(build[4], FromPrefix, 0);
    var publish := PublishStageLines(fileName);
    StartsWithConcat(FromPrefix, "build AS publish");
    MismatchAt(publish[2], FromPrefix, 0);
    var final := FinalStageLines(fileName);
    StartsWithConcat(FromPrefix, "base AS final");
    MismatchAt(final[2], FromPrefix, 0);
    MismatchAt(final[3], FromPrefix, 0);
    MismatchAt(final[4], FromPrefix, 0);
  }

  /**
   * The stages are opened in order: `base` on the ASP.NET runtime image,
   * `build` on the SDK image, `publish` from `build`, and `final` from `base`.
   */
  lemma StageOpenings(rel: string, folder: string, fileName: string, projects: seq<string>)
    ensures var lines := LinesOf(rel, folder, fileName, projects);
            var n := |projects|;
            && lines[2] == BaseImageLine && lines[7] == BuildImageLine
            && lines[17 + n] == PublishStageLine && lines[20 + n] == FinalStageLine
  {
    var n := |projects|;
    LinesOfLayout(rel, folder, fileName, projects);
    LocateLine(rel, folder, fileName, projects, 2);
    LocateLine(rel, folder, fileName, projects, 7);
    LocateLine(rel, folder, fileName, projects, 17 + n);
    LocateLine(rel, folder, fileName, projects, 20 + n);
  }

  /** The only `FROM` lines are the four stage openings. */
  lemma FromLinesAreStageOpenings(rel: string, folder: string, fileName: string, projects: seq<string>)
    ensures var lines := LinesOf(rel, folder, fileName, projects);
            var n := |projects|;
            forall i :: 0 <= i < |lines| ==>
              (StartsWith(lines[i], FromPrefix) <==> i == 2 || i == 7 || i == 17 + n || i == 20 + n)
  {
    var lines := LinesOf(rel, folder, fileName, projects);
    var n := |projects|;
    forall i | 0 <= i < |lines|
      ensures StartsWith(lines[i], FromPrefix) <==> i == 2 || i == 7 || i == 17 + n || i == 20 + n
    {
      LocateLine(rel, folder, fileName, projects, i);
      if i < 9 {
        HeaderFromLines();
        assert lines[i] == HeaderLines[i];
      } else if i == 9 {
      } else if i < 11 + n {
        CopyLinesAreCopies(rel, folder, projects);
        PrefixesExclude(lines[i], CopyPrefix, FromPrefix, 0);
      } else {
        StageFromLines(rel, folder, fileName);
        if i < 16 + n {
          assert !StartsWith(BuildStepLines(rel, folder, fileName)[i - 11 - n], FromPrefix);
        } else if i < 19 + n {
          assert StartsWith(PublishStageLines(fileName)[i - 16 - n], FromPrefix) <==> i == 17 + n;
        } else {
          assert StartsWith(FinalStageLines(fileName)[i - 19 - n], FromPrefix) <==> i == 20 + n;
        }
      }
    }
  }

  /**
   * A referenced project normalised to `folder/stem` is copied as
   * `folder/stem.csproj` into its own folder `folder/`.
   */
  lemma ProjectCopiedIntoItsFolder(folder: string, stem: string)
    requires |folder| > 0 && Avoids(folder, Seps) && Avoids(stem, Seps)
    ensures ProjectCopyLine(folder + "/" + stem)
            == CopyPrefix + folder + "/" + stem + ".csproj\", \"" + folder + "/\"]"
  {
    SplitAtLastSep(folder, AltSep, stem);
    assert folder + "/" + stem == folder + [AltSep] + stem;
  }

  /**
   * The Dockerfile generated for the descriptor `prefix\folder\file`: the
   * relative path `folder/file`, the folder and the file name fill its lines.
   */
  lemma DockerfileForProject(prefix: string, folder: string, file: string, doc: Document)
    requires |folder| > 0 && Avoids(folder, Seps) && Avoids(file, Seps)
    requires NormalizeAll(doc.projectReferences).Ok?
    ensures var csproj := prefix + [Sep] + folder + [Sep] + file;
            DockerfileFor(csproj, Parsed(doc))
            == Generated(Unlines(LinesOf(folder + "/" + file, folder, file, NormalizeAll(doc.projectReferences).value)))
  {
    MainProjectNames(prefix, folder, file);
  }

  /**
   * One COPY line per `ProjectReference`, in document order, each built from
   * that reference's normalised `Include`.
   */
  lemma CopyLinePerProjectReference(csproj: string, refs: seq<ProjectReference>)
    requires NormalizeAll(refs).Ok?
    ensures var lines := DockerfileLines(csproj, NormalizeAll(refs).value);
            && |lines| == 24 + |refs|
            && forall k :: 0 <= k < |refs| ==>
                 lines[11 + k] == ProjectCopyLine(NormalizeInclude(refs[k].includeAttr).value)
  {
    LinesOfLayout(RelativeProjectPath(csproj), ProjectFolder(csproj), FileName(csproj), NormalizeAll(refs).value);
  }

  /** The last line starts the main project's assembly. */
  lemma EntryPointLast(rel: string, folder: string, fileName: string, projects: seq<string>)
    ensures var lines := LinesOf(rel, folder, fileName, projects);
            lines[|lines| - 1] == EntryPointLine(fileName)
  {
    LinesOfLayout(rel, folder, fileName, projects);
    LocateLine(rel, folder, fileName, projects, 23 + |projects|);
  }

  /**
   * The first loop of `generar_dockerfile`: `proyectos_referenciados` built
   * from the `ProjectReference` elements, or the exception that escapes it.
   */
  method ReferencedProjects(refs: seq<ProjectReference>) returns (result: Result<seq<string>, PyError>)
    ensures result == NormalizeAll(refs)
  {
    var projects: seq<string> := [];
    var i := 0;
    while i < |refs|
      invariant 0 <= i <= |refs|
      invariant NormalizeAll(refs[..i]) == Ok(projects)
    {
      assert refs[..i + 1][..i] == refs[..i];
      var normalized := NormalizeInclude(refs[i].includeAttr);
      if normalized.Err? {
        assert FirstFailure(refs, i) by {
          assert forall m :: 0 <= m < i ==> refs[..i][m] == refs[m];
        }
        return Err(normalized.error);
      }
      projects := projects + [normalized.value];
      i := i + 1;
    }
    assert refs[..|refs|] == refs;
    return Ok(projects);
  }

  /** One `contenido_dockerfile += "<line>\n"` of the script: the text grows by one line. */
  method AppendLine(content0: string, ghost written: seq<string>, line: string) returns (content: string)
    requires content0 == Unlines(written)
    ensures content == Unlines(written + [line])
  {
    UnlinesSnoc(written, line);
    content := content0 + line + "\n";
  }

  /** The header, a blank line and the main project's COPY line. */
  method StartDockerfile(rel: string, folder: string) returns (content: string)
    ensures content == Unlines(HeaderLines + ["", MainCopyLine(rel, folder)])
  {
    content := Unlines(HeaderLines);
    content := AppendLine(content, HeaderLines, "");
    content := AppendLine(content, HeaderLines + [""], MainCopyLine(rel, folder));
    assert HeaderLines + [""] + [MainCopyLine(rel, folder)] == HeaderLines + ["", MainCopyLine(rel, folder)];
  }

  /** The loop that writes one COPY line per referenced project after the lines already written. */
  method AppendCopyLines(content0: string, ghost written: seq<string>, projects: seq<string>) returns (content: string)
    requires content0 == Unlines(written)
    ensures content == Unlines(written + CopyLines(projects))
  {
    content := content0;
    var j := 0;
    assert written + CopyLines(projects[..0]) == written;
    while j < |projects|
      invariant 0 <= j <= |projects|
      invariant content == Unlines(written + CopyLines(projects[..j]))
    {
      var project := projects[j];
      content := AppendLine(content, written + CopyLines(projects[..j]), ProjectCopyLine(project));
      CopyLinesSnoc(projects, j);
      assert written + CopyLines(projects[..j + 1]) == written + CopyLines(projects[..j]) + [ProjectCopyLine(project)];
      j := j + 1;
    }
    assert projects[..|projects|] == projects;
  }

  /** The restore, copy and build steps, after the lines already written. */
  method AppendBuildSteps(content0: string, ghost written: seq<string>, rel: string, folder: string, fileName: string)
    returns (content: string)
    requires content0 == Unlines(written)
    ensures content == Unlines(written + BuildStepLines(rel, folder, fileName))
  {
    ghost var lines := written;
    content := AppendLine(content0, lines, RestoreLine(rel));
    lines := lines + [RestoreLine(rel)];
    content := AppendLine(content, lines, "");
    lines := lines + [""];
    content := AppendLine(content, lines, "COPY . .");
    lines := lines + ["COPY . ."];
    content := AppendLine(content, lines, WorkdirLine(folder));
    lines := lines + [WorkdirLine(folder)];
    content := AppendLine(content, lines, BuildLine(fileName));
    lines := lines + [BuildLine(fileName)];
    assert lines == written + BuildStepLines(rel, folder, fileName);
  }

  /** The publish stage, after the lines already written. */
  method AppendPublishStage(content0: string, ghost written: seq<string>, fileName: string) returns (content: string)
    requires content0 == Unlines(written)
    ensures content == Unlines(written + PublishStageLines(fileName))
  {
    ghost var lines := written;
    content := AppendLine(content0, lines, "");
    lines := lines + [""];
    content := AppendLine(content, lines, PublishStageLine);
    lines := lines + [PublishStageLine];
    content := AppendLine(content, lines, PublishLine(fileName));
    lines := lines + [PublishLine(fileName)];
    assert lines == written + PublishStageLines(fileName);
  }

  /** The final stage, after the lines already written. */
  method AppendFinalStage(content0: string, ghost written: seq<string>, fileName: string) returns (content: string)
    requires content0 == Unlines(written)
    ensures content == Unlines(written + FinalStageLines(fileName))
  {
    ghost var lines := written;
    content := AppendLine(content0, lines, "");
    lines := lines + [""];
    content := AppendLine(content, lines, FinalStageLine);
    lines := lines + [FinalStageLine];
    content := AppendLine(content, lines, "WORKDIR /app");
    lines := lines + ["WORKDIR /app"];
    content := AppendLine(content, lines, "COPY --from=publish /app/publish .");
    lines := lines + ["COPY --from=publish /app/publish ."];
    content := AppendLine(content, lines, EntryPointLine(fileName));
    lines := lines + [EntryPointLine(fileName)];
    assert lines == written + FinalStageLines(fileName);
  }

  /**
   * The string assembly of `generar_dockerfile`: the header, then one line at
   * a time with `+=`, each line ended by a newline.
   */
  method AssembleDockerfile(rel: string, folder: string, fileName: string, projects: seq<string>)
    returns (content: string)
    ensures content == Unlines(LinesOf(rel, folder, fileName, projects))
  {
    ghost var lines := HeaderLines + ["", MainCopyLine(rel, folder)];
    content := StartDockerfile(rel, folder);
    content := AppendCopyLines(content, lines, projects);
    lines := lines + CopyLines(projects);
    content := AppendBuildSteps(content, lines, rel, folder, fileName);
    lines := lines + BuildStepLines(rel, folder, fileName);
    content := AppendPublishStage(content, lines, fileName);
    lines := lines + PublishStageLines(fileName);
    content := AppendFinalStage(content, lines, fileName);
  }

  /**
   * `generar_dockerfile` (without the file write): nothing on a parse error,
   * the exception of a bad `Include`, or the Dockerfile text.
   */
  method GenerateDockerfile(csproj: string, parsed: ParseResult) returns (outcome: Outcome)
    ensures outcome == DockerfileFor(csproj, parsed)
  {
    if parsed.ParseError? {
      return NotParsed;
    }
    var rel := RelativeProjectPath(csproj);
    var folder := ProjectFolder(csproj);
    var fileName := FileName(csproj);
    var normalized := ReferencedProjects(parsed.doc.projectReferences);
    if normalized.Err? {
      return Raised(normalized.error);
    }
    var content := AssembleDockerfile(rel, folder, fileName, normalized.value);
    return Generated(content);
  }
}
