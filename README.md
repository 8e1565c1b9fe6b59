# dotnet2container, modelled in Dafny

`dotnet2container.py` containerises a .NET project. It starts from the
project descriptor (`<cwd>\<folder>.csproj`) and works in these steps:

1. It collects the absolute paths of the DLLs named by the `HintPath` of
   each `<Reference>`.
2. It copies those DLLs into a `Dependencias` folder. When a DLL is missing,
   it builds the sub-project that produces it.
3. It rewrites every `HintPath` so that it points into `Dependencias`.
4. It generates a multi-stage `Dockerfile` in the layout Visual Studio uses.
5. It builds the image `ioxee/<name>`. The name is the descriptor's file
   name up to its first `.`, lower-cased.
6. It restores the descriptor from a backup.

This project models the string and path logic of those steps and proves
properties of it:

- `pystrings.dfy` holds the Python `str` operations the script uses:
  `split`, `join`, `rstrip`, `replace(x, "")` and `lower`.
- `ntpath.dfy` holds `os.path` on Windows: `join`, `basename`, `dirname`
  and `normpath`. Both `\` and `/` count as separators.
- `csproj.dfy` is the parsed descriptor. It holds the `Reference` elements
  (an optional `Include` and an optional `HintPath` text) and the
  `ProjectReference` elements (an optional `Include`). Parsing yields such
  a document, or `ParseError` for malformed XML.
- `extractor.dfy` is `obtener_rutas_dependencias` and
  `obtener_ruta_absoluta`.
- `rewriter.dfy` is `modificar_ruta_dependencias`. The element tree it
  edits in place is the class `ProjectTree`.
- `dockerfile.dfy` is `generar_dockerfile`. The Dockerfile is a list of
  lines, and the text the script writes is those lines, each ending in a
  newline (`Unlines`). The two loops and the run of `+=` statements are
  methods proved equal to that text. The outcome is one of three:
  `NotParsed` (the `ParseError` branch), `Raised(AttributeError)` or
  `Raised(IndexError)` (the exceptions that escape line 150 for a
  `ProjectReference` without an `Include` or without a `\`), or
  `Generated(content)`.
- `script.dfy` holds the module-level values:
  - `csproj_route` and `file_name` (lines 6-9);
  - the image tag (line 211);
  - `initial_route` (line 245);
  - the sub-project root (line 269).

The process's working directory (`os.getcwd()`), the descriptor route and
the Docker host are parameters. `HostName` is the script's constant
`ioxee`. `csproj_route` and `archivo_csproj` are the same value in the
script (line 7), so the model passes one `csproj` parameter for both.

Line 269 derives the folder of the sub-project to build (the comment at
line 268 says so), and line 275 then looks for `bin\Debug` under it. Both
only make sense when the path is cut at its `bin` folder. The code cuts at
the first occurrence of the *substring* `bin`, which can sit inside a
folder name. The model follows the code (`Script.SubProjectRoot`) and
records the difference under "## Findings".

Lines 150, 195 and 211 take a name "without its extension" as
`split('.')[0]`, the text before the *first* `.`. The model does the same
(`Dockerfile.Stem`). For a dotted project name such as `Company.Web` this
yields `Company`, both in the `COPY` lines and in the `ENTRYPOINT` and the
image tag. This too is recorded under "## Findings".

## Model

| member | source | states |
|---|---|---|
| Extractor.ExtractDependencyPaths | dotnet2container.py:20-59 | The loop's result is `[]` when the descriptor does not parse. Otherwise it is `DependencyPaths`, the resolved `HintPath` of each hinted reference in document order. |
| Extractor.DependencyPathsMatchHints | dotnet2container.py:29-52 | There is one path per reference that has a `HintPath`. The k-th path is the absolute path of the k-th hinted reference's `HintPath`, and every path is normalised. |
| Extractor.HintedIndices | dotnet2container.py:29-37 | The hinted positions are exactly the references that have a `HintPath`, each listed once, in increasing document order. |
| Extractor.AbsolutePathProperties | dotnet2container.py:65-70 | The absolute path is non-empty and normalised, and normalising it again changes nothing. A `HintPath` that starts with a separator replaces the descriptor's folder (drive letters are not modelled; see "## Left out"). When the `HintPath` ends in an ordinary file name (not empty, `.` or `..`), that file name survives resolution. |
| NtPath.JoinPathKeepsBaseName | dotnet2container.py:69 | `basename(join(a, b)) == basename(b)` |
| NtPath.SplitAtLastSep | dotnet2container.py:67 | For `x + sep + y` with a separator-free `y`, the basename is `y`. When `x` has no trailing separator, the dirname is `x`. |
| NtPath.NormPathIsNormalized | dotnet2container.py:69 | `normpath` gives a non-empty path with no empty, `.` or misplaced `..` segment and only `\` separators. |
| NtPath.NormPathIdempotent | dotnet2container.py:69 | `normpath(normpath(p)) == normpath(p)` |
| NtPath.NormPathKeepsBaseName | dotnet2container.py:69 | `normpath` keeps a path's file name when that name is not empty, `.` or `..`. |
| Rewriter.RewriteReferenceProperties | dotnet2container.py:83-98 | A reference without a `HintPath` is untouched. A rewritten one keeps its `Include` and its file name. For a target without a trailing separator, the new hint is `target\name` and its dirname is the target. |
| Rewriter.RewriteIdempotent | dotnet2container.py:83-98 | Rewriting a second time with the same target changes nothing. |
| Rewriter.RewriteKeepsHintedIndices | dotnet2container.py:83-98 | The references that carry a `HintPath` are the same before and after rewriting. |
| Rewriter.RewriteNamesExtractedFiles | dotnet2container.py:43-98 | When the `HintPath` ends in an ordinary file name (not empty, `.` or `..`), the rewritten `HintPath` has the same file name as the absolute path the extractor resolved for it. |
| Rewriter.ProjectTree.RewriteHintPaths | dotnet2container.py:83-98 | The in-place loop leaves every reference rewritten to the target folder and the `ProjectReference` elements unchanged. |
| Rewriter.ModifyDependencyPaths | dotnet2container.py:76-108 | On `ParseError` nothing is written. Otherwise the written document holds the rewritten references and the original project references. |
| Dockerfile.StemOf | dotnet2container.py:195 | `name.split('.')[0]` of `stem.ext` is `stem` when the stem has no dot. |
| Dockerfile.MainProjectNames | dotnet2container.py:135-139 | For `prefix\folder\file`, the relative path is `folder/file`, the project folder is `folder` and the file name is `file`. |
| Dockerfile.NormalizeInclude | dotnet2container.py:147-150 | The result is an error exactly when `Include` is missing (`AttributeError`) or holds no `\` (`IndexError`). Otherwise the result holds no `\`. |
| Dockerfile.NormalizeIncludeValue | dotnet2container.py:150 | For every `Include` `x\name` with a separator-free `name`, the value is the last `\`-component of `x`, a `/`, and `name` up to its first `.`. |
| Dockerfile.NormalizeIncludeOfChild | dotnet2container.py:150 | A one-separator `Include` `folder\name` becomes `folder/` and the stem of `name`; `Lib\Lib.csproj` becomes `Lib/Lib`. |
| Dockerfile.StemOfDotFree | dotnet2container.py:150 | A name without a `.` is kept whole by `split('.')[0]`. |
| Dockerfile.NormalizeIncludeOfSibling | dotnet2container.py:150 | The Include `prefix\folder\stem.ext` becomes `folder/stem`. |
| Dockerfile.NormalizeAll | dotnet2container.py:144-153 | The list is built exactly when every `Include` normalises, and it holds one entry per reference, in order. Otherwise the first failing reference's exception escapes. |
| Dockerfile.ReferencedProjects | dotnet2container.py:143-153 | The first loop computes `NormalizeAll`. |
| Dockerfile.AppendCopyLines | dotnet2container.py:156-158 | The second loop appends one COPY line per referenced project, in order. |
| Dockerfile.StartDockerfile | dotnet2container.py:121-139 | The template plus the blank line and the main project's COPY line. |
| Dockerfile.AppendBuildSteps | dotnet2container.py:161-171 | It appends restore, blank, `COPY . .`, `WORKDIR` and build. |
| Dockerfile.AppendPublishStage | dotnet2container.py:174-180 | It appends blank, `FROM build AS publish` and publish. |
| Dockerfile.AppendFinalStage | dotnet2container.py:183-195 | It appends the final stage and the `ENTRYPOINT` line. |
| Dockerfile.AssembleDockerfile | dotnet2container.py:121-195 | The content built by the run of `+=` statements equals `Unlines(LinesOf(...))`. |
| Dockerfile.GenerateDockerfile | dotnet2container.py:114-205 | The outcome is `DockerfileFor(csproj, parsed)`: not parsed, the escaping exception, or the generated content. |
| Dockerfile.DockerfileForProject | dotnet2container.py:114-199 | For the descriptor `prefix\folder\file`, the generated text is the lines filled with `folder/file`, `folder` and `file`. |
| Dockerfile.CopyLinePerProjectReference | dotnet2container.py:144-158 | The Dockerfile has `24 + n` lines, and line `11 + k` is the COPY line of the k-th `ProjectReference`. |
| Dockerfile.LinesOfLayout | dotnet2container.py:121-195 | The position of every block of the Dockerfile. |
| Dockerfile.CopyLinesBeforeRestore | dotnet2container.py:139-161 | A line starts with `COPY ["` exactly when it is one of lines 10 to 10+n, all of which come before the restore. |
| Dockerfile.SingleRestore | dotnet2container.py:135-161 | `RUN dotnet restore` occurs exactly once, right after the COPY lines. It restores the relative path that the first COPY line copies. |
| Dockerfile.StageOpenings | dotnet2container.py:124-186 | The stages open in order: `base` on the ASP.NET image, `build` on the SDK image, `publish` from `build`, and `final` from `base`. |
| Dockerfile.FromLinesAreStageOpenings | dotnet2container.py:121-195 | The only `FROM` lines are those four stage openings. |
| Dockerfile.ProjectCopiedIntoItsFolder | dotnet2container.py:158 | `folder/stem` is copied as `folder/stem.csproj` into `folder/`. |
| Dockerfile.EntryPointLast | dotnet2container.py:195 | The last line is the `ENTRYPOINT` line, which names the DLL `<file name up to its first .>.dll`. |
| Dockerfile.DottedIncludeLosesSuffix | dotnet2container.py:150 | As written, the `Include` `..\Company.Shared\Company.Shared.csproj` becomes `Company.Shared/Company`. |
| Dockerfile.DottedNameLosesSuffix | dotnet2container.py:195 | As written, the stem of `Company.Web.csproj` is `Company`. |
| Dockerfile.StemAtLastDotOf | dotnet2container.py:195 | Cutting at the last `.` gives back the whole stem of `stem.ext`, dots included, when `ext` has no dot. |
| Dockerfile.NormalizeIncludeAtLastDot | dotnet2container.py:150 | The corrected normalisation fails exactly when line 150 does, with the same exception. |
| Dockerfile.NormalizeIncludeAtLastDotOfSibling | dotnet2container.py:150 | Corrected: `prefix\folder\stem.ext` becomes `folder/stem` for any stem, dotted or not. |
| Dockerfile.DottedIncludeKeepsName | dotnet2container.py:150 | Corrected: `..\Company.Shared\Company.Shared.csproj` becomes `Company.Shared/Company.Shared`. |
| Dockerfile.DottedNameKeepsName | dotnet2container.py:195 | Corrected: the stem of `Company.Web.csproj` is `Company.Web`. |
| Script.CsprojRouteNames | dotnet2container.py:6-9 | `file_name` is `<last folder of cwd>.csproj`. The descriptor's dirname is the working directory. |
| Script.ImageTagShape | dotnet2container.py:211 | The repository part of the tag has no `.` and no upper-case letter. It is the lower-cased prefix of `file_name`. |
| Script.ImageTagOf | dotnet2container.py:211 | The tag of `stem.ext` is `host/lower(stem)`. |
| Script.ImageTagIgnoresCase | dotnet2container.py:211 | Projects whose names differ only in case get the same tag. |
| Script.DockerBuildCommandVariesOnlyInTag | dotnet2container.py:211 | Two `docker build` commands are equal exactly when their tags are: the tag is the only part that varies. |
| Script.ScriptBuildCommands | dotnet2container.py:12-211 | The script's command tags the image under `ioxee/`. Two projects get the same command exactly when their lower-cased names up to the first `.` agree. |
| Script.InitialRouteIsFolder | dotnet2container.py:245 | Removing the file name from `dir\name` leaves `dir` (with its trailing `\`), when the name does not occur earlier. |
| Script.SubProjectRootShape | dotnet2container.py:269 | The root is a prefix of the path that contains no `bin` and has no trailing `\`. |
| Script.SubProjectRootOfBuildOutput | dotnet2container.py:269 | `root\bin\rest` gives back `root` when `root` contains no `bin` and has no trailing `\`. |
| Script.SubstringCutsFolderName | dotnet2container.py:269 | As written, `C:\robin\lib\bin\Debug\lib.dll` gives the root `C:\ro`. |
| Script.SubProjectRootAtSegmentOfBuildOutput | dotnet2container.py:269 | Cutting at the first `bin` segment gives back `root` for `root\bin\rest`, whenever no segment of `root` is `bin`. |
| Script.SegmentKeepsFolderName | dotnet2container.py:269 | Cutting at the segment turns `C:\robin\lib\bin\Debug\lib.dll` into `C:\robin\lib`. |

## Left out

- XML parsing and `tree.write` are left out. The descriptor is a parsed `Document` value, or `ParseError`.
- `ET.parse` can also raise `OSError` (such as `FileNotFoundError`), which lines 55, 106 and 204 do not catch. So a missing descriptor does not give the empty list that the comment at line 18 promises; the script avoids that case by checking `os.path.isfile` at line 237 first. The model has no missing-file outcome.
- A `HintPath` element whose text is empty (`None` in ElementTree) is not modelled. Every `HintPath` holds a string. In the script, `os.path.join` (line 69) and `os.path.basename` (line 92) raise an uncaught `TypeError` on `None`.
- All `os.system` calls are left out: `copy`, `dotnet build` and `docker build`. Only the command text of the image build (`Script.DockerBuildCommand`) is modelled, not its execution.
- The file system is left out: `os.path.isfile`/`isdir`/`exists`, `mkdir`, `chdir`, `shutil.move`/`rmtree`, `os.remove` and writing the `Dockerfile`. The model stops at the content that would be written.
- The top-level orchestration (lines 237-315) and `restaurar_ruta_dependencias` are left out, because they only sequence file-system actions. `os.getcwd()` is a parameter.
- Console output (`print`) is left out.
- Drive letters and UNC prefixes in `ntpath` are left out. `C:` is treated as an ordinary first segment. The descriptor route comes from `os.getcwd()`, so it always has a drive, and three kinds of `HintPath` resolve differently from Python:
  - A drive-qualified `HintPath` is appended to the descriptor's folder. The model joins `C:\src\Web` and `D:\libs\foo.dll` into `C:\src\Web\D:\libs\foo.dll`, while `ntpath.join` gives `D:\libs\foo.dll`.
  - A `HintPath` that starts with a separator drops the drive. The model resolves `\libs\foo.dll` to `\libs\foo.dll`, while Python gives `C:\libs\foo.dll`.
  - A `HintPath` with more `..` segments than there are folders above the descriptor removes the drive as if it were a folder. `AbsolutePath("C:\src\Web\Web.csproj", "..\..\..\foo.dll")` is `foo.dll`, while `ntpath.normpath` keeps the drive root and gives `C:\foo.dll`.
- Script.ImageTagShape: `str.lower` is modelled for ASCII letters only, not full Unicode case mapping.

## Findings

| source | as written | input that shows it | evidently intended | confidence | as-written member | corrected member |
|---|---|---|---|---|---|---|
| dotnet2container.py:269 | `ruta.split("bin")[0]` cuts at the first substring `bin`, even inside a folder name | `C:\robin\lib\bin\Debug\lib.dll` gives `C:\ro` | cut at the first `bin` path segment, giving `C:\robin\lib` | not executed | Script.SubstringCutsFolderName | Script.SubProjectRootAtSegmentOfBuildOutput |
| dotnet2container.py:150 | `include.split('\\')[-1].split('.')[0]` cuts the project name at its first `.` | `..\Company.Shared\Company.Shared.csproj` gives `Company.Shared/Company`, and the COPY line names `Company.Shared/Company.csproj`, which does not exist | cut the extension at the last `.`, giving `Company.Shared/Company.Shared` | not executed | Dockerfile.DottedIncludeLosesSuffix | Dockerfile.NormalizeIncludeAtLastDotOfSibling |
| dotnet2container.py:195 | `file_name.split('.')[0]` cuts the assembly name at its first `.` | `Company.Web.csproj` gives `ENTRYPOINT ["dotnet", "Company.dll"]` and the tag `ioxee/company` | cut at the last `.`, giving `Company.Web.dll` | not executed | Dockerfile.DottedNameLosesSuffix | Dockerfile.StemAtLastDotOf |
