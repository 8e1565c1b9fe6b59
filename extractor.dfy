/**
 * Extraction of dependency paths from a descriptor (`obtener_rutas_dependencias`
 * and `obtener_ruta_absoluta`): every `HintPath` resolved against the
 * descriptor's directory and normalised.
 */
module Extractor {
  import opened PyStrings
  import opened NtPath
  import opened Csproj

  /** `obtener_ruta_absoluta`: `normpath(join(dirname(csproj), hint))`. */
  function AbsolutePath(csproj: string, hint: string): string {
    NormPath(JoinPath(DirName(csproj), hint))
  }

  /**
   * A resolved path is non-empty (so the script's `if ruta_absoluta:` never
   * skips one), normalised and stable under a second normpath; a rooted hint
   * ignores the descriptor's directory; and the file name of the hint survives.
   */
  lemma AbsolutePathProperties(csproj: string, hint: string)
    ensures |AbsolutePath(csproj, hint)| > 0 && IsNormalized(AbsolutePath(csproj, hint))
    ensures NormPath(AbsolutePath(csproj, hint)) == AbsolutePath(csproj, hint)
    ensures IsRooted(hint) ==> AbsolutePath(csproj, hint) == NormPath(hint)
    ensures BaseName(hint) != "" && BaseName(hint) != CurDir && BaseName(hint) != ParDir ==>
              BaseName(AbsolutePath(csproj, hint)) == BaseName(hint)
  {
    var joined := JoinPath(DirName(csproj), hint);
    NormPathIsNormalized(joined);
    NormPathIdempotent(joined);
    JoinPathKeepsBaseName(DirName(csproj), hint);
    if BaseName(hint) != "" && BaseName(hint) != CurDir && BaseName(hint) != ParDir {
      NormPathKeepsBaseName(joined);
    }
  }

  /**
   * The positions of the references that carry a `HintPath`, in increasing
   * (document) order: exactly those positions, each once.
   */
  function HintedIndices(refs: seq<Reference>): (r: seq<nat>)
    ensures forall k :: 0 <= k < |r| ==> r[k] < |refs| && refs[r[k]].hintPath.Some?
    ensures forall j, k :: 0 <= j < k < |r| ==> r[j] < r[k]
    ensures forall i :: 0 <= i < |refs| && refs[i].hintPath.Some? ==> i in r
  {
    if refs == [] then []
    else
      var n := |refs| - 1;
      var front := HintedIndices(refs[..n]);
      assert forall i :: 0 <= i < n ==> refs[..n][i] == refs[i];
      front + (if refs[n].hintPath.Some? then [n] else [])
  }

  /** The resolved path of every hinted reference, in document order. */
  function DependencyPaths(csproj: string, refs: seq<Reference>): seq<string> {
    if refs == [] then []
    else
      var n := |refs| - 1;
      DependencyPaths(csproj, refs[..n])
        + (if refs[n].hintPath.Some? then [AbsolutePath(csproj, refs[n].hintPath.value)] else [])
  }

  /**
   * The k-th dependency path is the resolved `HintPath` of the k-th hinted
   * reference, and every one of them is normalised.
   */
  lemma {:induction false} DependencyPathsMatchHints(csproj: string, refs: seq<Reference>)
    ensures var paths := DependencyPaths(csproj, refs);
            var hinted := HintedIndices(refs);
            && |paths| == |hinted|
            && (forall k :: 0 <= k < |paths| ==> paths[k] == AbsolutePath(csproj, refs[hinted[k]].hintPath.value))
            && (forall k :: 0 <= k < |paths| ==> IsNormalized(paths[k]))
  {
    if refs != [] {
      var n := |refs| - 1;
      DependencyPathsMatchHints(csproj, refs[..n]);
      var front := HintedIndices(refs[..n]);
      assert forall k :: 0 <= k < |front| ==> refs[..n][front[k]] == refs[front[k]];
      if refs[n].hintPath.Some? {
        AbsolutePathProperties(csproj, refs[n].hintPath.value);
      }
    }
  }

  /**
   * `obtener_rutas_dependencias`: one resolved path per `Reference` with a
   * `HintPath`, in document order; the empty list when the descriptor does
   * not parse.
   */
  method ExtractDependencyPaths(csproj: string, parsed: ParseResult) returns (paths: seq<string>)
    ensures paths == if parsed.ParseError? then [] else DependencyPaths(csproj, parsed.doc.references)
  {
    if parsed.ParseError? {
      return [];
    }
    var refs := parsed.doc.references;
    paths := [];
    var i := 0;
    while i < |refs|
      invariant 0 <= i <= |refs|
      invariant paths == DependencyPaths(csproj, refs[..i])
    {
      assert refs[..i + 1][..i] == refs[..i];
      var reference := refs[i];
      if reference.hintPath.Some? {
        var absolute := AbsolutePath(csproj, reference.hintPath.value);
        AbsolutePathProperties(csproj, reference.hintPath.value);
        if |absolute| > 0 {
          paths := paths + [absolute];
        }
      }
      i := i + 1;
    }
    assert refs[..|refs|] == refs;
  }
}
