/**
 * `modificar_ruta_dependencias`: every `HintPath` of the parsed descriptor is
 * re-pointed at the consolidated dependencies folder, keeping its file name.
 */
module Rewriter {
  import opened Wrappers
  import opened PyStrings
  import opened NtPath
  import opened Csproj
  import opened Extractor

  /** One reference after rewriting: a `HintPath` becomes `join(target, basename(hint))`; nothing else changes. */
  function RewriteReference(r: Reference, target: string): Reference {
    match r.hintPath
    case None => r
    case Some(h) => r.(hintPath := Some(JoinPath(target, BaseName(h))))
  }

  /** Every reference of the descriptor rewritten, in place and in order. */
  function RewriteAll(refs: seq<Reference>, target: string): seq<Reference> {
    seq(|refs|, i requires 0 <= i < |refs| => RewriteReference(refs[i], target))
  }

  /**
   * What rewriting promises of each reference: the `Include` and the
   * presence of a `HintPath` are kept, a reference without one is unchanged,
   * and a rewritten `HintPath` keeps its file name and sits directly in
   * `target` (when `target` is a non-empty folder path without a trailing
   * separator).
   */
  lemma RewriteReferenceProperties(r: Reference, target: string)
    ensures RewriteReference(r, target).includeAttr == r.includeAttr
    ensures RewriteReference(r, target).hintPath.Some? == r.hintPath.Some?
    ensures r.hintPath.None? ==> RewriteReference(r, target) == r
    ensures r.hintPath.Some? ==>
              var h' := RewriteReference(r, target).hintPath.value;
              && BaseName(h') == BaseName(r.hintPath.value)
              && (|target| > 0 && Last(target) !in Seps ==>
                    h' == target + [Sep] + BaseName(r.hintPath.value) && DirName(h') == target)
  {
    if r.hintPath.Some? {
      var name := BaseName(r.hintPath.value);
      JoinPathKeepsBaseName(target, name);
      BaseNameOfName(name);
      if |target| > 0 && Last(target) !in Seps {
        assert !IsRooted(name);
        SplitAtLastSep(target, Sep, name);
      }
    }
  }

  /** A separator-free name is its own basename. */
  lemma BaseNameOfName(name: string)
    requires Avoids(name, Seps)
    ensures BaseName(name) == name
  {
    SplitSingle(name, Seps);
  }

  /** Rewriting twice with the same target gives the same descriptor as rewriting once. */
  lemma RewriteIdempotent(refs: seq<Reference>, target: string)
    ensures RewriteAll(RewriteAll(refs, target), target) == RewriteAll(refs, target)
  {
    forall i | 0 <= i < |refs|
      ensures RewriteReference(RewriteReference(refs[i], target), target) == RewriteReference(refs[i], target)
    {
      RewriteReferenceProperties(refs[i], target);
    }
  }

  /** Rewriting keeps exactly the same references hinted, so extraction still finds one path per original hint. */
  lemma {:induction false} RewriteKeepsHintedIndices(refs: seq<Reference>, target: string)
    ensures HintedIndices(RewriteAll(refs, target)) == HintedIndices(refs)
  {
    if refs != [] {
      var n := |refs| - 1;
      assert RewriteAll(refs, target)[..n] == RewriteAll(refs[..n], target);
      RewriteKeepsHintedIndices(refs[..n], target);
      RewriteReferenceProperties(refs[n], target);
    }
  }

  /**
   * The rewritten descriptor names the files the script copies: the file
   * name of each rewritten `HintPath` is that of the extracted dependency
   * path, whenever the hint ends in an ordinary file name.
   */
  lemma RewriteNamesExtractedFiles(csproj: string, refs: seq<Reference>, target: string, i: nat)
    requires i < |refs| && refs[i].hintPath.Some?
    requires var name := BaseName(refs[i].hintPath.value); name != "" && name != CurDir && name != ParDir
    ensures BaseName(RewriteAll(refs, target)[i].hintPath.value)
            == BaseName(AbsolutePath(csproj, refs[i].hintPath.value))
  {
    RewriteReferenceProperties(refs[i], target);
    AbsolutePathProperties(csproj, refs[i].hintPath.value);
  }

  /** The parsed element tree of the descriptor, whose `HintPath` texts are edited in place. */
  class ProjectTree {
    var references: seq<Reference>
    var projectReferences: seq<ProjectReference>

    constructor (doc: Document)
      ensures references == doc.references && projectReferences == doc.projectReferences
    {
      references := doc.references;
      projectReferences := doc.projectReferences;
    }

    /** The document `tree.write` would serialise. */
    function Snapshot(): Document
      reads this
    {
      Document(references, projectReferences)
    }

    /** The loop of `modificar_ruta_dependencias`: `hint_path_element.text = nueva_ruta` for every hinted reference. */
    method RewriteHintPaths(target: string)
      modifies this
      ensures references == RewriteAll(old(references), target)
      ensures projectReferences == old(projectReferences)
    {
      var i := 0;
      while i < |references|
        invariant 0 <= i <= |references| == |old(references)|
        invariant references[..i] == RewriteAll(old(references), target)[..i]
        invariant references[i..] == old(references)[i..]
        invariant projectReferences == old(projectReferences)
      {
        var reference := references[i];
        assert reference == old(references)[i];
        if reference.hintPath.Some? {
          var fileName := BaseName(reference.hintPath.value);
          var newPath := JoinPath(target, fileName);
          references := references[i := reference.(hintPath := Some(newPath))];
        }
        i := i + 1;
      }
    }
  }

  /**
   * `modificar_ruta_dependencias`: the descriptor written back after
   * rewriting, or nothing written when it does not parse.
   */
  method ModifyDependencyPaths(parsed: ParseResult, target: string) returns (written: Option<Document>)
    ensures written == match parsed
                       case ParseError => None
                       case Parsed(doc) => Some(Document(RewriteAll(doc.references, target), doc.projectReferences))
  {
    if parsed.ParseError? {
      return None;
    }
    var tree := new ProjectTree(parsed.doc);
    tree.RewriteHintPaths(target);
    written := Some(tree.Snapshot());
  }
}
