/**
 * A `.csproj` descriptor as the script sees it once ElementTree has parsed
 * it: the `Reference` and `ProjectReference` elements, in document order.
 */
module Csproj {
  import opened Wrappers

  /**
   * A `<Reference Include="…">` element. `hintPath` is the text of its
   * `<HintPath>` child (`reference.find('HintPath')`), when it has one.
   */
  datatype Reference = Reference(includeAttr: Option<string>, hintPath: Option<string>)

  /** A `<ProjectReference Include="…">` element; the attribute may be missing. */
  datatype ProjectReference = ProjectReference(includeAttr: Option<string>)

  /** The elements found by `root.iter('Reference')` and `root.iter('ProjectReference')`. */
  datatype Document = Document(references: seq<Reference>, projectReferences: seq<ProjectReference>)

  /** The outcome of `ET.parse`: a document, or a `ParseError`. */
  datatype ParseResult = ParseError | Parsed(doc: Document)
}
