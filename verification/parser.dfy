/**
 * The entry point of the TypeScript parser: the external parse, then both
 * walks over the resulting tree, packaged as one `ParsedFile`.
 */
module TypeScriptParser {
  import opened Wrappers
  import opened Symbols
  import opened Syntax
  import Definitions
  import Usages

  /** The only error that reaches the caller: the external parser produced no tree. */
  datatype ParseError = ParseFailure

  /**
   * `parse`: `tree` is what the external grammar parser returned for the
   * file's source text. Without a tree the call fails and returns nothing
   * partial; with one, the result carries `path` and every symbol in it is
   * named and located in `path`.
   */
  function Parse(tree: Option<Node>, path: string): (r: Result<ParsedFile, ParseError>)
    ensures r.Failure? <==> tree.None?
    ensures r.Failure? ==> r.error == ParseFailure
    ensures r.Success? ==> r.value.path == path
    ensures r.Success? ==> WellFormed(r.value.definitions, path) && WellFormed(r.value.usages, path)
  {
    match tree
    case None => Failure(ParseFailure)
    case Some(root) =>
      Success(ParsedFile(path, Definitions.ExtractDefinitions(root, path), Usages.ExtractUsages(root, path)))
  }

  /**
   * A successful parse lists as definitions what every node of the tree
   * declares, in pre-order, under the context of its innermost named
   * enclosing class, and as usages what every node records, in pre-order.
   */
  lemma ParseFollowsPreOrder(root: Node, path: string)
    ensures Parse(Some(root), path).Success?
    ensures Parse(Some(root), path).value.definitions == Definitions.DefinitionsAlong(Visits(root, []), path)
    ensures Parse(Some(root), path).value.usages == Usages.UsagesAlong(PreOrder(root), path)
  {
    Definitions.ExtractDefinitionsFollowsVisits(root, path);
    Usages.ExtractUsagesFollowsPreOrder(root, path);
  }
}
