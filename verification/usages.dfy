/**
 * The usage walk of the TypeScript parser: a depth-first pre-order
 * traversal without context that records call sites and instantiations.
 */
module Usages {
  import opened Wrappers
  import opened Symbols
  import opened Syntax

  const CallKind: string := "call_expression"
  const NewKind: string := "new_expression"
  const IdentifierKind: string := "identifier"
  const MemberKind: string := "member_expression"

  /**
   * `extract_call_name`: the name a call records for its callee. A plain
   * identifier gives its own text; a member access gives only the text of
   * its `property` field, dropping the receiver; every other callee shape
   * (and a member access without a property) gives the empty name, so the
   * call records nothing.
   */
  function CalleeName(callee: Node): (r: string)
    ensures r != "" ==> callee.kind in {IdentifierKind, MemberKind}
    ensures callee.kind == IdentifierKind ==> r == callee.text
    ensures callee.kind == MemberKind ==>
      r == (if "property" in callee.fields then callee.fields["property"].text else "")
  {
    if callee.kind == IdentifierKind then
      callee.text
    else if callee.kind == MemberKind then
      match Field(callee, "property")
      case Some(property) => property.text
      case None => ""
    else
      ""
  }

  /**
   * The usage node `n` itself contributes: a `Function` usage for a call,
   * located at the whole callee expression, or a `Class` usage for a `new`
   * expression, named by the raw text of its constructor and located there.
   */
  function OwnUsage(n: Node, file: string): (r: seq<Symbol>)
    ensures |r| <= 1
    ensures WellFormed(r, file)
    ensures r != [] && n.kind == CallKind ==>
      "function" in n.fields && r[0].location == LocationOf(n.fields["function"], file) && r[0].kind == Function
    ensures r != [] && n.kind == NewKind ==>
      "constructor" in n.fields && r[0].location == LocationOf(n.fields["constructor"], file) && r[0].kind == Class
    ensures r != [] ==> n.kind in {CallKind, NewKind}
  {
    if n.kind == CallKind then
      match Field(n, "function")
      case Some(callee) => Emit(CalleeName(callee), callee, Function, file)
      case None => []
    else if n.kind == NewKind then
      match Field(n, "constructor")
      case Some(ctor) => Emit(ctor.text, ctor, Class, file)
      case None => []
    else
      []
  }

  /** `traverse_for_usages`: the node's own usage, then the children's usages in order; every node recurses. */
  function TraverseUsages(n: Node, file: string): (r: seq<Symbol>)
    ensures WellFormed(r, file)
    decreases n, 1
  {
    OwnUsage(n, file) + UsagesOfChildren(n.children, file)
  }

  function UsagesOfChildren(cs: seq<Node>, file: string): (r: seq<Symbol>)
    ensures WellFormed(r, file)
    decreases cs, 0
  {
    if cs == [] then [] else TraverseUsages(cs[0], file) + UsagesOfChildren(cs[1..], file)
  }

  /** What each node of `ns` records on its own, in order. */
  function UsagesAlong(ns: seq<Node>, file: string): seq<Symbol>
  {
    if ns == [] then [] else OwnUsage(ns[0], file) + UsagesAlong(ns[1..], file)
  }

  lemma {:induction false} UsagesAlongAppend(ns: seq<Node>, ms: seq<Node>, file: string)
    ensures UsagesAlong(ns + ms, file) == UsagesAlong(ns, file) + UsagesAlong(ms, file)
  {
    if ns == [] {
      assert ns + ms == ms;
    } else {
      assert (ns + ms)[1..] == ns[1..] + ms;
      UsagesAlongAppend(ns[1..], ms, file);
    }
  }

  /** The walk visits every node exactly once, in pre-order, and concatenates what each records. */
  lemma {:induction false} WalkFollowsPreOrder(n: Node, file: string)
    ensures TraverseUsages(n, file) == UsagesAlong(PreOrder(n), file)
    decreases n, 1
  {
    WalkFollowsPreOrderAll(n.children, file);
    UsagesAlongAppend([n], PreOrderAll(n.children), file);
  }

  lemma {:induction false} WalkFollowsPreOrderAll(cs: seq<Node>, file: string)
    ensures UsagesOfChildren(cs, file) == UsagesAlong(PreOrderAll(cs), file)
    decreases cs, 0
  {
    if cs != [] {
      WalkFollowsPreOrder(cs[0], file);
      WalkFollowsPreOrderAll(cs[1..], file);
      UsagesAlongAppend(PreOrder(cs[0]), PreOrderAll(cs[1..]), file);
    }
  }

  /** `extract_usages`: the walk from the root; every usage it reports is named and in `file`. */
  function ExtractUsages(root: Node, file: string): (r: seq<Symbol>)
    ensures WellFormed(r, file)
  {
    TraverseUsages(root, file)
  }

  /** The usages of a file are the pre-order concatenation of what every node records on its own. */
  lemma ExtractUsagesFollowsPreOrder(root: Node, file: string)
    ensures ExtractUsages(root, file) == UsagesAlong(PreOrder(root), file)
  {
    WalkFollowsPreOrder(root, file);
  }

  /** Each node records at most one usage. */
  lemma {:induction false} AtMostOneUsagePerNode(n: Node, file: string)
    ensures |TraverseUsages(n, file)| <= |PreOrder(n)|
    decreases n, 1
  {
    AtMostOneUsagePerNodeAll(n.children, file);
  }

  lemma {:induction false} AtMostOneUsagePerNodeAll(cs: seq<Node>, file: string)
    ensures |UsagesOfChildren(cs, file)| <= |PreOrderAll(cs)|
    decreases cs, 0
  {
    if cs != [] {
      AtMostOneUsagePerNode(cs[0], file);
      AtMostOneUsagePerNodeAll(cs[1..], file);
    }
  }

  // ---------------------------------------------------------------------
  // Per-shape rules
  // ---------------------------------------------------------------------

  /**
   * A call on `receiver.property` records the property name only, and
   * records it at the start of the whole callee expression, that is, at the
   * receiver rather than at the property.
   */
  lemma MemberCallUsesProperty(n: Node, file: string)
    requires n.kind == CallKind && "function" in n.fields
    requires n.fields["function"].kind == MemberKind && "property" in n.fields["function"].fields
    requires n.fields["function"].fields["property"].text != ""
    ensures OwnUsage(n, file) ==
      [Symbol(n.fields["function"].fields["property"].text, Function, LocationOf(n.fields["function"], file))]
  {
  }

  /** A call records a usage exactly when it has a callee that resolves to a non-empty name. */
  lemma CallRecordsResolvedCallee(n: Node, file: string)
    requires n.kind == CallKind
    ensures OwnUsage(n, file) != [] <==> "function" in n.fields && CalleeName(n.fields["function"]) != ""
    ensures OwnUsage(n, file) != [] ==> OwnUsage(n, file)[0].name == CalleeName(n.fields["function"])
  {
  }

  /**
   * A `new` expression records a `Class` usage exactly when its constructor
   * has non-empty text, and the name is that text verbatim, whatever the
   * constructor's shape.
   */
  lemma NewRecordsConstructorText(n: Node, file: string)
    requires n.kind == NewKind
    ensures OwnUsage(n, file) != [] <==> "constructor" in n.fields && n.fields["constructor"].text != ""
    ensures OwnUsage(n, file) != [] ==>
      OwnUsage(n, file) == [Symbol(n.fields["constructor"].text, Class, LocationOf(n.fields["constructor"], file))]
  {
  }

  /**
   * Recording a usage never stops the walk: a call or `new` node's usage is
   * followed by everything its children record, so a call nested in another
   * call's arguments is found after the outer one.
   */
  lemma {:induction false} UsageThenDescendants(n: Node, file: string)
    ensures TraverseUsages(n, file) == OwnUsage(n, file) + UsagesAlong(PreOrderAll(n.children), file)
  {
    WalkFollowsPreOrderAll(n.children, file);
  }
}
