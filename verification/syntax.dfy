/**
 * The syntax tree handed over by the external grammar-based parser,
 * together with the two reference enumerations of its nodes used to
 * specify the walks: plain pre-order, and pre-order with each node's
 * chain of ancestors.
 */
module Syntax {
  import opened Wrappers
  import opened Symbols

  /**
   * A syntax-tree node. `fields` is the named-field lookup, `children` the
   * ordered child list, `row`/`column` the 0-based start position and
   * `text` the node's source text, already decoded.
   */
  datatype Node = Node(
    kind: string,
    fields: map<string, Node>,
    children: seq<Node>,
    row: nat,
    column: nat,
    text: string)

  /** Named-field lookup (`child_by_field_name`). */
  function Field(n: Node, name: string): (r: Option<Node>)
    ensures r.Some? <==> name in n.fields
    ensures r.Some? ==> r.value == n.fields[name]
  {
    if name in n.fields then Some(n.fields[name]) else None
  }

  /** The location recorded for a symbol found at node `n`: 1-based line, column unchanged. */
  function LocationOf(n: Node, file: string): Location
  {
    Location(file, n.row + 1, n.column)
  }

  /** One symbol named `name` located at `at`, or nothing when the name is empty. */
  function Emit(name: string, at: Node, kind: SymbolKind, file: string): seq<Symbol>
  {
    if name == "" then [] else [Symbol(name, kind, LocationOf(at, file))]
  }

  /** Every node of the tree rooted at `n`, each once, a node before its descendants, children in order. */
  function PreOrder(n: Node): (r: seq<Node>)
    ensures |r| >= 1 && r[0] == n
  {
    [n] + PreOrderAll(n.children)
  }

  function PreOrderAll(cs: seq<Node>): seq<Node>
  {
    if cs == [] then [] else PreOrder(cs[0]) + PreOrderAll(cs[1..])
  }

  /** A node together with its ancestors, outermost first. */
  datatype Visit = Visit(node: Node, ancestors: seq<Node>)

  /** The pre-order enumeration of the tree rooted at `n`, which sits below `ancestors`. */
  function Visits(n: Node, ancestors: seq<Node>): seq<Visit>
  {
    [Visit(n, ancestors)] + VisitsAll(n.children, ancestors + [n])
  }

  function VisitsAll(cs: seq<Node>, ancestors: seq<Node>): seq<Visit>
  {
    if cs == [] then [] else Visits(cs[0], ancestors) + VisitsAll(cs[1..], ancestors)
  }

  /**
   * The two enumerations list the same nodes in the same order, and every
   * visit's ancestor chain extends the chain the walk started below.
   */
  lemma {:induction false} VisitsFollowPreOrder(n: Node, ancestors: seq<Node>)
    ensures |Visits(n, ancestors)| == |PreOrder(n)|
    ensures forall i :: 0 <= i < |PreOrder(n)| ==> Visits(n, ancestors)[i].node == PreOrder(n)[i]
    ensures forall v :: v in Visits(n, ancestors) ==> ancestors <= v.ancestors
    decreases n, 1
  {
    VisitsAllFollowPreOrderAll(n.children, ancestors + [n]);
  }

  lemma {:induction false} VisitsAllFollowPreOrderAll(cs: seq<Node>, ancestors: seq<Node>)
    ensures |VisitsAll(cs, ancestors)| == |PreOrderAll(cs)|
    ensures forall i :: 0 <= i < |PreOrderAll(cs)| ==> VisitsAll(cs, ancestors)[i].node == PreOrderAll(cs)[i]
    ensures forall v :: v in VisitsAll(cs, ancestors) ==> ancestors <= v.ancestors
    decreases cs, 0
  {
    if cs != [] {
      VisitsFollowPreOrder(cs[0], ancestors);
      VisitsAllFollowPreOrderAll(cs[1..], ancestors);
    }
  }
}
