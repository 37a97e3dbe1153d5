/**
 * The definition walk of the TypeScript parser: a depth-first pre-order
 * traversal that threads the name of the innermost named enclosing class
 * and emits one symbol per declaration-shaped node.
 */
module Definitions {
  import opened Wrappers
  import opened Symbols
  import opened Syntax

  const FunctionKinds: set<string> := {"function_declaration", "function"}
  const ClassKinds: set<string> := {"class_declaration", "class"}
  const MethodKind: string := "method_definition"
  const BindingKind: string := "variable_declarator"
  const ArrowKind: string := "arrow_function"
  /** Initialiser kinds that make a variable binding a function definition. */
  const FunctionValueKinds: set<string> := {"function", "arrow_function"}
  /** Every node kind for which the walk may emit a definition. */
  const DeclarationKinds: set<string> := FunctionKinds + ClassKinds + {MethodKind, BindingKind}

  /** The symbol for a declaration named by its `name` field, if that field is present. */
  function EmitNamed(n: Node, kind: SymbolKind, file: string): seq<Symbol>
  {
    match Field(n, "name")
    case Some(nameNode) => Emit(nameNode.text, nameNode, kind, file)
    case None => []
  }

  /** True when `n` has a `name` field whose text is non-empty. */
  predicate HasName(n: Node)
  {
    "name" in n.fields && n.fields["name"].text != ""
  }

  /** The name a class node introduces as context: present only for a class kind with a non-empty name. */
  function DeclaredClassName(n: Node): (r: Option<string>)
    ensures r.Some? <==> n.kind in ClassKinds && HasName(n)
    ensures r.Some? ==> r.value == n.fields["name"].text
  {
    if n.kind in ClassKinds then
      match Field(n, "name")
      case Some(nameNode) => if nameNode.text != "" then Some(nameNode.text) else None
      case None => None
    else None
  }

  /** The context the walk carries: no class, or a class with a non-empty name. */
  predicate ValidContext(ctx: Option<string>)
  {
    ctx.None? || ctx.value != ""
  }

  /**
   * The symbol node `n` itself contributes under context `ctx` (the match in
   * `traverse_for_definitions` before the generic recursion). Whatever it
   * emits is named and located by the node's `name` field, never by the
   * declaration node as a whole.
   */
  function OwnDefinition(n: Node, ctx: Option<string>, file: string): (r: seq<Symbol>)
    ensures |r| <= 1
    ensures r != [] ==> n.kind in DeclarationKinds && HasName(n)
    ensures r != [] ==> r[0].name == n.fields["name"].text
    ensures r != [] ==> r[0].location == LocationOf(n.fields["name"], file)
    ensures WellFormed(r, file)
    ensures n.kind in FunctionKinds && HasName(n) ==>
      r == [Symbol(n.fields["name"].text, Function, LocationOf(n.fields["name"], file))]
    ensures n.kind in ClassKinds ==> (r != [] <==> HasName(n))
    ensures n.kind in ClassKinds && r != [] ==> r[0].kind == Class
  {
    if n.kind in FunctionKinds then
      EmitNamed(n, Function, file)
    else if n.kind == ArrowKind then
      // an arrow function counts only as the value of a variable binding
      []
    else if n.kind == MethodKind then
      EmitNamed(n, if ctx.Some? then Method(ctx.value) else Function, file)
    else if n.kind in ClassKinds then
      EmitNamed(n, Class, file)
    else if n.kind == BindingKind then
      match (Field(n, "name"), Field(n, "value"))
      case (Some(nameNode), Some(valueNode)) =>
        if valueNode.kind in FunctionValueKinds then Emit(nameNode.text, nameNode, Function, file) else []
      case _ => []
    else
      []
  }

  /**
   * `traverse_for_definitions`: the node's own symbol, then its children's
   * definitions in order. A named class visits its children once, with its
   * own name as the context, and does not fall through to the generic
   * recursion; every other node passes `ctx` on unchanged.
   */
  function TraverseDefinitions(n: Node, ctx: Option<string>, file: string): (r: seq<Symbol>)
    ensures WellFormed(r, file)
    ensures ValidContext(ctx) ==> forall s :: s in r && s.kind.Method? ==> s.kind.className != ""
    decreases n, 1
  {
    match DeclaredClassName(n)
    case Some(className) =>
      OwnDefinition(n, ctx, file) + DefinitionsOfChildren(n.children, Some(className), file)
    case None =>
      OwnDefinition(n, ctx, file) + DefinitionsOfChildren(n.children, ctx, file)
  }

  /** The children's definitions, concatenated in child order, all under context `ctx`. */
  function DefinitionsOfChildren(cs: seq<Node>, ctx: Option<string>, file: string): (r: seq<Symbol>)
    ensures WellFormed(r, file)
    ensures ValidContext(ctx) ==> forall s :: s in r && s.kind.Method? ==> s.kind.className != ""
    decreases cs, 0
  {
    if cs == [] then []
    else TraverseDefinitions(cs[0], ctx, file) + DefinitionsOfChildren(cs[1..], ctx, file)
  }

  // ---------------------------------------------------------------------
  // Reference specification: context from the ancestor chain
  // ---------------------------------------------------------------------

  /** The name of the innermost ancestor that is a class with a non-empty name, if any. */
  function EnclosingClass(ancestors: seq<Node>): Option<string>
  {
    if ancestors == [] then None
    else match DeclaredClassName(ancestors[|ancestors| - 1])
      case Some(className) => Some(className)
      case None => EnclosingClass(ancestors[..|ancestors| - 1])
  }

  /** What each visited node emits on its own, under the context its ancestors determine. */
  function DefinitionsAlong(vs: seq<Visit>, file: string): seq<Symbol>
  {
    if vs == [] then []
    else OwnDefinition(vs[0].node, EnclosingClass(vs[0].ancestors), file) + DefinitionsAlong(vs[1..], file)
  }

  lemma {:induction false} DefinitionsAlongAppend(vs: seq<Visit>, ws: seq<Visit>, file: string)
    ensures DefinitionsAlong(vs + ws, file) == DefinitionsAlong(vs, file) + DefinitionsAlong(ws, file)
  {
    if vs == [] {
      assert vs + ws == ws;
    } else {
      assert (vs + ws)[1..] == vs[1..] + ws;
      DefinitionsAlongAppend(vs[1..], ws, file);
    }
  }

  /** Entering node `n` extends the ancestor chain; the context becomes `n`'s name exactly when `n` is a named class. */
  lemma EnclosingClassOfChild(ancestors: seq<Node>, n: Node)
    ensures EnclosingClass(ancestors + [n]) ==
      (if DeclaredClassName(n).Some? then DeclaredClassName(n) else EnclosingClass(ancestors))
  {
    assert (ancestors + [n])[..|ancestors + [n]| - 1] == ancestors;
  }

  /**
   * The walk is the pre-order enumeration of the tree: every node is visited
   * exactly once, contributes its own symbol under the context of its
   * innermost named enclosing class, and precedes its descendants.
   */
  lemma {:induction false} WalkFollowsVisits(n: Node, ancestors: seq<Node>, file: string)
    ensures TraverseDefinitions(n, EnclosingClass(ancestors), file) == DefinitionsAlong(Visits(n, ancestors), file)
    decreases n, 1
  {
    EnclosingClassOfChild(ancestors, n);
    WalkFollowsVisitsAll(n.children, ancestors + [n], file);
    DefinitionsAlongAppend([Visit(n, ancestors)], VisitsAll(n.children, ancestors + [n]), file);
  }

  lemma {:induction false} WalkFollowsVisitsAll(cs: seq<Node>, ancestors: seq<Node>, file: string)
    ensures DefinitionsOfChildren(cs, EnclosingClass(ancestors), file) == DefinitionsAlong(VisitsAll(cs, ancestors), file)
    decreases cs, 0
  {
    if cs != [] {
      WalkFollowsVisits(cs[0], ancestors, file);
      WalkFollowsVisitsAll(cs[1..], ancestors, file);
      DefinitionsAlongAppend(Visits(cs[0], ancestors), VisitsAll(cs[1..], ancestors), file);
    }
  }

  /**
   * `extract_definitions`: the walk from the root with no class context.
   * Every method it reports names a class that is really there.
   */
  function ExtractDefinitions(root: Node, file: string): (r: seq<Symbol>)
    ensures WellFormed(r, file)
    ensures forall s :: s in r && s.kind.Method? ==> s.kind.className != ""
  {
    TraverseDefinitions(root, None, file)
  }

  /**
   * The definitions of a file are the pre-order concatenation of every
   * node's own symbol under the context its ancestors determine.
   */
  lemma ExtractDefinitionsFollowsVisits(root: Node, file: string)
    ensures ExtractDefinitions(root, file) == DefinitionsAlong(Visits(root, []), file)
  {
    WalkFollowsVisits(root, [], file);
  }

  /** Each node contributes at most one definition. */
  lemma {:induction false} AtMostOneDefinitionPerNode(n: Node, ctx: Option<string>, file: string)
    ensures |TraverseDefinitions(n, ctx, file)| <= |PreOrder(n)|
    decreases n, 1
  {
    AtMostOneDefinitionPerNodeAll(n.children, if DeclaredClassName(n).Some? then DeclaredClassName(n) else ctx, file);
  }

  lemma {:induction false} AtMostOneDefinitionPerNodeAll(cs: seq<Node>, ctx: Option<string>, file: string)
    ensures |DefinitionsOfChildren(cs, ctx, file)| <= |PreOrderAll(cs)|
    decreases cs, 0
  {
    if cs != [] {
      AtMostOneDefinitionPerNode(cs[0], ctx, file);
      AtMostOneDefinitionPerNodeAll(cs[1..], ctx, file);
    }
  }

  // ---------------------------------------------------------------------
  // Per-shape rules
  // ---------------------------------------------------------------------

  /**
   * A named method is a `Method` of class C exactly when the context is C,
   * and a plain `Function` exactly when there is no context.
   */
  lemma MethodKindFollowsContext(n: Node, ctx: Option<string>, file: string)
    requires n.kind == MethodKind && HasName(n)
    ensures |OwnDefinition(n, ctx, file)| == 1
    ensures forall c :: OwnDefinition(n, ctx, file)[0].kind == Method(c) <==> ctx == Some(c)
    ensures OwnDefinition(n, ctx, file)[0].kind == Function <==> ctx.None?
  {
  }

  /**
   * A variable binding defines a function, named and located by its binding
   * identifier, exactly when it has both a `name` and a `value` field, the
   * value is a function or arrow-function literal and the name is non-empty.
   */
  lemma BindingDefinesFunction(n: Node, ctx: Option<string>, file: string)
    requires n.kind == BindingKind
    ensures OwnDefinition(n, ctx, file) != [] <==>
      HasName(n) && "value" in n.fields && n.fields["value"].kind in FunctionValueKinds
    ensures OwnDefinition(n, ctx, file) != [] ==>
      OwnDefinition(n, ctx, file) == [Symbol(n.fields["name"].text, Function, LocationOf(n.fields["name"], file))]
  {
  }

  /** A bare arrow function defines nothing; a function node defines exactly when it is named, and then a `Function`. */
  lemma LiteralsDefineOnlyByName(n: Node, ctx: Option<string>, file: string)
    ensures n.kind == ArrowKind ==> OwnDefinition(n, ctx, file) == []
    ensures n.kind in FunctionKinds ==>
      (OwnDefinition(n, ctx, file) != [] <==> HasName(n))
    ensures n.kind in FunctionKinds && OwnDefinition(n, ctx, file) != [] ==>
      OwnDefinition(n, ctx, file)[0].kind == Function
  {
  }

  /** A class node defines exactly when it is named, and then a `Class` at its name, whatever the context. */
  lemma ClassDefinesClass(n: Node, ctx: Option<string>, file: string)
    requires n.kind in ClassKinds
    ensures OwnDefinition(n, ctx, file) != [] <==> HasName(n)
    ensures OwnDefinition(n, ctx, file) != [] ==>
      OwnDefinition(n, ctx, file) == [Symbol(n.fields["name"].text, Class, LocationOf(n.fields["name"], file))]
  {
  }

  // ---------------------------------------------------------------------
  // Context only decides method kinds
  // ---------------------------------------------------------------------

  /** A symbol with any method kind turned into `Function`. */
  function WithoutClass(s: Symbol): Symbol
  {
    if s.kind.Method? then s.(kind := Function) else s
  }

  function AllWithoutClass(ss: seq<Symbol>): (r: seq<Symbol>)
    ensures |r| == |ss|
  {
    if ss == [] then [] else [WithoutClass(ss[0])] + AllWithoutClass(ss[1..])
  }

  lemma {:induction false} AllWithoutClassAppend(ss: seq<Symbol>, ts: seq<Symbol>)
    ensures AllWithoutClass(ss + ts) == AllWithoutClass(ss) + AllWithoutClass(ts)
  {
    if ss == [] {
      assert ss + ts == ts;
    } else {
      assert (ss + ts)[1..] == ss[1..] + ts;
      AllWithoutClassAppend(ss[1..], ts);
    }
  }

  /**
   * The incoming context changes nothing but whether a method that is not
   * below a named class inside the subtree, at whatever depth, is reported
   * as `Method` or `Function`: names, locations, order and
   * every other kind are the same under any two contexts.
   */
  lemma {:induction false} ContextOnlyDecidesMethodKinds(n: Node, ctx1: Option<string>, ctx2: Option<string>, file: string)
    ensures |TraverseDefinitions(n, ctx1, file)| == |TraverseDefinitions(n, ctx2, file)|
    ensures AllWithoutClass(TraverseDefinitions(n, ctx1, file)) == AllWithoutClass(TraverseDefinitions(n, ctx2, file))
    decreases n, 1
  {
    var own1, own2 := OwnDefinition(n, ctx1, file), OwnDefinition(n, ctx2, file);
    assert AllWithoutClass(own1) == AllWithoutClass(own2);
    match DeclaredClassName(n)
    case Some(className) =>
      AllWithoutClassAppend(own1, DefinitionsOfChildren(n.children, Some(className), file));
      AllWithoutClassAppend(own2, DefinitionsOfChildren(n.children, Some(className), file));
    case None =>
      ContextOnlyDecidesMethodKindsAll(n.children, ctx1, ctx2, file);
      AllWithoutClassAppend(own1, DefinitionsOfChildren(n.children, ctx1, file));
      AllWithoutClassAppend(own2, DefinitionsOfChildren(n.children, ctx2, file));
  }

  lemma {:induction false} ContextOnlyDecidesMethodKindsAll(cs: seq<Node>, ctx1: Option<string>, ctx2: Option<string>, file: string)
    ensures |DefinitionsOfChildren(cs, ctx1, file)| == |DefinitionsOfChildren(cs, ctx2, file)|
    ensures AllWithoutClass(DefinitionsOfChildren(cs, ctx1, file)) == AllWithoutClass(DefinitionsOfChildren(cs, ctx2, file))
    decreases cs, 0
  {
    if cs != [] {
      ContextOnlyDecidesMethodKinds(cs[0], ctx1, ctx2, file);
      ContextOnlyDecidesMethodKindsAll(cs[1..], ctx1, ctx2, file);
      AllWithoutClassAppend(TraverseDefinitions(cs[0], ctx1, file), DefinitionsOfChildren(cs[1..], ctx1, file));
      AllWithoutClassAppend(TraverseDefinitions(cs[0], ctx2, file), DefinitionsOfChildren(cs[1..], ctx2, file));
    }
  }

  // ---------------------------------------------------------------------
  // A class holding only methods
  // ---------------------------------------------------------------------

  /**
   * Among `ns`, every method has a non-empty name and every other node
   * defines nothing on its own: the `class` keyword token, a binding whose
   * value is not a function, an unnamed declaration.
   */
  predicate OnlyNamedMethods(ns: seq<Node>)
  {
    forall m :: m in ns ==>
      (m.kind == MethodKind ==> HasName(m)) && (m.kind != MethodKind ==> OwnDefinition(m, None, "") == [])
  }

  lemma OnlyNamedMethodsAppend(ns: seq<Node>, ms: seq<Node>)
    requires OnlyNamedMethods(ns) && OnlyNamedMethods(ms)
    ensures OnlyNamedMethods(ns + ms)
  {
  }

  /** Whether a node other than a method defines anything depends neither on the context nor on the file. */
  lemma SilenceIgnoresContext(m: Node, ctx: Option<string>, file: string)
    requires m.kind != MethodKind
    ensures OwnDefinition(m, ctx, file) == [] <==> OwnDefinition(m, None, "") == []
  {
  }

  /** How many method nodes `ns` holds. */
  function MethodCount(ns: seq<Node>): nat
  {
    if ns == [] then 0 else (if ns[0].kind == MethodKind then 1 else 0) + MethodCount(ns[1..])
  }

  lemma {:induction false} MethodCountAppend(ns: seq<Node>, ms: seq<Node>)
    ensures MethodCount(ns + ms) == MethodCount(ns) + MethodCount(ms)
  {
    if ns == [] {
      assert ns + ms == ms;
    } else {
      assert (ns + ms)[1..] == ns[1..] + ms;
      MethodCountAppend(ns[1..], ms);
    }
  }

  /**
   * Under class context C, a subtree whose methods are all named and whose
   * other nodes define nothing on their own yields one `Method{C}` per method.
   */
  lemma {:induction false} MethodsUnderClass(n: Node, className: string, file: string)
    requires OnlyNamedMethods(PreOrder(n))
    ensures |TraverseDefinitions(n, Some(className), file)| == MethodCount(PreOrder(n))
    ensures forall s :: s in TraverseDefinitions(n, Some(className), file) ==> s.kind == Method(className)
    decreases n, 1
  {
    assert n in PreOrder(n);
    if n.kind != MethodKind {
      SilenceIgnoresContext(n, Some(className), file);
    }
    MethodsUnderClassAll(n.children, className, file);
    MethodCountAppend([n], PreOrderAll(n.children));
  }

  lemma {:induction false} MethodsUnderClassAll(cs: seq<Node>, className: string, file: string)
    requires OnlyNamedMethods(PreOrderAll(cs))
    ensures |DefinitionsOfChildren(cs, Some(className), file)| == MethodCount(PreOrderAll(cs))
    ensures forall s :: s in DefinitionsOfChildren(cs, Some(className), file) ==> s.kind == Method(className)
    decreases cs, 0
  {
    if cs != [] {
      MethodsUnderClass(cs[0], className, file);
      MethodsUnderClassAll(cs[1..], className, file);
      MethodCountAppend(PreOrder(cs[0]), PreOrderAll(cs[1..]));
    }
  }

  /**
   * A named class whose body declares nothing but N named methods yields
   * exactly N + 1 definitions: the class, at its name, followed by N
   * methods of that class. Its body is walked once.
   */
  lemma ClassOfMethods(n: Node, ctx: Option<string>, file: string)
    requires n.kind in ClassKinds && HasName(n)
    requires OnlyNamedMethods(PreOrderAll(n.children))
    ensures |TraverseDefinitions(n, ctx, file)| == 1 + MethodCount(PreOrderAll(n.children))
    ensures TraverseDefinitions(n, ctx, file)[0] ==
      Symbol(n.fields["name"].text, Class, LocationOf(n.fields["name"], file))
    ensures forall i :: 1 <= i < |TraverseDefinitions(n, ctx, file)| ==>
      TraverseDefinitions(n, ctx, file)[i].kind == Method(n.fields["name"].text)
  {
    var className := n.fields["name"].text;
    var body := DefinitionsOfChildren(n.children, Some(className), file);
    MethodsUnderClassAll(n.children, className, file);
    assert TraverseDefinitions(n, ctx, file) == OwnDefinition(n, ctx, file) + body;
    forall i | 1 <= i < |TraverseDefinitions(n, ctx, file)|
      ensures TraverseDefinitions(n, ctx, file)[i].kind == Method(className)
    {
      assert TraverseDefinitions(n, ctx, file)[i] == body[i - 1];
      assert body[i - 1] in body;
    }
  }
}
