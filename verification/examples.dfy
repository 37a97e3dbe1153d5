/**
 * The parser's own test scenarios, stated over hand-built syntax trees of
 * the shape the TypeScript grammar gives those sources. Subtrees that hold
 * no declaration, call or instantiation (parameter lists, literals,
 * `return` statements, the statement wrapper around a call) are abbreviated
 * to single nodes. Each tree is assembled from small named parts, and each
 * part comes with a lemma saying what it contributes.
 */
module Examples {
  import opened Wrappers
  import opened Symbols
  import opened Syntax
  import opened TypeScriptParser
  import Definitions
  import Usages

  const File: string := "test.ts"

  // ---------------------------------------------------------------------
  // Tree builders
  // ---------------------------------------------------------------------

  /** A node without fields or children. */
  function Leaf(kind: string, text: string, row: nat, column: nat): Node
  {
    Node(kind, map[], [], row, column, text)
  }

  /** `receiver.property` as a callee, with `receiver` starting at (row, column). */
  function Member(receiver: string, property: string, row: nat, column: nat): Node
  {
    var obj := Leaf("identifier", receiver, row, column);
    var prop := Leaf("property_identifier", property, row, column + |receiver| + 1);
    Node("member_expression", map["object" := obj, "property" := prop],
      [obj, Leaf(".", ".", row, column + |receiver|), prop], row, column, receiver + "." + property)
  }

  /** The argument list of a call whose callee is `callee`. */
  function Arguments(callee: Node, arguments: seq<Node>): Node
  {
    Node("arguments", map[], arguments, callee.row, callee.column + |callee.text|, "(...)")
  }

  /** A call of `callee` with the given argument nodes. */
  function Call(callee: Node, arguments: seq<Node>): Node
  {
    Node("call_expression", map["function" := callee, "arguments" := Arguments(callee, arguments)],
      [callee, Arguments(callee, arguments)], callee.row, callee.column, callee.text + "(...)")
  }

  function Block(statements: seq<Node>, row: nat, column: nat): Node
  {
    Node("statement_block", map[], statements, row, column, "{...}")
  }

  /** `function name() { body }` at (row, 0). */
  function FunctionDeclaration(name: string, row: nat, body: seq<Node>): Node
  {
    var nameNode := Leaf("identifier", name, row, 9);
    var params := Leaf("formal_parameters", "()", row, 9 + |name|);
    var block := Block(body, row, 12 + |name|);
    Node("function_declaration", map["name" := nameNode, "parameters" := params, "body" := block],
      [Leaf("function", "function", row, 0), nameNode, params, block], row, 0, "function " + name + "() {...}")
  }

  function Program(statements: seq<Node>): Node
  {
    Node("program", map[], statements, 0, 0, "...")
  }

  // ---------------------------------------------------------------------
  // What the builders contribute, one tree level at a time
  // ---------------------------------------------------------------------

  lemma {:induction false} SilentChildren(cs: seq<Node>, ctx: Option<string>)
    requires forall c :: c in cs ==> Definitions.TraverseDefinitions(c, ctx, File) == []
    ensures Definitions.DefinitionsOfChildren(cs, ctx, File) == []
  {
    if cs != [] {
      SilentChildren(cs[1..], ctx);
    }
  }

  /** A node without a `name` field, over children that define nothing, defines nothing. */
  lemma SilentNode(n: Node, ctx: Option<string>)
    requires "name" !in n.fields
    requires forall c :: c in n.children ==> Definitions.TraverseDefinitions(c, ctx, File) == []
    ensures Definitions.TraverseDefinitions(n, ctx, File) == []
  {
    SilentChildren(n.children, ctx);
  }

  lemma MemberDefinesNothing(receiver: string, property: string, row: nat, column: nat, ctx: Option<string>)
    ensures Definitions.TraverseDefinitions(Member(receiver, property, row, column), ctx, File) == []
  {
    var m := Member(receiver, property, row, column);
    SilentNode(m.children[0], ctx);
    SilentNode(m.children[1], ctx);
    SilentNode(m.children[2], ctx);
    SilentNode(m, ctx);
  }

  lemma CallDefinesNothing(callee: Node, arguments: seq<Node>, ctx: Option<string>)
    requires Definitions.TraverseDefinitions(callee, ctx, File) == []
    requires forall c :: c in arguments ==> Definitions.TraverseDefinitions(c, ctx, File) == []
    ensures Definitions.TraverseDefinitions(Call(callee, arguments), ctx, File) == []
  {
    SilentNode(Arguments(callee, arguments), ctx);
    SilentNode(Call(callee, arguments), ctx);
  }

  lemma FunctionDeclarationDefines(name: string, row: nat, body: seq<Node>, ctx: Option<string>)
    requires name != ""
    requires forall c :: c in body ==> Definitions.TraverseDefinitions(c, ctx, File) == []
    ensures Definitions.TraverseDefinitions(FunctionDeclaration(name, row, body), ctx, File) ==
      [Symbol(name, Function, Location(File, row + 1, 9))]
  {
    var f := FunctionDeclaration(name, row, body);
    assert Definitions.DefinitionsOfChildren(f.children, ctx, File) == [] by {
      SilentNode(f.children[0], ctx);
      SilentNode(f.children[1], ctx);
      SilentNode(f.children[2], ctx);
      SilentNode(f.children[3], ctx);
      SilentChildren(f.children, ctx);
    }
    assert Definitions.OwnDefinition(f, ctx, File) == [Symbol(name, Function, Location(File, row + 1, 9))] by {
      assert f.kind in Definitions.FunctionKinds;
      assert Field(f, "name") == Some(f.children[1]);
    }
    assert Definitions.DeclaredClassName(f) == None by {
      assert f.kind !in Definitions.ClassKinds;
    }
  }

  lemma ProgramDefinitions(statements: seq<Node>, ctx: Option<string>)
    ensures Definitions.TraverseDefinitions(Program(statements), ctx, File) ==
      Definitions.DefinitionsOfChildren(statements, ctx, File)
  {
  }

  lemma DefinitionsOfOne(a: Node, ctx: Option<string>)
    ensures Definitions.DefinitionsOfChildren([a], ctx, File) == Definitions.TraverseDefinitions(a, ctx, File)
  {
    assert [a][1..] == [];
    assert Definitions.DefinitionsOfChildren([a], ctx, File) == Definitions.TraverseDefinitions(a, ctx, File) + [];
  }

  lemma DefinitionsOfTwo(a: Node, b: Node, ctx: Option<string>)
    ensures Definitions.DefinitionsOfChildren([a, b], ctx, File) ==
      Definitions.TraverseDefinitions(a, ctx, File) + Definitions.TraverseDefinitions(b, ctx, File)
  {
    assert [a, b][1..] == [b];
    DefinitionsOfOne(b, ctx);
  }

  lemma DefinitionsOfThree(a: Node, b: Node, c: Node, ctx: Option<string>)
    ensures Definitions.DefinitionsOfChildren([a, b, c], ctx, File) ==
      Definitions.TraverseDefinitions(a, ctx, File) + Definitions.DefinitionsOfChildren([b, c], ctx, File)
  {
    assert [a, b, c][1..] == [b, c];
  }

  lemma DefinitionsOfFour(a: Node, b: Node, c: Node, d: Node, ctx: Option<string>)
    ensures Definitions.DefinitionsOfChildren([a, b, c, d], ctx, File) ==
      Definitions.TraverseDefinitions(a, ctx, File) + Definitions.DefinitionsOfChildren([b, c, d], ctx, File)
  {
    assert [a, b, c, d][1..] == [b, c, d];
  }

  lemma UsagesOfTwo(a: Node, b: Node)
    ensures Usages.UsagesOfChildren([a, b], File) == Usages.TraverseUsages(a, File) + Usages.TraverseUsages(b, File)
  {
    assert [a, b][1..] == [b];
    assert [b][1..] == [];
    assert Usages.UsagesOfChildren([b], File) == Usages.TraverseUsages(b, File) + [];
  }

  lemma {:induction false} QuietChildren(cs: seq<Node>)
    requires forall c :: c in cs ==> Usages.TraverseUsages(c, File) == []
    ensures Usages.UsagesOfChildren(cs, File) == []
  {
    if cs != [] {
      QuietChildren(cs[1..]);
    }
  }

  /** A node that is neither a call nor an instantiation, over children that record nothing, records nothing. */
  lemma QuietNode(n: Node)
    requires n.kind != Usages.CallKind && n.kind != Usages.NewKind
    requires forall c :: c in n.children ==> Usages.TraverseUsages(c, File) == []
    ensures Usages.TraverseUsages(n, File) == []
  {
    QuietChildren(n.children);
  }

  lemma MemberRecordsNothing(receiver: string, property: string, row: nat, column: nat)
    ensures Usages.TraverseUsages(Member(receiver, property, row, column), File) == []
  {
    var m := Member(receiver, property, row, column);
    QuietNode(m.children[0]);
    QuietNode(m.children[1]);
    QuietNode(m.children[2]);
    QuietNode(m);
  }

  lemma CallRecords(callee: Node, arguments: seq<Node>)
    ensures Usages.TraverseUsages(Call(callee, arguments), File) ==
      Emit(Usages.CalleeName(callee), callee, Function, File) +
      Usages.TraverseUsages(callee, File) + Usages.UsagesOfChildren(arguments, File)
  {
    var c := Call(callee, arguments);
    var args := Arguments(callee, arguments);
    assert Usages.OwnUsage(c, File) == Emit(Usages.CalleeName(callee), callee, Function, File) by {
      assert Field(c, "function") == Some(callee);
    }
    assert Usages.TraverseUsages(args, File) == Usages.UsagesOfChildren(arguments, File) by {
      assert Usages.OwnUsage(args, File) == [];
    }
    assert Usages.UsagesOfChildren(c.children, File) ==
      Usages.TraverseUsages(callee, File) + Usages.UsagesOfChildren(arguments, File) by {
      UsagesOfTwo(callee, args);
      assert c.children == [callee, args];
    }
  }

  lemma FunctionDeclarationRecords(name: string, row: nat, body: seq<Node>)
    ensures Usages.TraverseUsages(FunctionDeclaration(name, row, body), File) == Usages.UsagesOfChildren(body, File)
  {
    var f := FunctionDeclaration(name, row, body);
    assert Usages.UsagesOfChildren(f.children[3..], File) == Usages.UsagesOfChildren(body, File) by {
      assert f.children[3..] == [f.children[3]];
      assert Usages.OwnUsage(f.children[3], File) == [];
    }
    assert Usages.UsagesOfChildren(f.children[2..], File) == Usages.UsagesOfChildren(body, File) by {
      QuietNode(f.children[2]);
      assert f.children[2..][1..] == f.children[3..];
    }
    assert Usages.UsagesOfChildren(f.children[1..], File) == Usages.UsagesOfChildren(body, File) by {
      QuietNode(f.children[1]);
      assert f.children[1..][1..] == f.children[2..];
    }
    assert Usages.UsagesOfChildren(f.children, File) == Usages.UsagesOfChildren(body, File) by {
      QuietNode(f.children[0]);
    }
    assert Usages.OwnUsage(f, File) == [];
  }

  lemma ProgramUsages(statements: seq<Node>)
    ensures Usages.TraverseUsages(Program(statements), File) == Usages.UsagesOfChildren(statements, File)
  {
  }

  // ---------------------------------------------------------------------
  // function hello() { console.log("Hello, world!"); }
  // ---------------------------------------------------------------------

  function ConsoleLog(row: nat): Node
  {
    Call(Member("console", "log", row, 4), [])
  }

  lemma ConsoleLogDefinesNothing(row: nat, ctx: Option<string>)
    ensures Definitions.TraverseDefinitions(ConsoleLog(row), ctx, File) == []
  {
    MemberDefinesNothing("console", "log", row, 4, ctx);
    CallDefinesNothing(Member("console", "log", row, 4), [], ctx);
  }

  /** The source of the first test, whose declaration is on line 2. */
  function HelloTree(): Node
  {
    Program([FunctionDeclaration("hello", 1, [ConsoleLog(2)])])
  }

  /** A top-level function declaration yields one definition, located at its name. */
  lemma SimpleFunction()
    ensures Parse(Some(HelloTree()), File).Success?
    ensures Parse(Some(HelloTree()), File).value.definitions == [Symbol("hello", Function, Location(File, 2, 9))]
  {
    assert Definitions.TraverseDefinitions(FunctionDeclaration("hello", 1, [ConsoleLog(2)]), None, File) ==
      [Symbol("hello", Function, Location(File, 2, 9))] by {
      ConsoleLogDefinesNothing(2, None);
      FunctionDeclarationDefines("hello", 1, [ConsoleLog(2)], None);
    }
    ProgramDefinitions([FunctionDeclaration("hello", 1, [ConsoleLog(2)])], None);
  }

  // ---------------------------------------------------------------------
  // const greet = () => { console.log("Hello!"); };
  // ---------------------------------------------------------------------

  function GreetArrow(): Node
  {
    var body := Block([ConsoleLog(2)], 1, 20);
    Node("arrow_function", map["body" := body],
      [Leaf("formal_parameters", "()", 1, 14), Leaf("=>", "=>", 1, 17), body], 1, 14, "() => {...}")
  }

  function GreetDeclarator(): Node
  {
    var nameNode := Leaf("identifier", "greet", 1, 6);
    Node("variable_declarator", map["name" := nameNode, "value" := GreetArrow()],
      [nameNode, Leaf("=", "=", 1, 12), GreetArrow()], 1, 6, "greet = () => {...}")
  }

  function GreetStatement(): Node
  {
    Node("lexical_declaration", map[],
      [Leaf("const", "const", 1, 0), GreetDeclarator(), Leaf(";", ";", 3, 1)], 1, 0, "const greet = () => {...};")
  }

  /** The source of the second test, whose binding is on line 2. */
  function GreetTree(): Node
  {
    Program([GreetStatement()])
  }

  /** The arrow function itself, and the call in its body, define nothing. */
  lemma GreetArrowDefinesNothing()
    ensures Definitions.TraverseDefinitions(GreetArrow(), None, File) == []
  {
    var arrow := GreetArrow();
    ConsoleLogDefinesNothing(2, None);
    SilentNode(arrow.children[2], None);
    SilentNode(arrow.children[0], None);
    SilentNode(arrow.children[1], None);
    SilentNode(arrow, None);
  }

  lemma GreetDeclaratorChildrenSilent()
    ensures Definitions.DefinitionsOfChildren(GreetDeclarator().children, None, File) == []
  {
    var declarator := GreetDeclarator();
    GreetArrowDefinesNothing();
    SilentNode(declarator.children[0], None);
    SilentNode(declarator.children[1], None);
    SilentChildren(declarator.children, None);
  }

  lemma GreetDeclaratorOwn()
    ensures Definitions.OwnDefinition(GreetDeclarator(), None, File) == [Symbol("greet", Function, Location(File, 2, 6))]
  {
    var declarator := GreetDeclarator();
    assert declarator.fields["value"].kind in Definitions.FunctionValueKinds;
    assert Definitions.HasName(declarator);
    Definitions.BindingDefinesFunction(declarator, None, File);
  }

  lemma GreetDeclaratorDefines()
    ensures Definitions.TraverseDefinitions(GreetDeclarator(), None, File) ==
      [Symbol("greet", Function, Location(File, 2, 6))]
  {
    GreetDeclaratorChildrenSilent();
    GreetDeclaratorOwn();
    assert Definitions.DeclaredClassName(GreetDeclarator()) == None;
  }

  /** A variable bound to an arrow function yields exactly one definition, at the binding's name. */
  lemma ArrowFunction()
    ensures Parse(Some(GreetTree()), File).Success?
    ensures Parse(Some(GreetTree()), File).value.definitions == [Symbol("greet", Function, Location(File, 2, 6))]
  {
    var statement := GreetStatement();
    assert Definitions.TraverseDefinitions(statement, None, File) == [Symbol("greet", Function, Location(File, 2, 6))] by {
      GreetDeclaratorDefines();
      SilentNode(statement.children[0], None);
      SilentNode(statement.children[2], None);
      assert statement.children[1..][1..] == [statement.children[2]];
      assert Definitions.OwnDefinition(statement, None, File) == [];
    }
    ProgramDefinitions([statement], None);
  }

  // ---------------------------------------------------------------------
  // class Calculator { add(a, b) {...} subtract(a, b) {...} }
  // ---------------------------------------------------------------------

  /** A method named `name` at (row, 4) with an abbreviated parameter list and body. */
  function MethodDefinition(name: string, row: nat): Node
  {
    var nameNode := Leaf("property_identifier", name, row, 4);
    Node("method_definition", map["name" := nameNode],
      [nameNode, Leaf("formal_parameters", "(a: number, b: number)", row, 4 + |name|),
       Block([Leaf("return_statement", "return ...;", row + 1, 8)], row, 27 + |name|)], row, 4, name + "(...) {...}")
  }

  /** The body of `class Calculator`, whose header is on row `row`. */
  function CalculatorBody(row: nat): Node
  {
    Node("class_body", map[],
      [Leaf("{", "{", row, 17), MethodDefinition("add", row + 1), MethodDefinition("subtract", row + 5),
       Leaf("}", "}", row + 8, 0)],
      row, 17, "{...}")
  }

  /** The class of the third test, with its header on row `row` (row 1 in the test). */
  function CalculatorClass(row: nat): Node
  {
    var nameNode := Leaf("type_identifier", "Calculator", row, 6);
    Node("class_declaration", map["name" := nameNode, "body" := CalculatorBody(row)],
      [Leaf("class", "class", row, 0), nameNode, CalculatorBody(row)], row, 0, "class Calculator {...}")
  }

  /** Under class context C, a method is a `Method` of C located at its name. */
  lemma MethodDefines(name: string, row: nat, className: string)
    requires name != ""
    ensures Definitions.TraverseDefinitions(MethodDefinition(name, row), Some(className), File) ==
      [Symbol(name, Method(className), Location(File, row + 1, 4))]
  {
    var m := MethodDefinition(name, row);
    assert Definitions.DefinitionsOfChildren(m.children, Some(className), File) == [] by {
      SilentNode(m.children[0], Some(className));
      SilentNode(m.children[1], Some(className));
      SilentNode(m.children[2].children[0], Some(className));
      SilentNode(m.children[2], Some(className));
      SilentChildren(m.children, Some(className));
    }
    assert Definitions.DeclaredClassName(m) == None;
  }

  lemma CalculatorBodyDefines(row: nat)
    ensures Definitions.TraverseDefinitions(CalculatorBody(row), Some("Calculator"), File) ==
      [Symbol("add", Method("Calculator"), Location(File, row + 2, 4)),
       Symbol("subtract", Method("Calculator"), Location(File, row + 6, 4))]
  {
    var ctx := Some("Calculator");
    var open := Leaf("{", "{", row, 17);
    var close := Leaf("}", "}", row + 8, 0);
    var add := MethodDefinition("add", row + 1);
    var subtract := MethodDefinition("subtract", row + 5);
    assert Definitions.DefinitionsOfChildren(CalculatorBody(row).children, ctx, File) ==
      [Symbol("add", Method("Calculator"), Location(File, row + 2, 4)),
       Symbol("subtract", Method("Calculator"), Location(File, row + 6, 4))] by {
      assert CalculatorBody(row).children == [open, add, subtract, close];
      SilentNode(open, ctx);
      SilentNode(close, ctx);
      MethodDefines("add", row + 1, "Calculator");
      MethodDefines("subtract", row + 5, "Calculator");
      DefinitionsOfTwo(subtract, close, ctx);
      DefinitionsOfThree(add, subtract, close, ctx);
      DefinitionsOfFour(open, add, subtract, close, ctx);
    }
    assert Definitions.DeclaredClassName(CalculatorBody(row)) == None;
  }

  lemma CalculatorDefines(row: nat)
    ensures Definitions.TraverseDefinitions(CalculatorClass(row), None, File) ==
      [Symbol("Calculator", Class, Location(File, row + 1, 6)),
       Symbol("add", Method("Calculator"), Location(File, row + 2, 4)),
       Symbol("subtract", Method("Calculator"), Location(File, row + 6, 4))]
  {
    var c := CalculatorClass(row);
    var ctx := Some("Calculator");
    var keyword := Leaf("class", "class", row, 0);
    var nameNode := Leaf("type_identifier", "Calculator", row, 6);
    assert Definitions.DeclaredClassName(c) == ctx;
    assert Definitions.OwnDefinition(c, None, File) == [Symbol("Calculator", Class, Location(File, row + 1, 6))];
    assert Definitions.DefinitionsOfChildren(c.children, ctx, File) ==
      [Symbol("add", Method("Calculator"), Location(File, row + 2, 4)),
       Symbol("subtract", Method("Calculator"), Location(File, row + 6, 4))] by {
      assert c.children == [keyword, nameNode, CalculatorBody(row)];
      CalculatorBodyDefines(row);
      SilentNode(keyword, ctx);
      SilentNode(nameNode, ctx);
      DefinitionsOfTwo(nameNode, CalculatorBody(row), ctx);
      DefinitionsOfThree(keyword, nameNode, CalculatorBody(row), ctx);
    }
  }

  lemma {:induction false} NoMethods(ns: seq<Node>)
    requires forall n :: n in ns ==> n.kind != Definitions.MethodKind
    ensures Definitions.MethodCount(ns) == 0
  {
    if ns != [] {
      assert ns[0] in ns;
      NoMethods(ns[1..]);
    }
  }

  /** The nodes of a method below the method itself, in pre-order. */
  function MethodInterior(name: string, row: nat): seq<Node>
  {
    var m := MethodDefinition(name, row);
    [m.children[0], m.children[1], m.children[2], Leaf("return_statement", "return ...;", row + 1, 8)]
  }

  lemma MethodNodes(name: string, row: nat)
    ensures PreOrder(MethodDefinition(name, row)) == [MethodDefinition(name, row)] + MethodInterior(name, row)
  {
    var m := MethodDefinition(name, row);
    var nameNode := m.children[0];
    var params := m.children[1];
    var block := m.children[2];
    var ret := Leaf("return_statement", "return ...;", row + 1, 8);
    assert PreOrderAll([block]) == [block, ret] by {
      assert block.children == [ret];
      assert PreOrder(ret) == [ret];
      assert PreOrderAll([ret]) == [ret];
      assert PreOrder(block) == [block, ret];
    }
    assert PreOrderAll([params, block]) == [params, block, ret] by {
      assert PreOrder(params) == [params];
      assert [params, block][1..] == [block];
    }
    assert PreOrderAll(m.children) == MethodInterior(name, row) by {
      assert PreOrder(nameNode) == [nameNode];
      assert m.children == [nameNode, params, block];
      assert m.children[1..] == [params, block];
    }
  }

  /** Every node under a method is neither a declaration nor a method, so a method counts once. */
  lemma MethodIsOneNamedMethod(name: string, row: nat)
    requires name != ""
    ensures Definitions.OnlyNamedMethods(PreOrder(MethodDefinition(name, row)))
    ensures Definitions.MethodCount(PreOrder(MethodDefinition(name, row))) == 1
  {
    var m := MethodDefinition(name, row);
    var below := MethodInterior(name, row);
    MethodNodes(name, row);
    assert forall x :: x in below ==> x.kind !in Definitions.DeclarationKinds by {
      assert below == [below[0], below[1], below[2], below[3]];
    }
    assert Definitions.HasName(m);
    NoMethods(below);
    Definitions.MethodCountAppend([m], below);
  }

  lemma CalculatorBodyNodes(row: nat)
    ensures PreOrder(CalculatorBody(row)) ==
      [CalculatorBody(row), Leaf("{", "{", row, 17)] +
      (PreOrder(MethodDefinition("add", row + 1)) + (PreOrder(MethodDefinition("subtract", row + 5)) + [Leaf("}", "}", row + 8, 0)]))
  {
    var body := CalculatorBody(row);
    var open := Leaf("{", "{", row, 17);
    var add := MethodDefinition("add", row + 1);
    var subtract := MethodDefinition("subtract", row + 5);
    var close := Leaf("}", "}", row + 8, 0);
    assert body.children == [open, add, subtract, close];
    assert [close][1..] == [];
    assert PreOrder(close) == [close];
    assert PreOrderAll([close]) == [close];
    assert [subtract, close][1..] == [close];
    assert PreOrderAll([subtract, close]) == PreOrder(subtract) + [close];
    assert [add, subtract, close][1..] == [subtract, close];
    assert PreOrderAll([add, subtract, close]) == PreOrder(add) + (PreOrder(subtract) + [close]);
    assert [open, add, subtract, close][1..] == [add, subtract, close];
    assert PreOrder(open) == [open];
    assert PreOrderAll(body.children) == [open] + PreOrderAll([add, subtract, close]);
    assert PreOrder(body) == [body] + PreOrderAll(body.children);
  }

  /** The body of Calculator holds exactly two methods, both named, and no other named declaration. */
  lemma CalculatorBodyMethods(row: nat)
    ensures Definitions.OnlyNamedMethods(PreOrder(CalculatorBody(row)))
    ensures Definitions.MethodCount(PreOrder(CalculatorBody(row))) == 2
  {
    var add := MethodDefinition("add", row + 1);
    var subtract := MethodDefinition("subtract", row + 5);
    var close := Leaf("}", "}", row + 8, 0);
    var head := [CalculatorBody(row), Leaf("{", "{", row, 17)];
    CalculatorBodyNodes(row);
    MethodIsOneNamedMethod("add", row + 1);
    MethodIsOneNamedMethod("subtract", row + 5);
    Definitions.MethodCountAppend(PreOrder(subtract), [close]);
    Definitions.MethodCountAppend(PreOrder(add), PreOrder(subtract) + [close]);
    Definitions.MethodCountAppend(head, PreOrder(add) + (PreOrder(subtract) + [close]));
    assert Definitions.MethodCount(head) == 0 by {
      assert head[1..][1..] == [];
    }
    assert Definitions.OnlyNamedMethods(head) by {
      assert Definitions.OwnDefinition(head[0], None, "") == [];
      assert Definitions.OwnDefinition(head[1], None, "") == [];
      assert forall x :: x in head ==> x == head[0] || x == head[1];
    }
    assert Definitions.OnlyNamedMethods([close]) by {
      assert Definitions.OwnDefinition(close, None, "") == [];
    }
    Definitions.OnlyNamedMethodsAppend(PreOrder(subtract), [close]);
    Definitions.OnlyNamedMethodsAppend(PreOrder(add), PreOrder(subtract) + [close]);
    Definitions.OnlyNamedMethodsAppend(head, PreOrder(add) + (PreOrder(subtract) + [close]));
  }

  /** The class keyword and the class name, which precede the body of Calculator. */
  function CalculatorHeader(row: nat): seq<Node>
  {
    [Leaf("class", "class", row, 0), Leaf("type_identifier", "Calculator", row, 6)]
  }

  lemma CalculatorClassNodes(row: nat)
    ensures PreOrderAll(CalculatorClass(row).children) == CalculatorHeader(row) + PreOrder(CalculatorBody(row))
  {
    var c := CalculatorClass(row);
    var body := CalculatorBody(row);
    var keyword := c.children[0];
    var nameNode := c.children[1];
    assert c.children == [keyword, nameNode, body];
    assert PreOrderAll([body]) == PreOrder(body) by {
      assert [body][1..] == [];
    }
    assert PreOrderAll([nameNode, body]) == [nameNode] + PreOrder(body) by {
      assert [nameNode, body][1..] == [body];
    }
    assert [keyword, nameNode, body][1..] == [nameNode, body];
  }

  /** The class keyword token and the name node define nothing and are not methods. */
  lemma CalculatorHeaderSilent(row: nat)
    ensures Definitions.OnlyNamedMethods(CalculatorHeader(row))
    ensures Definitions.MethodCount(CalculatorHeader(row)) == 0
  {
    var h := CalculatorHeader(row);
    assert Definitions.OwnDefinition(h[0], None, "") == [];
    assert Definitions.OwnDefinition(h[1], None, "") == [];
    assert forall x :: x in h ==> x == h[0] || x == h[1];
    NoMethods(h);
  }

  /** The Calculator class satisfies the hypotheses of the general class rule, with two methods in its body. */
  lemma CalculatorIsClassOfMethods(row: nat)
    ensures Definitions.OnlyNamedMethods(PreOrderAll(CalculatorClass(row).children))
    ensures Definitions.MethodCount(PreOrderAll(CalculatorClass(row).children)) == 2
  {
    CalculatorClassNodes(row);
    CalculatorHeaderSilent(row);
    CalculatorBodyMethods(row);
    Definitions.MethodCountAppend(CalculatorHeader(row), PreOrder(CalculatorBody(row)));
    Definitions.OnlyNamedMethodsAppend(CalculatorHeader(row), PreOrder(CalculatorBody(row)));
  }

  /**
   * The general class rule applied to Calculator: the class comes first,
   * followed by exactly two methods of that class.
   */
  lemma CalculatorFollowsClassRule(row: nat)
    ensures |Definitions.TraverseDefinitions(CalculatorClass(row), None, File)| == 3
    ensures Definitions.TraverseDefinitions(CalculatorClass(row), None, File)[0] ==
      Symbol("Calculator", Class, Location(File, row + 1, 6))
    ensures forall i :: 1 <= i < 3 ==>
      Definitions.TraverseDefinitions(CalculatorClass(row), None, File)[i].kind == Method("Calculator")
  {
    CalculatorIsClassOfMethods(row);
    Definitions.ClassOfMethods(CalculatorClass(row), None, File);
  }

  /** A class with two methods yields the class and two methods of that class: three definitions. */
  lemma ClassWithMethods()
    ensures Parse(Some(Program([CalculatorClass(1)])), File).Success?
    ensures Parse(Some(Program([CalculatorClass(1)])), File).value.definitions ==
      [Symbol("Calculator", Class, Location(File, 2, 6)),
       Symbol("add", Method("Calculator"), Location(File, 3, 4)),
       Symbol("subtract", Method("Calculator"), Location(File, 7, 4))]
  {
    CalculatorDefines(1);
    ProgramDefinitions([CalculatorClass(1)], None);
    DefinitionsOfOne(CalculatorClass(1), None);
  }

  // ---------------------------------------------------------------------
  // function foo() { return 42; }  function bar() { foo(); console.log("test"); }
  // ---------------------------------------------------------------------

  function FooFunction(row: nat): Node
  {
    FunctionDeclaration("foo", row, [Leaf("return_statement", "return 42;", row + 1, 4)])
  }

  function FooCall(row: nat): Node
  {
    Call(Leaf("identifier", "foo", row, 4), [])
  }

  function LogTest(row: nat): Node
  {
    Call(Member("console", "log", row, 4), [Leaf("string", "\"test\"", row, 16)])
  }

  function BarFunction(row: nat): Node
  {
    FunctionDeclaration("bar", row, [FooCall(row + 1), LogTest(row + 2)])
  }

  /** The source of the fourth test, with `foo` declared on row `row` (row 1 in the test). */
  function FooBarTree(row: nat): Node
  {
    Program([FooFunction(row), BarFunction(row + 4)])
  }

  lemma FooDefines(row: nat)
    ensures Definitions.TraverseDefinitions(FooFunction(row), None, File) == [Symbol("foo", Function, Location(File, row + 1, 9))]
  {
    SilentNode(Leaf("return_statement", "return 42;", row + 1, 4), None);
    FunctionDeclarationDefines("foo", row, [Leaf("return_statement", "return 42;", row + 1, 4)], None);
  }

  lemma BarDefines(row: nat)
    ensures Definitions.TraverseDefinitions(BarFunction(row), None, File) == [Symbol("bar", Function, Location(File, row + 1, 9))]
  {
    assert Definitions.TraverseDefinitions(FooCall(row + 1), None, File) == [] by {
      SilentNode(FooCall(row + 1).children[0], None);
      CallDefinesNothing(FooCall(row + 1).children[0], [], None);
    }
    assert Definitions.TraverseDefinitions(LogTest(row + 2), None, File) == [] by {
      MemberDefinesNothing("console", "log", row + 2, 4, None);
      SilentNode(Leaf("string", "\"test\"", row + 2, 16), None);
      CallDefinesNothing(Member("console", "log", row + 2, 4), [Leaf("string", "\"test\"", row + 2, 16)], None);
    }
    FunctionDeclarationDefines("bar", row, [FooCall(row + 1), LogTest(row + 2)], None);
  }

  lemma FooRecordsNothing(row: nat)
    ensures Usages.TraverseUsages(FooFunction(row), File) == []
  {
    var ret := Leaf("return_statement", "return 42;", row + 1, 4);
    FunctionDeclarationRecords("foo", row, [ret]);
    QuietNode(ret);
  }

  lemma BarRecords(row: nat)
    ensures Usages.TraverseUsages(BarFunction(row), File) ==
      [Symbol("foo", Function, Location(File, row + 2, 4)), Symbol("log", Function, Location(File, row + 3, 4))]
  {
    var foo := [Symbol("foo", Function, Location(File, row + 2, 4))];
    var log := [Symbol("log", Function, Location(File, row + 3, 4))];
    assert Usages.TraverseUsages(FooCall(row + 1), File) == foo by {
      QuietNode(FooCall(row + 1).children[0]);
      CallRecords(FooCall(row + 1).children[0], []);
    }
    assert Usages.TraverseUsages(LogTest(row + 2), File) == log by {
      MemberRecordsNothing("console", "log", row + 2, 4);
      QuietNode(Leaf("string", "\"test\"", row + 2, 16));
      QuietChildren([Leaf("string", "\"test\"", row + 2, 16)]);
      CallRecords(Member("console", "log", row + 2, 4), [Leaf("string", "\"test\"", row + 2, 16)]);
    }
    FunctionDeclarationRecords("bar", row, [FooCall(row + 1), LogTest(row + 2)]);
    UsagesOfTwo(FooCall(row + 1), LogTest(row + 2));
  }

  lemma FooBarSymbols(row: nat)
    ensures Definitions.TraverseDefinitions(FooBarTree(row), None, File) ==
      [Symbol("foo", Function, Location(File, row + 1, 9)), Symbol("bar", Function, Location(File, row + 5, 9))]
    ensures Usages.TraverseUsages(FooBarTree(row), File) ==
      [Symbol("foo", Function, Location(File, row + 6, 4)), Symbol("log", Function, Location(File, row + 7, 4))]
  {
    FooDefines(row);
    BarDefines(row + 4);
    FooRecordsNothing(row);
    BarRecords(row + 4);
    ProgramDefinitions([FooFunction(row), BarFunction(row + 4)], None);
    ProgramUsages([FooFunction(row), BarFunction(row + 4)]);
    DefinitionsOfTwo(FooFunction(row), BarFunction(row + 4), None);
    UsagesOfTwo(FooFunction(row), BarFunction(row + 4));
  }

  /**
   * Two sibling functions yield two definitions; the call of `foo` and the
   * member call `console.log` yield two usages, the latter named `log` and
   * located at `console`.
   */
  lemma FunctionCalls()
    ensures Parse(Some(FooBarTree(1)), File).Success?
    ensures Parse(Some(FooBarTree(1)), File).value.definitions ==
      [Symbol("foo", Function, Location(File, 2, 9)), Symbol("bar", Function, Location(File, 6, 9))]
    ensures Parse(Some(FooBarTree(1)), File).value.usages ==
      [Symbol("foo", Function, Location(File, 7, 4)), Symbol("log", Function, Location(File, 8, 4))]
  {
    FooBarSymbols(1);
  }

  // ---------------------------------------------------------------------
  // Usage shapes
  // ---------------------------------------------------------------------

  /** `a(b())`: the outer call is recorded first, then the call in its arguments. */
  lemma NestedCalls()
    ensures Usages.ExtractUsages(Call(Leaf("identifier", "a", 0, 0), [Call(Leaf("identifier", "b", 0, 2), [])]), File) ==
      [Symbol("a", Function, Location(File, 1, 0)), Symbol("b", Function, Location(File, 1, 2))]
  {
    var a := Leaf("identifier", "a", 0, 0);
    var b := Leaf("identifier", "b", 0, 2);
    QuietNode(a);
    QuietNode(b);
    CallRecords(b, []);
    CallRecords(a, [Call(b, [])]);
  }

  /** `obj.method()` records a usage named `method`, located at `obj`. */
  lemma MemberCall()
    ensures Usages.ExtractUsages(Call(Member("obj", "method", 0, 0), []), File) ==
      [Symbol("method", Function, Location(File, 1, 0))]
  {
    MemberRecordsNothing("obj", "method", 0, 0);
    CallRecords(Member("obj", "method", 0, 0), []);
  }

  /** `new Foo()` records a `Class` usage named `Foo`. */
  lemma Instantiation()
    ensures Usages.ExtractUsages(Node("new_expression", map["constructor" := Leaf("identifier", "Foo", 0, 4)],
      [Leaf("new", "new", 0, 0), Leaf("identifier", "Foo", 0, 4), Leaf("arguments", "()", 0, 7)], 0, 0, "new Foo()"), File) ==
      [Symbol("Foo", Class, Location(File, 1, 4))]
  {
    var n := Node("new_expression", map["constructor" := Leaf("identifier", "Foo", 0, 4)],
      [Leaf("new", "new", 0, 0), Leaf("identifier", "Foo", 0, 4), Leaf("arguments", "()", 0, 7)], 0, 0, "new Foo()");
    QuietNode(n.children[0]);
    QuietNode(n.children[1]);
    QuietNode(n.children[2]);
    QuietChildren(n.children);
  }

  /** A call through a bracket access, `handlers[0]()`, resolves to no name and records nothing. */
  lemma UnresolvableCallee()
    ensures Usages.ExtractUsages(Call(Leaf("subscript_expression", "handlers[0]", 0, 0), []), File) == []
  {
    QuietNode(Leaf("subscript_expression", "handlers[0]", 0, 0));
    CallRecords(Leaf("subscript_expression", "handlers[0]", 0, 0), []);
  }
}
