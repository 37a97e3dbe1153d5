# TypeScript symbol extraction, modelled in Dafny

This project models the TypeScript/JavaScript parser of a code-indexing tool.
The parser takes the syntax tree that tree-sitter builds for one source file
and reduces it to a `ParsedFile`. That record holds the file path and two
lists of `Symbol`s:

- **definitions.** Function declarations and function expressions that have
  a name, methods, classes, and variables bound to a function or arrow
  function. Each carries a `SymbolKind` (`Function`, `Method { class_name }`
  or `Class`). Each is located at the node that holds its name: line =
  row + 1, column unchanged.
- **usages.** Calls and `new` expressions. A call records its callee's name
  and is located at the callee. For `receiver.property` callees, the name is
  the property and the location is the receiver. An instantiation records
  the raw text of its constructor expression.

The model has these modules:

- `Wrappers`: `Option` and `Result`.
- `Symbols`: locations, symbol kinds, symbols, the parsed file, and the
  `WellFormed` invariant. That invariant says every symbol has a non-empty
  name and lies in the parsed file.
- `Syntax`: the syntax tree as an inductive `Node` with kind, named fields,
  ordered children, start position and text. It also holds two reference
  enumerations of a tree:
  - `PreOrder`, the depth-first pre-order of the nodes;
  - `Visits`, the same order, with each node paired with its ancestor chain.
- `Definitions`: the definition walk (`traverse_for_definitions`). It is
  proved equal to an independent definition. Each node, visited in
  pre-order, emits what its own shape dictates under the context that its
  innermost named class ancestor determines (`EnclosingClass`).
- `Usages`: the usage walk (`traverse_for_usages`) and callee resolution
  (`extract_call_name`). The walk is proved equal to the concatenation, in
  pre-order, of what each node records.
- `TypeScriptParser`: `parse`. The external tree-sitter parse becomes an
  `Option<Node>` argument: `None` is the parse failure.
- `Examples`: the source's four tests, plus usage shapes, stated over
  hand-built, abbreviated trees of the shape the TypeScript grammar gives
  those sources. Statement wrappers are left out, and parameter lists and
  bodies that declare and call nothing are shortened to single nodes.

## Model

| member | source | states |
|---|---|---|
| Definitions.OwnDefinition | src/parser/typescript.rs:36-140 | A node defines at most one symbol. It does so only if its kind is a declaration kind and it has a non-empty `name` field. The symbol's name is that field's text, its location is that field's start position (line = row + 1), and it lies in the file. A named `function_declaration`/`function` node defines exactly one `Function`. A class node defines something if and only if it is named, and what it defines is a `Class`. |
| Definitions.DeclaredClassName | src/parser/typescript.rs:89-113 | A node introduces class context exactly when it is a `class_declaration`/`class` with a non-empty name, and the context is that name. |
| Definitions.TraverseDefinitions | src/parser/typescript.rs:28-147 | Every definition the walk emits has a non-empty name and lies in the file. Under a valid context, every method's class name is non-empty. |
| Definitions.WalkFollowsVisits | src/parser/typescript.rs:28-147 | The walk from any node equals the pre-order concatenation of what each descendant defines on its own, under the innermost named class among its ancestors. So each node is visited exactly once, and a named class's body is not walked a second time. |
| Definitions.ExtractDefinitions | src/parser/typescript.rs:19-26 | The file's definitions are well formed, and every method names a non-empty class. |
| Definitions.ExtractDefinitionsFollowsVisits | src/parser/typescript.rs:19-26 | The file's definitions are the pre-order concatenation of per-node definitions, starting from the root with no class context. |
| Definitions.AtMostOneDefinitionPerNode | src/parser/typescript.rs:36-147 | A subtree never yields more definitions than it has nodes. |
| Definitions.MethodKindFollowsContext | src/parser/typescript.rs:62-88 | A named method yields exactly one symbol. It is `Method(C)` if and only if the context is class C, and `Function` if and only if there is no context. |
| Definitions.BindingDefinesFunction | src/parser/typescript.rs:115-138 | A `variable_declarator` defines something if and only if it has a non-empty name and a value whose kind is `function` or `arrow_function`. It then defines exactly one `Function` named and located by the binding's name. |
| Definitions.LiteralsDefineOnlyByName | src/parser/typescript.rs:39-61 | A bare `arrow_function` defines nothing. A `function_declaration`/`function` node defines a symbol if and only if it has a non-empty name, and that symbol is a `Function`. |
| Definitions.ClassDefinesClass | src/parser/typescript.rs:89-104 | A `class_declaration`/`class` node defines something if and only if it has a non-empty name. Under any context, it then defines exactly one `Class`, named and located by its name field. |
| Definitions.ContextOnlyDecidesMethodKinds | src/parser/typescript.rs:62-75 | Under any two incoming contexts, the walk yields the same number of definitions with the same names and locations. Only method kinds can differ. |
| Definitions.MethodsUnderClass | src/parser/typescript.rs:62-88 | Consider a subtree walked under class C in which every method is named and every other node defines nothing on its own, for example the `class` keyword token or a `const` binding to a non-function value. The walk yields one `Method(C)` per method node and nothing else. |
| Definitions.ClassOfMethods | src/parser/typescript.rs:89-112 | Consider a named class in whose body every method is named and every other node defines nothing on its own, for example the `class` keyword token or local variables bound to non-function values. It yields 1 + N definitions, N being the number of methods. The first is the `Class` at its name node, and the other N are methods of that class. |
| Syntax.VisitsFollowPreOrder | src/parser/typescript.rs:142-146 | The ancestor-tracking enumeration visits the same nodes as the pre-order, in the same order, and every ancestor chain extends the starting one. |
| Usages.CalleeName | src/parser/typescript.rs:208-221 | An identifier callee gives its text. A member access gives its property's text, or "" when the property is absent. Every other shape gives "". |
| Usages.OwnUsage | src/parser/typescript.rs:161-199 | A node records at most one usage, and only if it is a call or a `new`. A call records a `Function` located at its `function` field; a `new` records a `Class` located at its `constructor` field. The usage is named and lies in the file. |
| Usages.TraverseUsages | src/parser/typescript.rs:158-206 | Every usage the walk records has a non-empty name and lies in the file. |
| Usages.WalkFollowsPreOrder | src/parser/typescript.rs:158-206 | The usage walk equals the concatenation, in pre-order over all nodes, of what each node records on its own. |
| Usages.ExtractUsages | src/parser/typescript.rs:149-156 | The file's usages are well formed. |
| Usages.ExtractUsagesFollowsPreOrder | src/parser/typescript.rs:149-156 | The file's usages are the pre-order concatenation of per-node usages, starting from the root. |
| Usages.AtMostOneUsagePerNode | src/parser/typescript.rs:158-206 | A subtree never yields more usages than it has nodes. |
| Usages.MemberCallUsesProperty | src/parser/typescript.rs:164-176 | A call on `receiver.property` records exactly the property name, located at the start of the whole member expression (the receiver). |
| Usages.CallRecordsResolvedCallee | src/parser/typescript.rs:162-179 | A call records a usage if and only if it has a callee that resolves to a non-empty name, and it records that name. |
| Usages.NewRecordsConstructorText | src/parser/typescript.rs:180-197 | A `new` records a usage if and only if its constructor has non-empty text. The usage is exactly a `Class` named by that raw text and located at the constructor. |
| Usages.UsageThenDescendants | src/parser/typescript.rs:201-205 | A node's own usage comes before everything its descendants record, in pre-order. |
| TypeScriptParser.Parse | src/parser/typescript.rs:225-244 | Parsing fails if and only if no tree is produced. Otherwise the record carries the given path and well-formed definitions and usages for that path. |
| TypeScriptParser.ParseFollowsPreOrder | src/parser/typescript.rs:231-243 | For any tree, parsing succeeds. The definitions are the context-aware pre-order emissions, and the usages are the pre-order recordings. |
| Examples.SimpleFunction | src/parser/typescript.rs:252-265 | `function hello() { console.log(...) }` yields exactly one definition, `hello`, at line 2, column 9. |
| Examples.ArrowFunction | src/parser/typescript.rs:268-281 | `const greet = () => {...}` yields exactly one definition, the `Function` `greet` at its binding name. The arrow function adds nothing. |
| Examples.ClassWithMethods | src/parser/typescript.rs:284-303 | `class Calculator` with `add` and `subtract` yields exactly three definitions: the class, then two `Method("Calculator")`s. |
| Examples.CalculatorFollowsClassRule | src/parser/typescript.rs:284-303 | The general class rule, applied to the `Calculator` tree at any starting row, gives three definitions: the class, then two methods of `Calculator`. |
| Examples.FunctionCalls | src/parser/typescript.rs:306-324 | `foo` and `bar` give two definitions. The calls `foo()` and `console.log(...)` give the usages `foo` and `log`, the latter located at `console`. |
| Examples.NestedCalls | src/parser/typescript.rs:201-205 | In `a(b())`, the outer call `a` is recorded before the inner call `b`. |
| Examples.MemberCall | src/parser/typescript.rs:211-217 | `obj.method()` records `method`, located at `obj`. |
| Examples.Instantiation | src/parser/typescript.rs:180-197 | `new Foo()` records the `Class` usage `Foo` at the constructor. |
| Examples.UnresolvableCallee | src/parser/typescript.rs:219 | A call whose callee is neither an identifier nor a member access records nothing. |

Keyword tokens note: tree-sitter's keyword tokens `function` and `class`
have the same kind strings as the declaration branches. They have no `name`
field, so they define nothing. The hand-built example trees include them.
The fourth test checks only that there is at least one usage; `Examples.FunctionCalls`
states the exact list.

## Left out

- Parser construction (`TypeScriptParser::new`, lines 13-17, and the grammar setup in `parse`, lines 228-229): this is configuration of the external tree-sitter library. The model has no grammar, so no language-setting error can occur. The unused `parser` field is also left out.
- Lexing and parsing TypeScript text: tree-sitter is foreign code. Its result enters as the `Option<Node>` argument of `Parse`, and hand-built trees stand in for its output.
- `utf8_text` failure: node text is pre-decoded into `Node.text`. Text that fails to decode becomes "" in the source (`unwrap_or("")`), so it falls into the same empty-name case the model handles.
- `to_string_lossy` on the path: the path is modelled as an already-decoded string.
- The `anyhow` error type and its message: the model has a single `ParseFailure`.
- Definitions.TraverseDefinitions: does not model `usize` overflow of `row + 1`, because rows are unbounded `nat`s and a file with 2^64 rows cannot exist.
- Idempotence of parsing is not stated: `Parse` is a function of its inputs, so it holds trivially.
- Field nodes: in tree-sitter, a node's fields are among its children. The model keeps fields and children separate, and the hand-built trees list field nodes among the children as tree-sitter does.
