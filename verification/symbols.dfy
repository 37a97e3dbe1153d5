/**
 * The values the extraction engine produces: locations, symbol kinds,
 * symbols and the per-file result record.
 */
module Symbols {

  /** A position in a file: `line` is 1-based, `column` is 0-based. */
  datatype Location = Location(file: string, line: nat, column: nat)

  /** What a symbol denotes; a method carries a copy of its enclosing class's name. */
  datatype SymbolKind = Function | Method(className: string) | Class

  datatype Symbol = Symbol(name: string, kind: SymbolKind, location: Location)

  /** The result of parsing one file: definitions and usages, each in discovery order. */
  datatype ParsedFile = ParsedFile(path: string, definitions: seq<Symbol>, usages: seq<Symbol>)

  /** Every symbol has a non-empty name and is located in `file`. */
  predicate WellFormed(ss: seq<Symbol>, file: string)
  {
    forall s :: s in ss ==> s.name != "" && s.location.file == file
  }
}
