/** The syntax tree the parser builds: a program is an ordered sequence of statements. */
module Ast {
  import Tokens

  /** A `let` statement: the token of the identifier it binds. */
  datatype LetStatement = LetStatement(identifier: Tokens.Token)

  /** A `return` statement: the `return` keyword token itself. */
  datatype ReturnStatement = ReturnStatement(identifier: Tokens.Token)

  /** A statement. `Identifier` is the placeholder the parser emits for every statement it
      does not recognise; it always carries the name "Nothing". Equality is structural. */
  datatype Statement =
    | Let(binding: LetStatement)
    | Return(ret: ReturnStatement)
    | Identifier(name: string)

  /** The statements of a program, in source order. */
  datatype Program = Program(statements: seq<Statement>)

  /** A program with no statements yet. */
  function NewProgram(): (p: Program)
    ensures |p.statements| == 0
  {
    Program([])
  }
}
