/** The parser of the interpreter: a current token and a peek token over a lexer it owns. Every
    method is proved to do what the functions of ParserSpec say about the lexer's token stream. */
module Parsing {
  import opened Outcomes
  import opened Tokens
  import opened Ast
  import opened LexerSpec
  import opened LexerProperties
  import opened Lexing
  import opened TokenStreams
  import opened ParserSpec

  class Parser {
    /** The lexer the parser pulls tokens from. */
    const lexer: Lexer
    var currentToken: Token
    var peekToken: Token
    /** The tokens the lexer hands out, from where the parser took it over. */
    ghost const stream: TokenStream
    /** The number of the current token in `stream`. */
    ghost var index: nat

    ghost predicate Valid()
      reads this, lexer
    {
      lexer.Valid() && Describes(stream, lexer.input) && WellFormed(stream) &&
      lexer.position == stream.cursor(index + 2) &&
      stream.token(index) == Ok(currentToken) &&
      stream.token(index + 1) == Ok(peekToken)
    }

    constructor FromTokens(lexer: Lexer, cur: Token, next: Token, ghost stream: TokenStream)
      ensures this.lexer == lexer && this.stream == stream && index == 0
      ensures currentToken == cur && peekToken == next
    {
      this.lexer := lexer;
      this.stream := stream;
      currentToken := cur;
      peekToken := next;
      index := 0;
    }

    /** `Parser::new`: pulls the first two tokens from the lexer; a panic of the lexer ends the
        construction. */
    static method New(lexer: Lexer) returns (r: Outcome<Parser>)
      requires lexer.Valid()
      modifies lexer
      ensures var ts := LexerStream(lexer.input, old(lexer.position));
        if ts.token(0).Panic? then r == Panic(ts.token(0).reason)
        else if ts.token(1).Panic? then r == Panic(ts.token(1).reason)
        else (r.Ok? && fresh(r.value) && r.value.Valid() && r.value.lexer == lexer &&
              r.value.stream == ts && r.value.index == 0)
    {
      ghost var ts := LexerStream(lexer.input, lexer.position);
      LexerStreamDescribes(lexer.input, lexer.position);
      LexerStreamWellFormed(lexer.input, lexer.position);
      var cur := Pull(lexer, ts, 0);
      if cur.Panic? {
        return Panic(cur.reason);
      }
      var next := Pull(lexer, ts, 1);
      if next.Panic? {
        return Panic(next.reason);
      }
      var p := new Parser.FromTokens(lexer, cur.value, next.value, ts);
      r := Ok(p);
    }

    /** `next_token`: the peek token becomes the current one and one new token is pulled from
        the lexer, which may panic. */
    method NextToken() returns (r: Outcome<()>)
      requires Valid()
      modifies this, lexer
      ensures r.Ok? || r.Panic?
      ensures r.Panic? <==> stream.token(old(index) + 2).Panic?
      ensures r.Panic? ==> r.reason == stream.token(old(index) + 2).reason
      ensures r.Ok? ==> Valid() && index == old(index) + 1 && currentToken == old(peekToken)
      ensures r.Ok? ==> old(lexer.position) < lexer.position
    {
      assert WellFormedAt(stream, index + 2);
      var t := Pull(lexer, stream, index + 2);
      if t.Panic? {
        return Panic(t.reason);
      }
      currentToken := peekToken;
      peekToken := t.value;
      index := index + 1;
      r := Ok(());
    }

    /** `current_token_is`: whether the current token has the given kind. */
    function CurrentTokenIs(kind: TokenKind): (b: bool)
      requires Valid()
      reads this, lexer
      ensures b <==> IsKind(stream.token(index), kind)
    {
      currentToken.kind == kind
    }

    /** `parse_statement`: dispatches on the kind of the current token. */
    method ParseStatement() returns (r: Outcome<Statement>)
      requires Valid()
      modifies this, lexer
      ensures var e := StatementAt(stream, old(index));
        (e.Ok? ==> r == Ok(e.value.statement) && Valid() && index == e.value.end) &&
        (e.Err? ==> r == Err(e.error) && Valid() && index == old(index) &&
                    currentToken == old(currentToken) && peekToken == old(peekToken)) &&
        (e.Panic? ==> r == Panic(e.reason)) &&
        (e.Hang? ==> r == Hang)
    {
      match currentToken.kind
      case Let => r := ParseLetStatement();
      case Return => r := ParseReturnStatement();
      case _ => r := ParseExpressionStatement();
    }

    /** `parse_let_statement`: a `let` binding the peek token when it is an identifier. */
    function ParseLetStatement(): (r: Outcome<Statement>)
      requires Valid()
      reads this, lexer
      ensures r == LetStatementAt(stream, index)
    {
      match peekToken.kind
      case Ident(_) => Ok(Statement.Let(LetStatement(peekToken)))
      case _ => Err("not something")
    }

    /** `parse_expression_statement`: expressions are not parsed; every such statement is the
        placeholder named "Nothing". */
    function ParseExpressionStatement(): (r: Outcome<Statement>)
    {
      Ok(Identifier("Nothing"))
    }

    /** `parse_return_statement`: a return statement carrying the current token, after the
        parser has advanced to the next semicolon. The source loop has no end-of-input check;
        once the lexer is past the end with no semicolon current, it would loop forever, which
        is reported as `Hang`. */
    method ParseReturnStatement() returns (r: Outcome<Statement>)
      requires Valid()
      modifies this, lexer
      ensures var e := SkipToSemicolon(stream, old(index));
        (e.Ok? ==> (r == Ok(Statement.Return(ReturnStatement(old(currentToken)))) &&
                    Valid() && index == e.value)) &&
        (e.Panic? ==> r == Panic(e.reason)) &&
        (e.Hang? ==> r == Hang)
    {
      var st := Statement.Return(ReturnStatement(Token(currentToken.kind, currentToken.literal)));
      ghost var i0 := index;
      while !CurrentTokenIs(Semicolon)
        invariant Valid() && i0 <= index
        invariant SkipToSemicolon(stream, index) == SkipToSemicolon(stream, i0)
        decreases |lexer.input| + 1 - lexer.position
      {
        if lexer.position > |lexer.input| {
          return Hang;
        }
        var n := NextToken();
        if n.Panic? {
          return Panic(n.reason);
        }
      }
      r := Ok(st);
    }

    /** One pass of the loop body of `parse_program`, with the current token not EOF: parse a
        statement, then advance one token. A statement error is the `todo!()` panic. On success
        the loop invariant holds again with the statement appended, one token further on. */
    method ParseStep(ghost acc: seq<Statement>, ghost whole: Outcome<Program>) returns (r: Outcome<Statement>)
      requires Valid() && !IsKind(stream.token(index), Eof) && LoopLeadsTo(stream, index, acc, whole)
      modifies this, lexer
      ensures r.Ok? || r.Panic? || r.Hang?
      ensures r.Ok? ==> Valid() && old(index) < index && LoopLeadsTo(stream, index, acc + [r.value], whole)
      ensures r.Ok? ==> stream.cursor(old(index)) < stream.cursor(index) <= stream.size
      ensures r.Panic? ==> whole == Panic(r.reason)
      ensures r.Hang? ==> whole == Hang
    {
      ghost var i := index;
      var s := ParseStatement();
      if s.Err? {
        ParseLoopFails(stream, i, acc, whole);
        return Panic(TodoPanic);
      } else if s.Panic? {
        ParseLoopFails(stream, i, acc, whole);
        return Panic(s.reason);
      } else if s.Hang? {
        ParseLoopFails(stream, i, acc, whole);
        return Hang;
      }
      var n := AdvancePast(i, acc, whole, StatementAt(stream, i).value);
      if n.Panic? {
        return Panic(n.reason);
      }
      r := Ok(s.value);
    }

    /** The end of a pass of the loop of `parse_program` that parsed statement `p` from token i:
        advance one token past the statement. */
    method AdvancePast(ghost i: nat, ghost acc: seq<Statement>, ghost whole: Outcome<Program>, ghost p: Parsed)
      returns (r: Outcome<()>)
      requires Valid() && !IsKind(stream.token(i), Eof) && StatementAt(stream, i) == Ok(p)
      requires index == p.end && LoopLeadsTo(stream, i, acc, whole)
      modifies this, lexer
      ensures r.Ok? || r.Panic?
      ensures r.Panic? ==> whole == Panic(r.reason)
      ensures r.Ok? ==> Valid() && index == p.end + 1 && LoopLeadsTo(stream, index, acc + [p.statement], whole)
      ensures r.Ok? ==> stream.cursor(i) < stream.cursor(index) <= stream.size
    {
      IterationAdvances(stream, i, p);
      ParseLoopNext(stream, i, acc, whole, p);
      r := NextToken();
      if r.Ok? {
        assert index == p.end + 1;
      }
    }

    /** `parse_program`: parses statements until the current token is EOF, appending each one
        and advancing one token after it. A statement error is a `todo!()` panic. */
    method ParseProgram() returns (r: Outcome<Program>)
      requires Valid()
      modifies this, lexer
      ensures r == ParseFrom(stream, old(index))
      ensures r.Ok? ==> Valid() && IsKind(stream.token(index), Eof)
      ensures r.Ok? ==> old(index) <= index
    {
      var p := NewProgram();
      ghost var whole := ParseFrom(stream, index);
      ghost var i0 := index;
      while !CurrentTokenIs(Eof)
        invariant Valid() && LoopLeadsTo(stream, index, p.statements, whole)
        invariant i0 <= index
        decreases stream.size - stream.cursor(index)
      {
        var s := ParseStep(p.statements, whole);
        if s.Panic? {
          return Panic(s.reason);
        } else if s.Hang? {
          return Hang;
        }
        p := Program(p.statements + [s.value]);
      }
      r := Ok(p);
    }
  }

  /** One call of `next_token` on a lexer, seen as the next step along its token stream. */
  method Pull(lexer: Lexer, ghost ts: TokenStream, ghost k: nat) returns (t: Outcome<Token>)
    requires lexer.Valid() && Describes(ts, lexer.input) && lexer.position == ts.cursor(k)
    modifies lexer
    ensures lexer.Valid() && t == ts.token(k) && lexer.position == ts.cursor(k + 1)
  {
    t := lexer.NextToken();
  }

  /** `Parser::new(Lexer::new(input))` followed by `parse_program`. */
  method Parse(input: string) returns (r: Outcome<Program>)
    ensures r == ParseInput(input)
  {
    var lexer := new Lexer(input);
    var parser := Parser.New(lexer);
    if !parser.Ok? {
      return Panic(parser.reason);
    }
    r := parser.value.ParseProgram();
  }
}
