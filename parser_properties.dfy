/** Properties of the parser over any token stream with the properties the parser relies on, and
    over the lexer's own stream. */
module ParserProperties {
  import opened Outcomes
  import opened Tokens
  import opened Ast
  import opened LexerSpec
  import opened LexerProperties
  import opened TokenStreams
  import opened ParserSpec

  /** Cursors never move backwards. */
  lemma {:induction false} CursorMonotone(ts: TokenStream, j: nat, k: nat)
    requires WellFormed(ts)
    requires j <= k
    ensures ts.cursor(j) <= ts.cursor(k)
    decreases k - j
  {
    if j < k {
      assert WellFormedAt(ts, j);
      CursorMonotone(ts, j + 1, k);
    }
  }

  /** Once a lexer's cursor is past the end of the input, every token it hands out is EOF. */
  lemma EofAfterEnd(ts: TokenStream, m: nat, k: nat)
    requires WellFormed(ts)
    requires ts.cursor(m) > ts.size && m <= k + 1
    ensures ts.token(k) == Ok(EofToken)
  {
    CursorMonotone(ts, m, k + 1);
    assert WellFormedAt(ts, k);
  }

  /** The loop of `parse_return_statement` from token i never ends exactly when no token from i
      on is a semicolon and none of the tokens it pulls (from i + 2 on) panics: there is no
      end-of-input check to stop it. */
  lemma {:induction false} SkipHangsIff(ts: TokenStream, i: nat)
    requires WellFormed(ts)
    ensures SkipToSemicolon(ts, i).Hang? <==>
      forall k: nat :: i <= k ==> !IsKind(ts.token(k), Semicolon) && (i + 2 <= k ==> !ts.token(k).Panic?)
    decreases ts.size + 1 - ts.cursor(i + 2)
  {
    if IsKind(ts.token(i), Semicolon) {
    } else if ts.cursor(i + 2) > ts.size {
      forall k: nat | i < k
        ensures ts.token(k) == Ok(EofToken)
      {
        EofAfterEnd(ts, i + 2, k);
      }
    } else if ts.token(i + 2).Panic? {
    } else {
      assert WellFormedAt(ts, i + 2);
      SkipHangsIff(ts, i + 1);
    }
  }

  /** When the loop of `parse_return_statement` ends, the current token is the first semicolon
      from token i on, and none of the tokens pulled on the way panicked. */
  lemma {:induction false} SkipFindsFirstSemicolon(ts: TokenStream, i: nat)
    requires WellFormed(ts)
    requires SkipToSemicolon(ts, i).Ok?
    ensures var m := SkipToSemicolon(ts, i).value;
      IsKind(ts.token(m), Semicolon) &&
      (forall k :: i <= k < m ==> !IsKind(ts.token(k), Semicolon)) &&
      (forall k :: i + 2 <= k <= m + 1 ==> ts.token(k).Ok?)
    decreases ts.size + 1 - ts.cursor(i + 2)
  {
    if !IsKind(ts.token(i), Semicolon) {
      assert WellFormedAt(ts, i + 2);
      SkipFindsFirstSemicolon(ts, i + 1);
    }
  }

  /** `parse_statement` with token i current, by the kind of statement it yields: a `let` exactly
      when the current token is LET and the peek token an identifier, which the statement binds;
      a return statement exactly when the current token is RETURN and a semicolon ends the loop,
      carrying the current token; an error exactly for a LET without an identifier after it; the
      placeholder for every other kind. Only a return statement moves the current token. */
  lemma StatementKinds(ts: TokenStream, i: nat)
    requires WellFormed(ts)
    ensures var r := StatementAt(ts, i);
      (r.Ok? && r.value.statement.Let? <==>
         IsKind(ts.token(i), TokenKind.Let) && ts.token(i + 1).Ok? && ts.token(i + 1).value.kind.Ident?) &&
      (r.Ok? && r.value.statement.Let? ==> r.value.statement.binding.identifier == ts.token(i + 1).value) &&
      (r.Ok? && r.value.statement.Return? <==>
         IsKind(ts.token(i), TokenKind.Return) && SkipToSemicolon(ts, i).Ok?) &&
      (r.Ok? && r.value.statement.Return? ==>
         r.value.statement.ret.identifier == ts.token(i).value && r.value.end == SkipToSemicolon(ts, i).value) &&
      (r.Err? <==>
         IsKind(ts.token(i), TokenKind.Let) && !(ts.token(i + 1).Ok? && ts.token(i + 1).value.kind.Ident?)) &&
      (r.Ok? && r.value.statement.Identifier? <==>
         !IsKind(ts.token(i), TokenKind.Let) && !IsKind(ts.token(i), TokenKind.Return)) &&
      (r.Ok? && r.value.statement.Identifier? ==> r.value.statement.name == "Nothing") &&
      (r.Ok? && !r.value.statement.Return? ==> r.value.end == i)
  {
  }

  /** The statement for token k when it is neither EOF nor RETURN and no let fails there. */
  function SimpleStatement(ts: TokenStream, k: nat): Statement {
    if IsKind(ts.token(k), TokenKind.Let) && ts.token(k + 1).Ok? then
      Statement.Let(LetStatement(ts.token(k + 1).value))
    else Identifier("Nothing")
  }

  /** The statements of such tokens i to e - 1, in order. */
  function SimpleStatements(ts: TokenStream, i: nat, e: nat): (r: seq<Statement>)
    requires i <= e
    ensures |r| == e - i
  {
    seq(e - i, k requires 0 <= k < e - i => SimpleStatement(ts, i + k))
  }

  /** The first of such statements, then the others. */
  lemma SimpleStatementsCons(ts: TokenStream, i: nat, e: nat)
    requires i < e
    ensures SimpleStatements(ts, i, e) == [SimpleStatement(ts, i)] + SimpleStatements(ts, i + 1, e)
  {
    assert forall k | 0 <= k < e - i ::
      SimpleStatements(ts, i, e)[k] == ([SimpleStatement(ts, i)] + SimpleStatements(ts, i + 1, e))[k];
  }

  /** Token k is neither EOF nor RETURN, a LET is followed by an identifier, and the token
      pulled after parsing it (k + 2) does not panic. */
  ghost predicate SimpleAt(ts: TokenStream, k: nat) {
    ts.token(k).Ok? && !IsKind(ts.token(k), Eof) && !IsKind(ts.token(k), TokenKind.Return) &&
    (IsKind(ts.token(k), TokenKind.Let) ==> ts.token(k + 1).Ok? && ts.token(k + 1).value.kind.Ident?) &&
    !ts.token(k + 2).Panic?
  }

  /** Tokens i to e - 1 are all such tokens. */
  ghost predicate SimpleRun(ts: TokenStream, i: nat, e: nat) {
    forall k :: i <= k < e ==> SimpleAt(ts, k)
  }

  /** One iteration of `parse_program` over such a token appends its statement and advances one
      token. */
  lemma SimpleStep(ts: TokenStream, i: nat, acc: seq<Statement>)
    requires WellFormed(ts) && SimpleAt(ts, i)
    ensures ParseLoop(ts, i, acc) == ParseLoop(ts, i + 1, acc + [SimpleStatement(ts, i)])
  {
    var p := Parsed(SimpleStatement(ts, i), i);
    assert StatementAt(ts, i) == Ok(p);
    ParseLoopNext(ts, i, acc, ParseLoop(ts, i, acc), p);
  }

  /** `parse_program` over a run of tokens i to e - 1 that are neither EOF nor RETURN: each
      iteration appends one statement for one token and advances one token, in source order. */
  lemma {:induction false} ParseAcross(ts: TokenStream, i: nat, e: nat, acc: seq<Statement>)
    requires WellFormed(ts)
    requires i <= e && SimpleRun(ts, i, e)
    ensures ParseLoop(ts, i, acc) == ParseLoop(ts, e, acc + SimpleStatements(ts, i, e))
    decreases e - i
  {
    if i == e {
      assert acc + SimpleStatements(ts, i, e) == acc;
    } else {
      var head := SimpleStatement(ts, i);
      calc {
        ParseLoop(ts, i, acc);
        { assert SimpleAt(ts, i); SimpleStep(ts, i, acc); }
        ParseLoop(ts, i + 1, acc + [head]);
        { ParseAcross(ts, i + 1, e, acc + [head]); }
        ParseLoop(ts, e, (acc + [head]) + SimpleStatements(ts, i + 1, e));
        { SimpleStatementsCons(ts, i, e);
          assert (acc + [head]) + SimpleStatements(ts, i + 1, e) == acc + SimpleStatements(ts, i, e); }
        ParseLoop(ts, e, acc + SimpleStatements(ts, i, e));
      }
    }
  }

  /** A run of such tokens up to EOF parses to one statement per token, in source order. */
  lemma ParseToEof(ts: TokenStream, i: nat, e: nat)
    requires WellFormed(ts)
    requires i <= e && SimpleRun(ts, i, e) && IsKind(ts.token(e), Eof)
    ensures ParseFrom(ts, i) == Ok(Program(SimpleStatements(ts, i, e)))
  {
    ParseAcross(ts, i, e, []);
    assert [] + SimpleStatements(ts, i, e) == SimpleStatements(ts, i, e);
  }

  /** A `let` without an identifier after it makes the whole parse panic in the `todo!()`,
      whatever was parsed before it: there is no partial program. */
  lemma ErrorAborts(ts: TokenStream, i: nat, e: nat)
    requires WellFormed(ts)
    requires i <= e && SimpleRun(ts, i, e)
    requires IsKind(ts.token(e), TokenKind.Let)
    requires !(ts.token(e + 1).Ok? && ts.token(e + 1).value.kind.Ident?)
    ensures ParseFrom(ts, i) == Panic(TodoPanic)
  {
    ParseAcross(ts, i, e, []);
    ParseLoopFails(ts, e, [] + SimpleStatements(ts, i, e), ParseFrom(ts, i));
  }

  /** The shape `parse_statement` gives a statement: a `let` binds an identifier token, a return
      statement carries a RETURN token, and every other statement is the placeholder. */
  predicate ParsedShape(s: Statement) {
    (s.Let? ==> s.binding.identifier.kind.Ident?) &&
    (s.Return? ==> s.ret.identifier.kind == TokenKind.Return) &&
    (s.Identifier? ==> s.name == "Nothing")
  }

  /** Every statement of a parsed program has the shape its parser gives it. */
  lemma {:induction false} ParsedStatementShapes(ts: TokenStream, i: nat, acc: seq<Statement>)
    requires WellFormed(ts)
    requires forall s :: s in acc ==> ParsedShape(s)
    requires ParseLoop(ts, i, acc).Ok?
    ensures forall s :: s in ParseLoop(ts, i, acc).value.statements ==> ParsedShape(s)
    decreases ts.size - ts.cursor(i)
  {
    if !IsKind(ts.token(i), Eof) {
      ParseLoopFails(ts, i, acc, ParseLoop(ts, i, acc));
      var p := StatementAt(ts, i).value;
      ParseLoopNext(ts, i, acc, ParseLoop(ts, i, acc), p);
      StatementKinds(ts, i);
      assert ParsedShape(p.statement);
      IterationAdvances(ts, i, p);
      ParsedStatementShapes(ts, p.end + 1, acc + [p.statement]);
    }
  }

  /** A return statement parsed from the lexer's tokens carries the keyword token itself, with
      literal "return". */
  lemma ReturnCarriesKeyword(input: string, start: nat, i: nat)
    requires (LexerStreamWellFormed(input, start);
      var r := StatementAt(LexerStream(input, start), i); r.Ok? && r.value.statement.Return?)
    ensures (LexerStreamWellFormed(input, start);
      StatementAt(LexerStream(input, start), i).value.statement.ret.identifier ==
      Token(TokenKind.Return, "return"))
  {
    LexerStreamWellFormed(input, start);
    var ts := LexerStream(input, start);
    StatementKinds(ts, i);
    LexKeywordLiteral(input, PosAfter(input, start, i));
  }
}
