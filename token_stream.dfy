/** The tokens a lexer hands out, numbered from 0, as the parser sees them. */
module TokenStreams {
  import opened Outcomes
  import opened Tokens
  import opened LexerSpec
  import opened LexerProperties

  /** The k-th outcome of `next_token` (counting from 0), the cursor of the lexer before that
      call, and the length of the input. */
  datatype TokenStream = TokenStream(token: nat -> Outcome<Token>, cursor: nat -> nat, size: nat)

  /** What the parser relies on about call k of its lexer: it moves the cursor forward, it
      either returns a token or panics, and it returns EOF when it leaves the cursor past the
      end of the input. */
  ghost predicate WellFormedAt(ts: TokenStream, k: nat) {
    ts.cursor(k) < ts.cursor(k + 1) &&
    (ts.token(k).Ok? || ts.token(k).Panic?) &&
    (ts.cursor(k + 1) > ts.size ==> ts.token(k) == Ok(EofToken))
  }

  ghost predicate WellFormed(ts: TokenStream) {
    forall k: nat :: WellFormedAt(ts, k)
  }

  /** The stream is the one of the lexer of LexerSpec over `input`: each call of `next_token`
      from the cursor before token k returns token k and leaves the cursor before token k + 1. */
  ghost predicate Describes(ts: TokenStream, input: string) {
    ts.size == |input| &&
    forall k: nat {:trigger Lex(input, ts.cursor(k))} ::
      Lex(input, ts.cursor(k)) == Step(ts.token(k), ts.cursor(k + 1))
  }

  /** The stream of the lexer of LexerSpec started at cursor `start`. */
  function LexerStream(input: string, start: nat): TokenStream {
    TokenStream((k: nat) => TokenAt(input, start, k), (k: nat) => PosAfter(input, start, k), |input|)
  }

  lemma LexerStreamDescribes(input: string, start: nat)
    ensures Describes(LexerStream(input, start), input)
    ensures LexerStream(input, start).cursor(0) == start
  {
    var ts := LexerStream(input, start);
    forall k: nat ensures Lex(input, ts.cursor(k)) == Step(ts.token(k), ts.cursor(k + 1)) {
      PosAfterNext(input, start, k);
    }
  }

  /** A stream that describes the lexer is determined by where it starts. */
  lemma {:induction false} DescribedStreamIsUnique(ts: TokenStream, input: string, k: nat)
    requires Describes(ts, input)
    ensures ts.cursor(k) == PosAfter(input, ts.cursor(0), k)
    ensures ts.token(k) == TokenAt(input, ts.cursor(0), k)
  {
    assert Lex(input, ts.cursor(k)) == Step(ts.token(k), ts.cursor(k + 1));
    if k > 0 {
      DescribedStreamIsUnique(ts, input, k - 1);
      assert Lex(input, ts.cursor(k - 1)) == Step(ts.token(k - 1), ts.cursor(k));
      PosAfterNext(input, ts.cursor(0), k - 1);
    }
  }

  /** Every stream that describes the lexer has the properties the parser relies on. */
  lemma DescribedStreamWellFormed(ts: TokenStream, input: string)
    requires Describes(ts, input)
    ensures WellFormed(ts)
  {
    forall k: nat ensures WellFormedAt(ts, k) {
      assert Lex(input, ts.cursor(k)) == Step(ts.token(k), ts.cursor(k + 1));
      LexPastEnd(input, ts.cursor(k));
    }
  }

  /** The lexer's stream has the properties the parser relies on. */
  lemma LexerStreamWellFormed(input: string, start: nat)
    ensures WellFormed(LexerStream(input, start))
  {
    LexerStreamDescribes(input, start);
    DescribedStreamWellFormed(LexerStream(input, start), input);
  }
}
