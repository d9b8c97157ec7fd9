/** What one call of `next_token` does, case by case, and what a sequence of calls produces. */
module LexerProperties {
  import opened Outcomes
  import opened Decimal
  import opened Tokens
  import opened LexerSpec
  import opened Streams

  /** The single-character punctuation the lexer knows, with the kind each one yields. */
  const Punctuation: map<char, TokenKind> :=
    map[';' := Semicolon, '(' := LParen, ')' := RParen, '{' := LBrace, '}' := RBrace,
        ',' := Comma, '+' := Plus, '-' := Minus]

  /** A run ends at the first character outside it: the two conditions below pin RunEnd down. */
  lemma {:induction false} RunEndOf(input: string, p: nat, q: nat, run: Run)
    requires p <= q
    requires forall k :: p <= k < q ==> InRun(run, CharAt(input, k))
    requires !InRun(run, CharAt(input, q))
    ensures RunEnd(input, p, run) == q
    decreases q - p
  {
    if p < q {
      RunEndOf(input, p + 1, q, run);
    }
  }

  /** Whitespace before a token is not part of it: lexing from the start of a run of
      whitespace and from its end give the same token and the same new cursor. */
  lemma WhitespaceIsSkipped(input: string, p: nat)
    ensures Lex(input, p) == Lex(input, RunEnd(input, p, Whitespace))
  {
    var q := RunEnd(input, p, Whitespace);
    RunEndOf(input, q, q, Whitespace);
  }

  /** Each punctuation character yields its kind, with the character as literal, and the cursor
      moves one character past it. */
  lemma LexPunctuation(input: string, p: nat)
    requires CharAt(input, TokenStart(input, p)) in Punctuation
    ensures var s := TokenStart(input, p); var c := CharAt(input, s);
      Lex(input, p) == Step(Ok(Token(Punctuation[c], [c])), s + 1)
  {
  }

  /** `==` is one EQ token whose literal is "=" and which consumes both characters; a lone `=`
      is ASSIGN. */
  lemma LexEqualSign(input: string, p: nat)
    requires CharAt(input, TokenStart(input, p)) == '='
    ensures var s := TokenStart(input, p); var r := Lex(input, p);
      r.token.Ok? && r.token.value.literal == "=" &&
      (r.token.value.kind == Eq <==> CharAt(input, s + 1) == '=') &&
      (r.token.value.kind == Eq || r.token.value.kind == Assign) &&
      r.next == if r.token.value.kind == Eq then s + 2 else s + 1
  {
  }

  /** A string literal is the verbatim text from the opening quote up to the next quote, or up
      to the end of the input when there is none; payload and literal are that text, and the
      closing quote is consumed. After an unterminated string the next token is EOF. */
  lemma LexString(input: string, p: nat, e: nat)
    requires CharAt(input, TokenStart(input, p)) == '"'
    requires TokenStart(input, p) < e <= |input|
    requires forall k :: TokenStart(input, p) < k < e ==> input[k] != '"' && input[k] != NUL
    requires e == |input| || input[e] == '"'
    ensures var text := input[TokenStart(input, p) + 1..e];
      Lex(input, p) == Step(Ok(Token(Str(text), text)), if e < |input| then e + 1 else e)
    ensures e == |input| ==> Lex(input, Lex(input, p).next).token == Ok(EofToken)
  {
    RunEndOf(input, TokenStart(input, p) + 1, e, StringBody);
  }

  /** A letter or underscore starts the longest run of letters and underscores; the run is the
      literal, `lookup_identifier` gives the kind, and the cursor stops right after the run. */
  lemma LexIdentifier(input: string, p: nat, e: nat)
    requires TokenStart(input, p) < e <= |input|
    requires forall k :: TokenStart(input, p) <= k < e ==> IsLetter(input[k])
    requires e == |input| || !IsLetter(input[e])
    ensures var word := input[TokenStart(input, p)..e];
      Lex(input, p) == Step(Ok(Token(LookupIdentifier(word), word)), e)
  {
    RunEndOf(input, TokenStart(input, p), e, Letters);
  }

  /** The digit case of `next_token`, read off the definition. */
  lemma LexDigitRun(input: string, p: nat)
    requires IsDigit(CharAt(input, TokenStart(input, p)))
    ensures var s := TokenStart(input, p); var e := RunEnd(input, s, Digits);
      AllDigits(input[s..e]) &&
      Lex(input, p).next == e &&
      Lex(input, p).token == match ParseUsize(input[s..e])
        case Ok(n) => IntToken(n)
        case _ => Panic(ParseUsize(input[s..e]).reason)
  {
    var s := TokenStart(input, p);
    var e := RunEnd(input, s, Digits);
    RunEndInRun(input, s, Digits);
    forall i | 0 <= i < e - s ensures IsDigit(input[s..e][i]) {
      assert InRun(Digits, CharAt(input, s + i));
    }
  }

  /** A digit starts the longest run of digits. A value up to `i64::MAX` gives an INT token
      whose literal is the value rendered in decimal, which is the run itself exactly when the
      run has no leading zero; a larger value panics instead of wrapping. */
  lemma LexNumber(input: string, p: nat, e: nat)
    requires TokenStart(input, p) < e <= |input|
    requires forall k :: TokenStart(input, p) <= k < e ==> IsDigit(input[k])
    requires e == |input| || !IsDigit(input[e])
    ensures var digits := input[TokenStart(input, p)..e];
      AllDigits(digits) &&
      Lex(input, p).next == e &&
      (DigitsValue(digits) <= I64_MAX ==>
        Lex(input, p).token == Ok(Token(Int(DigitsValue(digits) as i64), NatToString(DigitsValue(digits)))) &&
        (NatToString(DigitsValue(digits)) == digits <==> Canonical(digits))) &&
      (DigitsValue(digits) > I64_MAX ==> Lex(input, p).token.Panic?)
  {
    var s := TokenStart(input, p);
    RunEndOf(input, s, e, Digits);
    var digits := input[s..e];
    assert AllDigits(digits) by {
      forall i | 0 <= i < |digits| ensures IsDigit(digits[i]) {
        assert digits[i] == input[s + i];
      }
    }
    LexDigitRun(input, p);
    if Canonical(digits) {
      CanonicalRoundTrip(digits);
    }
  }

  /** Any other character is ILLEGAL with itself as literal, and the cursor moves one past it.
      This includes a `/` that is not the start of a comment. */
  lemma LexIllegal(input: string, p: nat)
    requires var c := CharAt(input, TokenStart(input, p));
      c !in Punctuation && c != '=' && c != '"' && c != NUL && !IsLetter(c) && !IsDigit(c)
    ensures var s := TokenStart(input, p);
      Lex(input, p) == Step(Ok(Token(Illegal, [CharAt(input, s)])), s + 1)
  {
  }

  /** A comment that is followed by a line feed ends there: the line feed and the whitespace
      after it are skipped too. The character right after `//` is never looked at. */
  lemma CommentToLineEnd(input: string, s: nat, j: nat)
    requires CharAt(input, s) == '/' && CharAt(input, s + 1) == '/'
    requires s + 3 <= j < |input| && input[j] == '\n'
    requires forall k :: s + 3 <= k < j ==> input[k] != '\n' && input[k] != NUL
    ensures SkipComment(input, s) == RunEnd(input, j + 1, Whitespace)
  {
    RunEndOf(input, s + 3, j, CommentBody);
  }

  /** A comment with no line feed after it runs to the end of the input, and the token after it
      is EOF. */
  lemma CommentToEnd(input: string, p: nat)
    requires var s := RunEnd(input, p, Whitespace);
      CharAt(input, s) == '/' && CharAt(input, s + 1) == '/' &&
      forall k :: s + 3 <= k < |input| ==> input[k] != '\n' && input[k] != NUL
    ensures TokenStart(input, p) >= |input|
    ensures Lex(input, p).token == Ok(EofToken)
  {
    var s := RunEnd(input, p, Whitespace);
    var q := if s + 3 <= |input| then |input| else s + 3;
    RunEndOf(input, s + 3, q, CommentBody);
  }

  /** A call that leaves the cursor past the end of the input returned EOF: every other token
      ends inside the input. */
  lemma LexPastEnd(input: string, p: nat)
    ensures Lex(input, p).next > |input| ==> Lex(input, p).token == Ok(EofToken)
  {
    var s := TokenStart(input, p);
    if s < |input| && IsDigit(input[s]) {
      LexDigitRun(input, p);
    }
  }

  /** A keyword token's literal is the keyword's own text. */
  lemma LexKeywordLiteral(input: string, p: nat)
    requires Lex(input, p).token.Ok? && IsKeyword(Lex(input, p).token.value.kind)
    ensures Lex(input, p).token.value.literal == KeywordText(Lex(input, p).token.value.kind)
  {
  }

  /** One token more moves the cursor by one more call of `next_token`. */
  lemma PosAfterNext(input: string, start: nat, k: nat)
    ensures PosAfter(input, start, k + 1) == Lex(input, PosAfter(input, start, k)).next
  {
  }

  /** The first of n + 1 calls returns the token at the cursor; the other n start where it left
      the cursor. */
  lemma ScanNext(input: string, p: nat, n: nat)
    ensures Scan(input, p, n + 1) == [Lex(input, p).token] + Scan(input, Lex(input, p).next, n)
  {
  }

  /** The cursor after the (k+1)-th token is the cursor after k tokens of a lexer that started
      one token later. */
  lemma PosAfterShift(input: string, start: nat, k: nat)
    ensures PosAfter(input, Lex(input, start).next, k) == PosAfter(input, start, k + 1)
  {
    IterateShift(NextCursor(input), start, k);
  }

  /** m + n tokens take the cursor as far as m tokens and then n more. */
  lemma PosAfterAppend(input: string, p: nat, m: nat, n: nat)
    ensures PosAfter(input, p, m + n) == PosAfter(input, PosAfter(input, p, m), n)
  {
    IterateAppend(NextCursor(input), p, m, n);
  }

  /** Every token moves the cursor forward, so k tokens move it at least k characters. */
  lemma PosAfterGrows(input: string, start: nat, k: nat)
    ensures start + k <= PosAfter(input, start, k)
  {
    forall q: nat ensures q < NextCursor(input)(q) {
      assert NextCursor(input)(q) == Lex(input, q).next;
    }
    IterateGrows(NextCursor(input), start, k);
  }

  /** n successive calls produce the first n tokens of the stream. */
  lemma ScanIsTokenStream(input: string, start: nat, n: nat)
    ensures forall k :: 0 <= k < n ==> Scan(input, start, n)[k] == TokenAt(input, start, k)
  {
    forall k | 0 <= k < n ensures Scan(input, start, n)[k] == TokenAt(input, start, k) {
      TraceAt(NextCursor(input), TokenOut(input), start, n, k);
    }
  }

  /** Once the cursor has reached the end of the input, every later call returns EOF. */
  lemma {:induction false} EofForever(input: string, start: nat, k: nat, j: nat)
    requires PosAfter(input, start, k) >= |input|
    requires k <= j
    ensures PosAfter(input, start, j) >= |input|
    ensures TokenAt(input, start, j) == Ok(EofToken)
    decreases j - k
  {
    if k < j {
      PosAfterNext(input, start, k);
      EofForever(input, start, k + 1, j);
    }
  }

  /** Lexing succeeds, step by step, along a list of cursor positions. */
  lemma ScanFromSteps(input: string, ps: seq<nat>, ts: seq<Outcome<Token>>)
    requires |ps| == |ts| + 1
    requires forall i :: 0 <= i < |ts| ==> Lex(input, ps[i]) == Step(ts[i], ps[i + 1])
    ensures Scan(input, ps[0], |ts|) == ts
    ensures PosAfter(input, ps[0], |ts|) == ps[|ts|]
  {
    forall i | 0 <= i < |ts|
      ensures TokenOut(input)(ps[i]) == ts[i] && NextCursor(input)(ps[i]) == ps[i + 1]
    {
      assert Lex(input, ps[i]) == Step(ts[i], ps[i + 1]);
    }
    TraceFromSteps(NextCursor(input), TokenOut(input), ps, ts);
  }

  /** m + n calls are m calls followed by n calls from where the first m left the cursor. */
  lemma ScanAppend(input: string, p: nat, m: nat, n: nat)
    ensures Scan(input, p, m + n) == Scan(input, p, m) + Scan(input, PosAfter(input, p, m), n)
  {
    TraceAppend(NextCursor(input), TokenOut(input), p, m, n);
  }
}
