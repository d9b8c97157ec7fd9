/** The lexer of the interpreter: a cursor over the source text that hands out one token per
    call. Every method is proved to move the cursor exactly as the functions of LexerSpec say. */
module Lexing {
  import opened Outcomes
  import opened Decimal
  import opened Tokens
  import opened LexerSpec

  class Lexer {
    /** The source text. */
    const input: string
    /** Index of the character in `ch`. */
    var position: nat
    /** Index of the next character to read; always one past `position`. */
    var readPosition: nat
    /** The character under the cursor, NUL once the cursor has left the input. */
    var ch: char

    ghost predicate Valid()
      reads this
    {
      readPosition == position + 1 && ch == CharAt(input, position)
    }

    /** A lexer whose cursor sits on the first character of `input`. */
    constructor (input: string)
      ensures Valid()
      ensures this.input == input && position == 0
    {
      this.input := input;
      position := 0;
      readPosition := 0;
      ch := NUL;
      new;
      ReadChar();
    }

    /** The character after the one under the cursor, without moving. */
    function PeekChar(): (c: char)
      requires Valid()
      reads this
      ensures c == CharAt(input, position + 1)
    {
      if readPosition >= |input| then NUL else input[readPosition]
    }

    /** Moves the cursor one character forward; past the end the character is NUL. */
    method ReadChar()
      modifies this
      ensures position == old(readPosition) && readPosition == position + 1
      ensures ch == CharAt(input, position)
    {
      if readPosition >= |input| {
        ch := NUL;
      } else {
        ch := input[readPosition];
      }
      position := readPosition;
      readPosition := readPosition + 1;
    }

    /** Consumes the run of digits under the cursor and parses it as a `usize`. */
    method ReadNumber() returns (n: Outcome<nat>)
      requires Valid() && position <= |input|
      modifies this
      ensures Valid()
      ensures position == RunEnd(input, old(position), Digits)
      ensures AllDigits(input[old(position)..position])
      ensures n == ParseUsize(input[old(position)..position])
    {
      var pos := position;
      while IsDigit(ch)
        invariant Valid() && pos <= position <= |input|
        invariant RunEnd(input, position, Digits) == RunEnd(input, pos, Digits)
        invariant forall k :: pos <= k < position ==> IsDigit(input[k])
        decreases |input| - position
      {
        ReadChar();
      }
      assert AllDigits(input[pos..position]) by {
        forall i | 0 <= i < position - pos ensures IsDigit(input[pos..position][i]) {
          assert input[pos..position][i] == input[pos + i];
        }
      }
      n := ParseUsize(input[pos..position]);
    }

    /** Produces the next token and leaves the cursor on the character after it. */
    method NextToken() returns (r: Outcome<Token>)
      requires Valid()
      modifies this
      ensures Valid()
      ensures Lex(input, old(position)) == Step(r, position)
    {
      SkipWhitespace();
      SkipComments();
      ghost var s := position;
      var kind: TokenKind;
      match ch {
        case ';' => kind := Semicolon;
        case '(' => kind := LParen;
        case ')' => kind := RParen;
        case '{' => kind := LBrace;
        case '}' => kind := RBrace;
        case ',' => kind := Comma;
        case '+' => kind := Plus;
        case '-' => kind := Minus;
        case '=' =>
          if PeekChar() == '=' {
            ReadChar();
            kind := Eq;
          } else {
            kind := Assign;
          }
        case '"' =>
          var text := ReadString();
          return Ok(Token(Str(text), text));
        case '\0' => kind := Eof;
        case _ =>
          if IsLetter(ch) {
            var ident := ReadIdentifier();
            return Ok(Token(LookupIdentifier(ident), ident));
          } else if IsDigit(ch) {
            var num := ReadNumber();
            if !num.Ok? {
              return Panic(num.reason);
            }
            if num.value > I64_MAX {
              return Panic("out of range integral type conversion attempted");
            }
            return Ok(Token(Int(num.value as i64), NatToString(num.value)));
          } else {
            kind := Illegal;
          }
      }
      var c := ch;
      ReadChar();
      r := Ok(Token(kind, [c]));
    }

    /** Moves the cursor past the whitespace under it. */
    method SkipWhitespace()
      requires Valid()
      modifies this
      ensures Valid() && position == RunEnd(input, old(position), Whitespace)
    {
      while IsWhitespace(ch)
        invariant Valid() && old(position) <= position
        invariant RunEnd(input, position, Whitespace) == RunEnd(input, old(position), Whitespace)
        decreases |input| - position
      {
        ReadChar();
      }
    }

    /** Moves the cursor past one `//` comment under it, and past the line feed and whitespace
        that follow the comment. */
    method SkipComments()
      requires Valid()
      modifies this
      ensures Valid() && position == SkipComment(input, old(position))
    {
      if ch == '/' && PeekChar() == '/' {
        ReadChar();
        ReadChar();
        while true
          invariant Valid() && old(position) + 2 <= position <= |input|
          invariant RunEnd(input, position + 1, CommentBody) == RunEnd(input, old(position) + 3, CommentBody)
          decreases |input| - position
        {
          ReadChar();
          if ch == NUL || ch == '\n' {
            if ch == '\n' {
              ReadChar();
              SkipWhitespace();
            }
            break;
          }
        }
      }
    }

    /** Consumes a string literal whose opening quote is under the cursor and returns its text;
        the closing quote, when there is one, is consumed too. */
    method ReadString() returns (text: string)
      requires Valid() && position < |input|
      modifies this
      ensures Valid()
      ensures var e := RunEnd(input, old(position) + 1, StringBody);
        e <= |input| && text == input[old(position) + 1..e] &&
        position == if CharAt(input, e) == '"' then e + 1 else e
    {
      var pos := position + 1;
      while true
        invariant Valid() && pos - 1 <= position < |input|
        invariant RunEnd(input, position + 1, StringBody) == RunEnd(input, pos, StringBody)
        decreases |input| - position
      {
        ReadChar();
        if ch == '"' || ch == NUL {
          break;
        }
      }
      text := input[pos..position];
      if ch == '"' {
        ReadChar();
      }
    }

    /** Consumes the run of letters under the cursor and returns it. */
    method ReadIdentifier() returns (ident: string)
      requires Valid() && position <= |input|
      modifies this
      ensures Valid()
      ensures position == RunEnd(input, old(position), Letters) <= |input|
      ensures ident == input[old(position)..position]
    {
      var pos := position;
      while IsLetter(ch)
        invariant Valid() && pos <= position <= |input|
        invariant RunEnd(input, position, Letters) == RunEnd(input, pos, Letters)
        decreases |input| - position
      {
        ReadChar();
      }
      ident := input[pos..position];
    }
  }
}
