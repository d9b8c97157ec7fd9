# Monkey front end: lexer, tokens, syntax tree and parser

This project models the front end of josephwoodward/rust-interpreter, an interpreter for the
Monkey language written in Rust. The model covers:

- `Lexer`, which turns a source text into tokens one `next_token` call at a time;
- the token kinds, the keyword table and their `Display` renderings;
- the syntax tree (`Program`, `Statement`);
- `Parser`, which pulls tokens from its lexer and builds a program from `let`, `return` and
  placeholder statements.

## Structure

Each stateful component has a pure specification, and a class that is proved to follow it:

- **Lexer.** `LexerSpec.Lex(input, p)` says what one `next_token` call does from cursor `p`:
  the token (or the panic) and the new cursor. The class `Lexing.Lexer` has the source's
  `position`, `read_position` and `ch` fields. Every one of its methods is proved against
  `LexerSpec`.
- **Token stream.** The parser sees only the tokens its lexer hands out. `TokenStreams.TokenStream`
  numbers those tokens together with the cursor before each one.
  - `WellFormed` is what the parser relies on about the stream.
  - `Describes` ties a stream to `Lex`.
- **Parser.** `ParserSpec` states `parse_statement`, the loop of `parse_return_statement` and
  the loop of `parse_program` as functions over such a stream. The class `Parsing.Parser` holds
  the lexer, the current token and the peek token. Its methods are proved to compute those
  functions.

## Outcomes

Every operation ends in one of the four cases of `Outcomes.Outcome`:

- `Ok`: the value returned.
- `Err`: a Rust `Err` value handed back to the caller.
- `Panic`: a Rust panic. These are:
  - `unwrap` of a number too large for `usize` or `i64`;
  - the `todo!()` that `parse_program` runs into on a statement error.
- `Hang`: a call that never returns. `parse_return_statement` has no end-of-input check, so with
  no semicolon left it loops forever. The model reports `Hang` as soon as the lexer's cursor is
  past the end of the input and the current token is not a semicolon. From there on every token
  is EOF, so the loop could never stop.

## Source behaviour the model reproduces

Integer widths are explicit: `usize` is 64 bits and the `i64` payload is a `newtype`.

The model keeps the source's behaviour exactly:

- Only one `//` comment is skipped per token.
- The character right after `//` is consumed without being looked at.
- `==` yields an EQ token whose literal is `"="`.
- An integer token's literal is the parsed number rendered again, so `007` has literal `"7"`.
- A NUL character inside the input lexes as EOF, and lexing goes on after it.
- A statement that is neither `let` nor `return` is the placeholder named `"Nothing"`. The
  parser then advances one token, so `let five = 5;` yields five statements.

## Inconsistencies in the source

src/ast.rs declares neither a `Return` statement nor `ReturnStatement`, but src/parser.rs
constructs both. The model declares them as src/parser.rs uses them: a return statement carries
one token.

## Model

| member | source | states |
|---|---|---|
| Tokens.LookupIdentifier | src/token.rs:101-117 | the kind of a word is an identifier carrying the word, or a keyword whose text is the word |
| Tokens.KeywordRoundTrip | src/token.rs:101-117 | looking up a keyword's text gives that keyword back |
| Tokens.KindDisplay | src/token.rs:52-88 | identifier, integer and string kinds render as their payload (integers in decimal, minus sign included); every other kind renders as non-empty text |
| Tokens.KindDisplayInverse | src/token.rs:54-86 | every payload-free kind can be read back from its rendering |
| Tokens.KindDisplayInjective | src/token.rs:54-86 | no two payload-free kinds share a rendering |
| Tokens.IntDisplayRoundTrip | src/token.rs:56 | a non-negative integer kind renders as the canonical numeral of its value |
| Tokens.TokenDisplay | src/token.rs:95-99 | a token renders as "kind: " followed by its kind's rendering; the literal is not shown |
| Decimal.IsDigit | src/lexer.rs:177-179 | a digit character has a value from 0 to 9 |
| Decimal.DigitCharOf | src/lexer.rs:177-179 | every digit character is the character of its own value |
| Decimal.NatToString | src/lexer.rs:101 | `to_string` of a number is a canonical numeral (no leading zero) whose value is the number |
| Decimal.IntToString | src/token.rs:56 | a negative number renders as a minus sign before the canonical numeral of its magnitude |
| Decimal.CanonicalRoundTrip | src/lexer.rs:98-101 | rendering the value of a canonical numeral gives the numeral back |
| Ast.NewProgram | src/ast.rs:10-14 | a new program has no statements |
| LexerSpec.CharAt | src/lexer.rs:35-46 | the character under the cursor is NUL exactly when the cursor is past the input or on a NUL of the input, and otherwise the input's character there |
| LexerSpec.IsWhitespace | src/lexer.rs:121 | whitespace is neither NUL nor a digit, so skipping it stops at the end of the input |
| LexerSpec.IsLetter | src/lexer.rs:173-175 | a letter is not whitespace, a digit, NUL or a quote, so the order of the tests in `next_token` does not matter |
| LexerSpec.IntToken | src/lexer.rs:99-101 | the integer token of a number is INT of the number exactly when it is at most `i64::MAX`, with the canonical numeral of the number as literal; a panic otherwise |
| LexerSpec.RunEnd | src/lexer.rs:120-124 | a scanning loop stops at the first character outside its class, never before where it started, and inside the input unless it did not move |
| LexerSpec.RunEndInRun | src/lexer.rs:163-170 | every character a scanning loop passes belongs to its class |
| LexerSpec.SkipComment | src/lexer.rs:126-144 | skipping a comment never moves the cursor backwards |
| LexerSpec.ParseUsize | src/lexer.rs:54 | parsing a digit run either yields a number or panics; it never returns an error value |
| LexerSpec.TokenStart | src/lexer.rs:62-63 | skipping whitespace and a comment never moves the cursor backwards |
| LexerSpec.Lex | src/lexer.rs:57-118 | one `next_token` call moves the cursor forward and yields a token or panics; with the cursor past the end it yields EOF and moves one place |
| Lexing.Lexer.constructor | src/lexer.rs:13-23 | a new lexer is valid and its cursor is on the first character |
| Lexing.Lexer.PeekChar | src/lexer.rs:25-33 | the character after the cursor, NUL past the end |
| Lexing.Lexer.ReadChar | src/lexer.rs:35-46 | the cursor moves to the read position, which moves one further; `ch` is the character there, NUL past the end |
| Lexing.Lexer.ReadNumber | src/lexer.rs:48-55 | consumes exactly the maximal digit run and returns the result of parsing it as a `usize` (a panic when it does not fit) |
| Lexing.Lexer.NextToken | src/lexer.rs:57-118 | the token and the new cursor are exactly those `Lex` gives for the old cursor |
| Lexing.Lexer.SkipWhitespace | src/lexer.rs:120-124 | the cursor ends at the end of the whitespace run under it |
| Lexing.Lexer.SkipComments | src/lexer.rs:126-144 | the cursor ends where `SkipComment` says: past one `//` comment and the line feed and whitespace after it, or unmoved |
| Lexing.Lexer.ReadString | src/lexer.rs:146-161 | returns the text between the opening quote and the next quote (or the end of the input), and consumes the closing quote when there is one |
| Lexing.Lexer.ReadIdentifier | src/lexer.rs:163-170 | consumes exactly the maximal run of letters and underscores and returns it |
| LexerProperties.WhitespaceIsSkipped | src/lexer.rs:120-124 | lexing from the start and from the end of a whitespace run gives the same token and cursor |
| LexerProperties.LexPunctuation | src/lexer.rs:65-73 | each of `; ( ) { } , + -` yields its own kind with the character as literal, and moves one past it |
| LexerProperties.LexEqualSign | src/lexer.rs:74-81 | `=` yields EQ exactly when another `=` follows, consuming both, and ASSIGN otherwise; the literal is "=" in both cases |
| LexerProperties.LexString | src/lexer.rs:82-88 | a string literal is the verbatim text up to the next quote or the end of the input, as both payload and literal; after an unterminated string the next token is EOF |
| LexerProperties.LexIdentifier | src/lexer.rs:90-96 | a letter starts the longest run of letters; the run is the literal and its keyword lookup the kind |
| LexerProperties.LexDigitRun | src/lexer.rs:97-102 | a digit starts the longest run of digits; the token is the parsed number's integer token, or the panic of parsing it |
| LexerProperties.LexNumber | src/lexer.rs:97-102 | a digit run up to `i64::MAX` yields INT of its value, with the rendered value as literal, which equals the digits exactly when they have no leading zero; a larger value panics instead of wrapping |
| LexerProperties.LexIllegal | src/lexer.rs:103-106 | any other character (a lone `/` included) is ILLEGAL with itself as literal, and the cursor moves one past it |
| LexerProperties.CommentToLineEnd | src/lexer.rs:126-144 | a comment ends at the first line feed from the third character after `//` on; the whitespace after that line feed is skipped too |
| LexerProperties.CommentToEnd | src/lexer.rs:131-141 | a comment with no line feed after it runs to the end of the input, and the next token is EOF |
| LexerProperties.LexPastEnd | src/lexer.rs:89 | a call that leaves the cursor past the end of the input returned EOF |
| LexerProperties.LexKeywordLiteral | src/lexer.rs:92-96 | a keyword token's literal is the keyword's text |
| LexerProperties.EofForever | src/lexer.rs:89 | once the cursor has reached the end of the input, every later call returns EOF |
| LexerTests.PunctuationTest | src/lexer.rs:189-211 | `=+(){},;==` lexes to ASSIGN PLUS LPAREN RPAREN LBRACE RBRACE COMMA SEMICOLON EQ, then EOF |
| LexerTests.MixedCommentSkipped | src/lexer.rs:215-223 | in the mixed test input, the comment line and the whitespace around it are skipped before the fourth `let` |
| LexerTests.MixedTest | src/lexer.rs:213-270 | the mixed test input lexes to the 22 tokens the test lists, then EOF |
| TokenStreams.DescribedStreamIsUnique | src/lexer.rs:57-118 | the tokens and cursors a lexer hands out are determined by the input and where it started |
| TokenStreams.DescribedStreamWellFormed | src/lexer.rs:57-118 | a lexer's token stream has what the parser relies on: cursors increase, every call yields a token or panics, and a call ending past the input yields EOF |
| TokenStreams.LexerStreamWellFormed | src/lexer.rs:57-118 | the stream of a lexer started at any cursor has those properties |
| ParserSpec.SkipToSemicolon | src/parser.rs:90-92 | the loop of `parse_return_statement` stops only on a semicolon, at or after where it started, and never moves the cursor back; otherwise it panics or never ends |
| ParserSpec.LetStatementAt | src/parser.rs:61-78 | a `let` binding the peek token exactly when the peek token is an identifier; the error "not something" otherwise |
| ParserSpec.StatementAt | src/parser.rs:39-45 | a parsed statement ends at or after its first token; it ends on that token, or on a semicolon |
| ParserSpec.ParseLoop | src/parser.rs:47-59 | the loop of `parse_program` never returns an `Err` value: a statement error becomes a panic |
| ParserSpec.ParseFrom | src/parser.rs:47-59 | `parse_program` never returns an `Err` value, and with the current token EOF it yields the empty program |
| ParserSpec.ParseStream | src/parser.rs:18-27 | a parser over a stream never yields an `Err` value |
| ParserSpec.IterationAdvances | src/parser.rs:49-56 | each iteration of `parse_program` moves the lexer's cursor forward and not past the end of the input |
| ParserSpec.ParseLoopNext | src/parser.rs:49-56 | after an iteration parses a statement, a panic pulling the next token is the loop's outcome; otherwise the statement is appended and the loop goes on one token after it, towards the same final outcome |
| ParserSpec.ParseLoopFails | src/parser.rs:50-55 | a failing iteration ends the loop: a statement error is the `todo!()` panic; a panic or hang of the statement, or a panic pulling the next token, is the loop's outcome |
| Parsing.Parser.FromTokens | src/parser.rs:22-26 | the parser holds the lexer and the two given tokens, at token 0 of its stream |
| Parsing.Parser.New | src/parser.rs:18-27 | pulls the first two tokens of the lexer's stream; a panic of either ends the construction, otherwise the parser is valid at token 0 |
| Parsing.Parser.NextToken | src/parser.rs:30-33 | the peek token becomes current and the next token of the stream is pulled; the call panics exactly when that token panics |
| Parsing.Parser.CurrentTokenIs | src/parser.rs:35-37 | true exactly when the current token of the stream has the kind |
| Parsing.Parser.ParseStatement | src/parser.rs:39-45 | the result and the new position are those `StatementAt` gives, panic and hang included; an error leaves the parser valid and unchanged |
| Parsing.Parser.ParseLetStatement | src/parser.rs:61-78 | a `let` binding the peek token when it is an identifier, the error "not something" otherwise |
| Parsing.Parser.ParseReturnStatement | src/parser.rs:80-95 | a return statement carrying the old current token, with the parser on the semicolon `SkipToSemicolon` finds; its panic or hang otherwise |
| Parsing.Parser.ParseStep | src/parser.rs:50-55 | one pass of the loop body: a statement error is the `todo!()` panic, a panic or hang is the loop's outcome, and otherwise the parser is valid further on, with the loop invariant holding for the statement appended |
| Parsing.Parser.AdvancePast | src/parser.rs:55 | after a parsed statement, one token is pulled: its panic is the loop's outcome, and otherwise the parser is one token past the statement, the lexer's cursor moved forward but not past the end of the input |
| Parsing.Parser.ParseProgram | src/parser.rs:47-59 | the result is `ParseFrom` of the stream at the current token; on success the parser is valid, on EOF, and not before where it started |
| Parsing.Pull | src/parser.rs:32 | one lexer call returns the next token of the stream and moves the cursor to the next one |
| ParserSpec.ParseInput | src/parser.rs:120-121 | parsing a text never yields an `Err` value, and the empty text parses to the empty program |
| Parsing.Parse | src/parser.rs:120-121 | `Parser::new(Lexer::new(input))` followed by `parse_program` yields `ParseInput(input)` |
| ParserProperties.EofAfterEnd | src/lexer.rs:89 | once a lexer's cursor is past the end of the input, every later token is EOF |
| ParserProperties.SkipHangsIff | src/parser.rs:90-92 | the return loop never ends exactly when no token from its start on is a semicolon and none of the tokens it pulls panics |
| ParserProperties.SkipFindsFirstSemicolon | src/parser.rs:90-92 | when the return loop ends, it is on the first semicolon from its start, and none of the tokens pulled on the way panicked |
| ParserProperties.StatementKinds | src/parser.rs:39-101 | `let` exactly for LET followed by an identifier, which it binds; return exactly for RETURN with a semicolon ahead, carrying the keyword token; an error exactly for LET without an identifier; the "Nothing" placeholder for every other kind; only a return moves the current token |
| ParserProperties.SimpleStep | src/parser.rs:49-56 | an iteration over a token that is neither EOF nor RETURN appends its statement and advances one token |
| ParserProperties.ParseAcross | src/parser.rs:47-59 | across a run of such tokens, `parse_program` appends one statement per token, in source order |
| ParserProperties.ParseToEof | src/parser.rs:47-59 | a run of such tokens up to EOF parses to exactly one statement per token, in order |
| ParserProperties.ErrorAborts | src/parser.rs:50-53 | a LET without an identifier after it panics the whole parse, whatever was parsed before; there is no partial program |
| ParserProperties.ParsedStatementShapes | src/parser.rs:47-59 | every statement of a parsed program is a `let` binding an identifier token, a return carrying a RETURN token, or the "Nothing" placeholder |
| ParserProperties.ReturnCarriesKeyword | src/parser.rs:80-87 | a return statement parsed from a lexer's tokens carries the token RETURN with literal "return" |
| ParserTests.LetFiveStream | src/parser.rs:114-151 | the tokens of `let five = 5;` parse to five statements, the first a `let` binding the identifier token `five` |
| ParserTests.ReturnFiveStream | src/parser.rs:153-171 | the tokens of `return 5;` parse to one return statement carrying the RETURN token |
| ParserTests.ReturnWithoutSemicolonStream | src/parser.rs:90-92 | the tokens of `return 5` without a semicolon make the parse never end |
| ParserTests.LetWithoutIdentifierStream | src/parser.rs:50-71 | the tokens of `let = 5;` make the parse panic in `todo!()` |
| ParserTests.LetStatementTest | src/parser.rs:114-151 | parsing the `let` test's text gives five statements, the first `let` binding `five` with literal "five" |
| ParserTests.ReturnStatementTest | src/parser.rs:153-171 | parsing the `return` test's text gives one statement, the return statement carrying RETURN with literal "return" |
| ParserTests.ReturnWithoutSemicolonTest | src/parser.rs:90-92 | parsing the text `return 5` never ends |
| ParserTests.LetWithoutIdentifierTest | src/parser.rs:50-71 | parsing the text `let = 5;` panics in `todo!()` |

## Left out

- src/main.rs, a demo driver that prints tokens, is I/O and is not part of this model.
- The `println!` calls in `next_token` and `parse_let_statement`: output only.
- The snapshot test (src/lexer.rs:272-301) and the `serde` derives: they need the snapshot
  files and a JSON serializer, neither of which is part of this model.
- Byte offsets versus character indices. The source mixes `len()` and slicing (bytes) with
  `chars().nth` (characters). The model indexes characters, so it does not capture the
  "read out of range" panic or the shifted slices that non-ASCII text would cause.
- `Clone` of tokens and the borrow of the input by the lexer (`&'a str`): a token is a value,
  and the lexer holds the input as a constant field.
- Non-termination is the outcome `Hang`, not a loop that runs forever. The model stops the
  return loop at the first point from which the source would spin forever.
- Parsing.Parser.ParseExpressionStatement has no contract of its own. Its result, the
  "Nothing" placeholder, is stated by `ParserSpec.StatementAt` and
  `ParserProperties.StatementKinds`.
- Lexing.Lexer.ReadString: only modelled with the cursor inside the input, which is how
  `next_token` calls it. With the cursor at the end, the source slices past the input and panics.
- Lexing.Lexer.ReadNumber and Lexing.Lexer.ReadIdentifier: only modelled with the cursor at most
  at the end of the input, which is how `next_token` calls them. Beyond that, the source slices
  past the input and panics.
