/** Tokens: the closed set of token kinds, the token value, the keyword table and the rendering
    of kinds and tokens for display. */
module Tokens {
  import opened Decimal

  /** Rust's `i64`, the payload of an integer token. */
  newtype i64 = x: int | -0x8000_0000_0000_0000 <= x < 0x8000_0000_0000_0000

  /** Every kind of token. Equality is structural, payloads included. `Bang`, `Asterisk`, `Slash`,
      `Lt`, `Gt`, `NotEq`, `Colon`, `LBracket` and `RBracket` are declared but never lexed. */
  datatype TokenKind =
    | Illegal
    | Eof
      // identifiers and literals
    | Ident(name: string)
    | Int(value: i64)
    | Str(text: string)
      // operators
    | Assign | Plus | Minus | Bang | Asterisk | Slash | Lt | Gt | Eq | NotEq
      // delimiters
    | Comma | Semicolon | Colon | LParen | RParen | LBrace | RBrace | LBracket | RBracket
      // keywords
    | Function | Let | True | False | If | Else | Return

  /** A token: its kind and the literal text the lexer attached to it. */
  datatype Token = Token(kind: TokenKind, literal: string)

  predicate HasPayload(k: TokenKind) {
    k.Ident? || k.Int? || k.Str?
  }

  predicate IsKeyword(k: TokenKind) {
    k.Function? || k.Let? || k.True? || k.False? || k.If? || k.Else? || k.Return?
  }

  /** The source text of each keyword. */
  function KeywordText(k: TokenKind): string
    requires IsKeyword(k)
  {
    match k
    case Function => "fn"
    case Let => "let"
    case True => "true"
    case False => "false"
    case If => "if"
    case Else => "else"
    case Return => "return"
  }

  /** Classifies a scanned word: a keyword kind when the word is a keyword's text, an identifier
      carrying the word otherwise. */
  function LookupIdentifier(identifier: string): (k: TokenKind)
    ensures IsKeyword(k) || k == Ident(identifier)
    ensures IsKeyword(k) ==> KeywordText(k) == identifier
  {
    if identifier == "fn" then Function
    else if identifier == "let" then Let
    else if identifier == "true" then True
    else if identifier == "false" then False
    else if identifier == "if" then If
    else if identifier == "else" then Else
    else if identifier == "return" then Return
    else Ident(identifier)
  }

  /** Looking up a keyword's text gives that keyword back, so a word becomes an identifier
      exactly when it is no keyword's text. */
  lemma KeywordRoundTrip(k: TokenKind)
    requires IsKeyword(k)
    ensures LookupIdentifier(KeywordText(k)) == k
  {
  }

  /** The `Display` rendering of a kind. */
  function KindDisplay(k: TokenKind): (s: string)
    ensures k.Ident? ==> s == k.name
    ensures k.Int? ==> s == IntToString(k.value as int)
    ensures k.Str? ==> s == k.text
    ensures !HasPayload(k) ==> |s| >= 1
  {
    match k
    case Ident(name) => name
    case Int(i) => IntToString(i as int)
    case Str(s) => s
    case Assign => "ASSIGN"
    case Plus => "+"
    case Minus => "-"
    case Bang => "!"
    case Asterisk => "*"
    case Slash => "/"
    case Lt => "<"
    case Gt => ">"
    case Eq => "EQ"
    case NotEq => "!="
    case Comma => "COMMA"
    case Semicolon => "SEMICOLON"
    case LParen => "("
    case RParen => ")"
    case LBrace => "{"
    case RBrace => "}"
    case LBracket => "["
    case RBracket => "]"
    case Function => "fn"
    case Let => "LET"
    case True => "TRUE"
    case False => "FALSE"
    case If => "if"
    case Else => "else"
    case Return => "return"
    case Illegal => "ILLEGAL"
    case Eof => "EOF"
    case Colon => "COLON"
  }

  /** Reads a payload-free kind back from its rendering, by length and the first and third
      characters. */
  ghost function KindOfDisplay(s: string): TokenKind {
    if |s| == 0 then Illegal
    else match s[0]
      case '+' => Plus
      case '-' => Minus
      case '!' => if |s| == 1 then Bang else NotEq
      case '*' => Asterisk
      case '/' => Slash
      case '<' => Lt
      case '>' => Gt
      case '(' => LParen
      case ')' => RParen
      case '{' => LBrace
      case '}' => RBrace
      case '[' => LBracket
      case ']' => RBracket
      case 'A' => Assign
      case 'E' => if |s| == 2 then Eq else Eof
      case 'C' => if |s| >= 3 && s[2] == 'M' then Comma else Colon
      case 'S' => Semicolon
      case 'f' => Function
      case 'L' => Let
      case 'T' => True
      case 'F' => False
      case 'i' => If
      case 'e' => Else
      case 'r' => Return
      case _ => Illegal
  }

  /** A payload-free kind can be read back from its rendering. */
  lemma KindDisplayInverse(k: TokenKind)
    requires !HasPayload(k)
    ensures KindOfDisplay(KindDisplay(k)) == k
  {
    match k {
      case Assign => case Plus => case Minus => case Bang => case Asterisk => case Slash =>
      case Lt => case Gt => case Eq => case NotEq => case Comma => case Semicolon => case Colon =>
      case LParen => case RParen => case LBrace => case RBrace => case LBracket => case RBracket =>
      case Function => case Let => case True => case False => case If => case Else => case Return =>
      case Illegal => case Eof =>
    }
  }

  /** No two payload-free kinds share a rendering. */
  lemma KindDisplayInjective(a: TokenKind, b: TokenKind)
    requires !HasPayload(a) && !HasPayload(b)
    requires KindDisplay(a) == KindDisplay(b)
    ensures a == b
  {
    KindDisplayInverse(a);
    KindDisplayInverse(b);
  }

  /** A non-negative integer kind renders as the canonical numeral of its value. */
  lemma IntDisplayRoundTrip(v: i64)
    requires v >= 0
    ensures Canonical(KindDisplay(Int(v))) && DigitsValue(KindDisplay(Int(v))) == v as int
  {
  }

  /** The `Display` rendering of a token: "kind: " and the kind's rendering; the literal is not shown. */
  function TokenDisplay(t: Token): (s: string)
    ensures |s| >= 6 && s[..6] == "kind: " && s[6..] == KindDisplay(t.kind)
  {
    "kind: " + KindDisplay(t.kind)
  }
}
