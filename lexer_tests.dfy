/** The lexer's own test inputs, and inputs that show how comments are skipped. Each lemma is
    stated for any string spelled like the test input, character by character. */
module LexerTests {
  import opened Outcomes
  import opened Decimal
  import opened Tokens
  import opened LexerSpec
  import opened LexerProperties

  /** The characters of `input` from index `at` on are those of `text`. */
  predicate SpellsAt(input: string, at: nat, text: string) {
    at + |text| <= |input| &&
    forall k {:trigger input[k]} :: at <= k < at + |text| ==> input[k] == text[k - at]
  }

  predicate Spells(input: string, text: string) {
    |input| == |text| && SpellsAt(input, 0, text)
  }

  /** `=+(){},;==` lexes to ASSIGN PLUS LPAREN RPAREN LBRACE RBRACE COMMA SEMICOLON EQ EOF. */
  lemma PunctuationTest(input: string)
    requires Spells(input, "=+(){},;==")
    ensures Scan(input, 0, 10) ==
      [Ok(Token(Assign, "=")), Ok(Token(Plus, "+")), Ok(Token(LParen, "(")), Ok(Token(RParen, ")")),
       Ok(Token(LBrace, "{")), Ok(Token(RBrace, "}")), Ok(Token(Comma, ",")),
       Ok(Token(Semicolon, ";")), Ok(Token(Eq, "=")), Ok(EofToken)]
  {
    ScanFromSteps(input, [0, 1, 2, 3, 4, 5, 6, 7, 8, 10, 11],
      [Ok(Token(Assign, "=")), Ok(Token(Plus, "+")), Ok(Token(LParen, "(")), Ok(Token(RParen, ")")),
       Ok(Token(LBrace, "{")), Ok(Token(RBrace, "}")), Ok(Token(Comma, ",")),
       Ok(Token(Semicolon, ";")), Ok(Token(Eq, "=")), Ok(EofToken)]);
  }

  /** The input of the mixed lexer test, twelve characters at a time. */
  predicate IsMixedInput(input: string) {
    |input| == 142 &&
    SpellsAt(input, 0, "\n        let") &&
    SpellsAt(input, 12, " five = 5;") &&
    SpellsAt(input, 22, "\n\n") &&
    SpellsAt(input, 24, "        let ") &&
    SpellsAt(input, 36, "six=6;\n     ") &&
    SpellsAt(input, 48, "   let msg =") &&
    SpellsAt(input, 60, " \"HelloWorld") &&
    SpellsAt(input, 72, "!\";\n\n       ") &&
    SpellsAt(input, 84, " // this is ") &&
    SpellsAt(input, 96, "a comment\n  ") &&
    SpellsAt(input, 108, "      let x ") &&
    SpellsAt(input, 120, "= five + six") &&
    SpellsAt(input, 132, ";\n        ")
  }

  lemma MixedStep0(input: string)
    requires SpellsAt(input, 0, "\n        let") && SpellsAt(input, 12, " five = 5;")
    ensures Lex(input, 0) == Step(Ok(Token(Let, "let")), 12)
  {
    assert RunEnd(input, 0, Whitespace) == 9 by {
      assert RunEnd(input, 9, Whitespace) == 9;
      assert RunEnd(input, 8, Whitespace) == 9;
      assert RunEnd(input, 7, Whitespace) == 9;
      assert RunEnd(input, 6, Whitespace) == 9;
      assert RunEnd(input, 5, Whitespace) == 9;
      assert RunEnd(input, 4, Whitespace) == 9;
      assert RunEnd(input, 3, Whitespace) == 9;
      assert RunEnd(input, 2, Whitespace) == 9;
      assert RunEnd(input, 1, Whitespace) == 9;
    }
    assert TokenStart(input, 0) == 9;
    assert RunEnd(input, 9, Letters) == 12 by {
      assert RunEnd(input, 12, Letters) == 12;
      assert RunEnd(input, 11, Letters) == 12;
      assert RunEnd(input, 10, Letters) == 12;
    }
    assert input[9..12] == "let";
    assert LookupIdentifier("let") == Let;
  }

  lemma MixedStep1(input: string)
    requires SpellsAt(input, 12, " five = 5;")
    ensures Lex(input, 12) == Step(Ok(Token(Ident("five"), "five")), 17)
  {
    assert RunEnd(input, 12, Whitespace) == 13 by {
      assert RunEnd(input, 13, Whitespace) == 13;
    }
    assert TokenStart(input, 12) == 13;
    assert RunEnd(input, 13, Letters) == 17 by {
      assert RunEnd(input, 17, Letters) == 17;
      assert RunEnd(input, 16, Letters) == 17;
      assert RunEnd(input, 15, Letters) == 17;
      assert RunEnd(input, 14, Letters) == 17;
    }
    assert input[13..17] == "five";
    assert LookupIdentifier("five") == Ident("five");
  }

  lemma MixedStep2(input: string)
    requires SpellsAt(input, 12, " five = 5;")
    ensures Lex(input, 17) == Step(Ok(Token(Assign, "=")), 19)
  {
    assert RunEnd(input, 17, Whitespace) == 18 by {
      assert RunEnd(input, 18, Whitespace) == 18;
    }
    assert TokenStart(input, 17) == 18;
  }

  lemma MixedStep3(input: string)
    requires SpellsAt(input, 12, " five = 5;")
    ensures Lex(input, 19) == Step(Ok(Token(Int(5), "5")), 21)
  {
    assert RunEnd(input, 19, Whitespace) == 20 by {
      assert RunEnd(input, 20, Whitespace) == 20;
    }
    assert TokenStart(input, 19) == 20;
    assert RunEnd(input, 20, Digits) == 21 by {
      assert RunEnd(input, 21, Digits) == 21;
    }
    assert input[20..21] == "5";
    assert DigitsValue("5") == 5 && NatToString(5) == "5";
  }

  lemma MixedStep4(input: string)
    requires SpellsAt(input, 12, " five = 5;")
    ensures Lex(input, 21) == Step(Ok(Token(Semicolon, ";")), 22)
  {
    assert RunEnd(input, 21, Whitespace) == 21 by {
    }
    assert TokenStart(input, 21) == 21;
  }

  lemma MixedStep5(input: string)
    requires SpellsAt(input, 22, "\n\n") && SpellsAt(input, 24, "        let ")
    ensures Lex(input, 22) == Step(Ok(Token(Let, "let")), 35)
  {
    assert RunEnd(input, 22, Whitespace) == 32 by {
      assert RunEnd(input, 32, Whitespace) == 32;
      assert RunEnd(input, 31, Whitespace) == 32;
      assert RunEnd(input, 30, Whitespace) == 32;
      assert RunEnd(input, 29, Whitespace) == 32;
      assert RunEnd(input, 28, Whitespace) == 32;
      assert RunEnd(input, 27, Whitespace) == 32;
      assert RunEnd(input, 26, Whitespace) == 32;
      assert RunEnd(input, 25, Whitespace) == 32;
      assert RunEnd(input, 24, Whitespace) == 32;
      assert RunEnd(input, 23, Whitespace) == 32;
    }
    assert TokenStart(input, 22) == 32;
    assert RunEnd(input, 32, Letters) == 35 by {
      assert RunEnd(input, 35, Letters) == 35;
      assert RunEnd(input, 34, Letters) == 35;
      assert RunEnd(input, 33, Letters) == 35;
    }
    assert input[32..35] == "let";
    assert LookupIdentifier("let") == Let;
  }

  lemma MixedStep6(input: string)
    requires SpellsAt(input, 24, "        let ") && SpellsAt(input, 36, "six=6;\n     ")
    ensures Lex(input, 35) == Step(Ok(Token(Ident("six"), "six")), 39)
  {
    assert RunEnd(input, 35, Whitespace) == 36 by {
      assert RunEnd(input, 36, Whitespace) == 36;
    }
    assert TokenStart(input, 35) == 36;
    assert RunEnd(input, 36, Letters) == 39 by {
      assert RunEnd(input, 39, Letters) == 39;
      assert RunEnd(input, 38, Letters) == 39;
      assert RunEnd(input, 37, Letters) == 39;
    }
    assert input[36..39] == "six";
    assert LookupIdentifier("six") == Ident("six");
  }

  lemma MixedStep7(input: string)
    requires SpellsAt(input, 36, "six=6;\n     ")
    ensures Lex(input, 39) == Step(Ok(Token(Assign, "=")), 40)
  {
    assert RunEnd(input, 39, Whitespace) == 39 by {
    }
    assert TokenStart(input, 39) == 39;
  }

  lemma MixedStep8(input: string)
    requires SpellsAt(input, 36, "six=6;\n     ")
    ensures Lex(input, 40) == Step(Ok(Token(Int(6), "6")), 41)
  {
    assert RunEnd(input, 40, Whitespace) == 40 by {
    }
    assert TokenStart(input, 40) == 40;
    assert RunEnd(input, 40, Digits) == 41 by {
      assert RunEnd(input, 41, Digits) == 41;
    }
    assert input[40..41] == "6";
    assert DigitsValue("6") == 6 && NatToString(6) == "6";
  }

  lemma MixedStep9(input: string)
    requires SpellsAt(input, 36, "six=6;\n     ")
    ensures Lex(input, 41) == Step(Ok(Token(Semicolon, ";")), 42)
  {
    assert RunEnd(input, 41, Whitespace) == 41 by {
    }
    assert TokenStart(input, 41) == 41;
  }

  lemma MixedStep10(input: string)
    requires SpellsAt(input, 36, "six=6;\n     ") && SpellsAt(input, 48, "   let msg =")
    ensures Lex(input, 42) == Step(Ok(Token(Let, "let")), 54)
  {
    assert RunEnd(input, 42, Whitespace) == 51 by {
      assert RunEnd(input, 51, Whitespace) == 51;
      assert RunEnd(input, 50, Whitespace) == 51;
      assert RunEnd(input, 49, Whitespace) == 51;
      assert RunEnd(input, 48, Whitespace) == 51;
      assert RunEnd(input, 47, Whitespace) == 51;
      assert RunEnd(input, 46, Whitespace) == 51;
      assert RunEnd(input, 45, Whitespace) == 51;
      assert RunEnd(input, 44, Whitespace) == 51;
      assert RunEnd(input, 43, Whitespace) == 51;
    }
    assert TokenStart(input, 42) == 51;
    assert RunEnd(input, 51, Letters) == 54 by {
      assert RunEnd(input, 54, Letters) == 54;
      assert RunEnd(input, 53, Letters) == 54;
      assert RunEnd(input, 52, Letters) == 54;
    }
    assert input[51..54] == "let";
    assert LookupIdentifier("let") == Let;
  }

  lemma MixedStep11(input: string)
    requires SpellsAt(input, 48, "   let msg =")
    ensures Lex(input, 54) == Step(Ok(Token(Ident("msg"), "msg")), 58)
  {
    assert RunEnd(input, 54, Whitespace) == 55 by {
      assert RunEnd(input, 55, Whitespace) == 55;
    }
    assert TokenStart(input, 54) == 55;
    assert RunEnd(input, 55, Letters) == 58 by {
      assert RunEnd(input, 58, Letters) == 58;
      assert RunEnd(input, 57, Letters) == 58;
      assert RunEnd(input, 56, Letters) == 58;
    }
    assert input[55..58] == "msg";
    assert LookupIdentifier("msg") == Ident("msg");
  }

  lemma MixedStep12(input: string)
    requires SpellsAt(input, 48, "   let msg =") && SpellsAt(input, 60, " \"HelloWorld")
    ensures Lex(input, 58) == Step(Ok(Token(Assign, "=")), 60)
  {
    assert RunEnd(input, 58, Whitespace) == 59 by {
      assert RunEnd(input, 59, Whitespace) == 59;
    }
    assert TokenStart(input, 58) == 59;
  }

  lemma MixedStep13(input: string)
    requires SpellsAt(input, 60, " \"HelloWorld") && SpellsAt(input, 72, "!\";\n\n       ")
    ensures Lex(input, 60) == Step(Ok(Token(Str("HelloWorld!"), "HelloWorld!")), 74)
  {
    assert RunEnd(input, 60, Whitespace) == 61 by {
      assert RunEnd(input, 61, Whitespace) == 61;
    }
    assert TokenStart(input, 60) == 61;
    assert RunEnd(input, 62, StringBody) == 73 by {
      assert RunEnd(input, 73, StringBody) == 73;
      assert RunEnd(input, 72, StringBody) == 73;
      assert RunEnd(input, 71, StringBody) == 73;
      assert RunEnd(input, 70, StringBody) == 73;
      assert RunEnd(input, 69, StringBody) == 73;
      assert RunEnd(input, 68, StringBody) == 73;
      assert RunEnd(input, 67, StringBody) == 73;
      assert RunEnd(input, 66, StringBody) == 73;
      assert RunEnd(input, 65, StringBody) == 73;
      assert RunEnd(input, 64, StringBody) == 73;
      assert RunEnd(input, 63, StringBody) == 73;
    }
    assert input[62..73] == "HelloWorld!";
  }

  lemma MixedStep14(input: string)
    requires SpellsAt(input, 72, "!\";\n\n       ")
    ensures Lex(input, 74) == Step(Ok(Token(Semicolon, ";")), 75)
  {
    assert RunEnd(input, 74, Whitespace) == 74 by {
    }
    assert TokenStart(input, 74) == 74;
  }

  /** The whitespace, the comment and the line feed before the fourth `let` are skipped. */
  lemma MixedCommentSkipped(input: string)
    requires SpellsAt(input, 72, "!\";\n\n       ") && SpellsAt(input, 84, " // this is ") && SpellsAt(input, 96, "a comment\n  ") && SpellsAt(input, 108, "      let x ")
    ensures TokenStart(input, 75) == 114
  {
    assert RunEnd(input, 75, Whitespace) == 85 by {
      assert RunEnd(input, 85, Whitespace) == 85;
      assert RunEnd(input, 84, Whitespace) == 85;
      assert RunEnd(input, 83, Whitespace) == 85;
      assert RunEnd(input, 82, Whitespace) == 85;
      assert RunEnd(input, 81, Whitespace) == 85;
      assert RunEnd(input, 80, Whitespace) == 85;
      assert RunEnd(input, 79, Whitespace) == 85;
      assert RunEnd(input, 78, Whitespace) == 85;
      assert RunEnd(input, 77, Whitespace) == 85;
      assert RunEnd(input, 76, Whitespace) == 85;
    }
    assert RunEnd(input, 88, CommentBody) == 105 by {
      assert RunEnd(input, 105, CommentBody) == 105;
      assert RunEnd(input, 104, CommentBody) == 105;
      assert RunEnd(input, 103, CommentBody) == 105;
      assert RunEnd(input, 102, CommentBody) == 105;
      assert RunEnd(input, 101, CommentBody) == 105;
      assert RunEnd(input, 100, CommentBody) == 105;
      assert RunEnd(input, 99, CommentBody) == 105;
      assert RunEnd(input, 98, CommentBody) == 105;
      assert RunEnd(input, 97, CommentBody) == 105;
      assert RunEnd(input, 96, CommentBody) == 105;
      assert RunEnd(input, 95, CommentBody) == 105;
      assert RunEnd(input, 94, CommentBody) == 105;
      assert RunEnd(input, 93, CommentBody) == 105;
      assert RunEnd(input, 92, CommentBody) == 105;
      assert RunEnd(input, 91, CommentBody) == 105;
      assert RunEnd(input, 90, CommentBody) == 105;
      assert RunEnd(input, 89, CommentBody) == 105;
    }
    assert RunEnd(input, 106, Whitespace) == 114 by {
      assert RunEnd(input, 114, Whitespace) == 114;
      assert RunEnd(input, 113, Whitespace) == 114;
      assert RunEnd(input, 112, Whitespace) == 114;
      assert RunEnd(input, 111, Whitespace) == 114;
      assert RunEnd(input, 110, Whitespace) == 114;
      assert RunEnd(input, 109, Whitespace) == 114;
      assert RunEnd(input, 108, Whitespace) == 114;
      assert RunEnd(input, 107, Whitespace) == 114;
    }
  }

  lemma MixedStep15(input: string)
    requires SpellsAt(input, 72, "!\";\n\n       ") && SpellsAt(input, 84, " // this is ") && SpellsAt(input, 96, "a comment\n  ") && SpellsAt(input, 108, "      let x ")
    ensures Lex(input, 75) == Step(Ok(Token(Let, "let")), 117)
  {
    MixedCommentSkipped(input);
    assert RunEnd(input, 114, Letters) == 117 by {
      assert RunEnd(input, 117, Letters) == 117;
      assert RunEnd(input, 116, Letters) == 117;
      assert RunEnd(input, 115, Letters) == 117;
    }
    assert input[114..117] == "let";
    assert LookupIdentifier("let") == Let;
  }

  lemma MixedStep16(input: string)
    requires SpellsAt(input, 108, "      let x ")
    ensures Lex(input, 117) == Step(Ok(Token(Ident("x"), "x")), 119)
  {
    assert RunEnd(input, 117, Whitespace) == 118 by {
      assert RunEnd(input, 118, Whitespace) == 118;
    }
    assert TokenStart(input, 117) == 118;
    assert RunEnd(input, 118, Letters) == 119 by {
      assert RunEnd(input, 119, Letters) == 119;
    }
    assert input[118..119] == "x";
    assert LookupIdentifier("x") == Ident("x");
  }

  lemma MixedStep17(input: string)
    requires SpellsAt(input, 108, "      let x ") && SpellsAt(input, 120, "= five + six")
    ensures Lex(input, 119) == Step(Ok(Token(Assign, "=")), 121)
  {
    assert RunEnd(input, 119, Whitespace) == 120 by {
      assert RunEnd(input, 120, Whitespace) == 120;
    }
    assert TokenStart(input, 119) == 120;
  }

  lemma MixedStep18(input: string)
    requires SpellsAt(input, 120, "= five + six")
    ensures Lex(input, 121) == Step(Ok(Token(Ident("five"), "five")), 126)
  {
    assert RunEnd(input, 121, Whitespace) == 122 by {
      assert RunEnd(input, 122, Whitespace) == 122;
    }
    assert TokenStart(input, 121) == 122;
    assert RunEnd(input, 122, Letters) == 126 by {
      assert RunEnd(input, 126, Letters) == 126;
      assert RunEnd(input, 125, Letters) == 126;
      assert RunEnd(input, 124, Letters) == 126;
      assert RunEnd(input, 123, Letters) == 126;
    }
    assert input[122..126] == "five";
    assert LookupIdentifier("five") == Ident("five");
  }

  lemma MixedStep19(input: string)
    requires SpellsAt(input, 120, "= five + six")
    ensures Lex(input, 126) == Step(Ok(Token(Plus, "+")), 128)
  {
    assert RunEnd(input, 126, Whitespace) == 127 by {
      assert RunEnd(input, 127, Whitespace) == 127;
    }
    assert TokenStart(input, 126) == 127;
  }

  lemma MixedStep20(input: string)
    requires SpellsAt(input, 120, "= five + six") && SpellsAt(input, 132, ";\n        ")
    ensures Lex(input, 128) == Step(Ok(Token(Ident("six"), "six")), 132)
  {
    assert RunEnd(input, 128, Whitespace) == 129 by {
      assert RunEnd(input, 129, Whitespace) == 129;
    }
    assert TokenStart(input, 128) == 129;
    assert RunEnd(input, 129, Letters) == 132 by {
      assert RunEnd(input, 132, Letters) == 132;
      assert RunEnd(input, 131, Letters) == 132;
      assert RunEnd(input, 130, Letters) == 132;
    }
    assert input[129..132] == "six";
    assert LookupIdentifier("six") == Ident("six");
  }

  lemma MixedStep21(input: string)
    requires SpellsAt(input, 132, ";\n        ")
    ensures Lex(input, 132) == Step(Ok(Token(Semicolon, ";")), 133)
  {
    assert RunEnd(input, 132, Whitespace) == 132 by {
    }
    assert TokenStart(input, 132) == 132;
  }

  lemma MixedStep22(input: string)
    requires |input| == 142
    requires SpellsAt(input, 132, ";\n        ")
    ensures Lex(input, 133) == Step(Ok(EofToken), 143)
  {
    assert RunEnd(input, 133, Whitespace) == 142 by {
      assert RunEnd(input, 142, Whitespace) == 142;
      assert RunEnd(input, 141, Whitespace) == 142;
      assert RunEnd(input, 140, Whitespace) == 142;
      assert RunEnd(input, 139, Whitespace) == 142;
      assert RunEnd(input, 138, Whitespace) == 142;
      assert RunEnd(input, 137, Whitespace) == 142;
      assert RunEnd(input, 136, Whitespace) == 142;
      assert RunEnd(input, 135, Whitespace) == 142;
      assert RunEnd(input, 134, Whitespace) == 142;
    }
    assert TokenStart(input, 133) == 142;
  }

  lemma MixedGroup0(input: string)
    requires SpellsAt(input, 0, "\n        let") && SpellsAt(input, 12, " five = 5;")
    ensures Scan(input, 0, 3) == [Ok(Token(Let, "let")), Ok(Token(Ident("five"), "five")), Ok(Token(Assign, "="))]
    ensures PosAfter(input, 0, 3) == 19
  {
    MixedStep0(input);
    MixedStep1(input);
    MixedStep2(input);
    ScanFromSteps(input, [0, 12, 17, 19], [Ok(Token(Let, "let")), Ok(Token(Ident("five"), "five")), Ok(Token(Assign, "="))]);
  }

  lemma MixedGroup1(input: string)
    requires SpellsAt(input, 12, " five = 5;")
    ensures Scan(input, 19, 2) == [Ok(Token(Int(5), "5")), Ok(Token(Semicolon, ";"))]
    ensures PosAfter(input, 19, 2) == 22
  {
    MixedStep3(input);
    MixedStep4(input);
    ScanFromSteps(input, [19, 21, 22], [Ok(Token(Int(5), "5")), Ok(Token(Semicolon, ";"))]);
  }

  lemma MixedGroup2(input: string)
    requires SpellsAt(input, 22, "\n\n") && SpellsAt(input, 24, "        let ") && SpellsAt(input, 36, "six=6;\n     ")
    ensures Scan(input, 22, 3) == [Ok(Token(Let, "let")), Ok(Token(Ident("six"), "six")), Ok(Token(Assign, "="))]
    ensures PosAfter(input, 22, 3) == 40
  {
    MixedStep5(input);
    MixedStep6(input);
    MixedStep7(input);
    ScanFromSteps(input, [22, 35, 39, 40], [Ok(Token(Let, "let")), Ok(Token(Ident("six"), "six")), Ok(Token(Assign, "="))]);
  }

  lemma MixedGroup3(input: string)
    requires SpellsAt(input, 36, "six=6;\n     ")
    ensures Scan(input, 40, 2) == [Ok(Token(Int(6), "6")), Ok(Token(Semicolon, ";"))]
    ensures PosAfter(input, 40, 2) == 42
  {
    MixedStep8(input);
    MixedStep9(input);
    ScanFromSteps(input, [40, 41, 42], [Ok(Token(Int(6), "6")), Ok(Token(Semicolon, ";"))]);
  }

  lemma MixedGroup4(input: string)
    requires SpellsAt(input, 36, "six=6;\n     ") && SpellsAt(input, 48, "   let msg =") && SpellsAt(input, 60, " \"HelloWorld")
    ensures Scan(input, 42, 3) == [Ok(Token(Let, "let")), Ok(Token(Ident("msg"), "msg")), Ok(Token(Assign, "="))]
    ensures PosAfter(input, 42, 3) == 60
  {
    MixedStep10(input);
    MixedStep11(input);
    MixedStep12(input);
    ScanFromSteps(input, [42, 54, 58, 60], [Ok(Token(Let, "let")), Ok(Token(Ident("msg"), "msg")), Ok(Token(Assign, "="))]);
  }

  lemma MixedGroup5(input: string)
    requires SpellsAt(input, 60, " \"HelloWorld") && SpellsAt(input, 72, "!\";\n\n       ")
    ensures Scan(input, 60, 2) == [Ok(Token(Str("HelloWorld!"), "HelloWorld!")), Ok(Token(Semicolon, ";"))]
    ensures PosAfter(input, 60, 2) == 75
  {
    MixedStep13(input);
    MixedStep14(input);
    ScanFromSteps(input, [60, 74, 75], [Ok(Token(Str("HelloWorld!"), "HelloWorld!")), Ok(Token(Semicolon, ";"))]);
  }

  lemma MixedGroup6(input: string)
    requires SpellsAt(input, 72, "!\";\n\n       ") && SpellsAt(input, 84, " // this is ") && SpellsAt(input, 96, "a comment\n  ") && SpellsAt(input, 108, "      let x ") && SpellsAt(input, 120, "= five + six")
    ensures Scan(input, 75, 3) == [Ok(Token(Let, "let")), Ok(Token(Ident("x"), "x")), Ok(Token(Assign, "="))]
    ensures PosAfter(input, 75, 3) == 121
  {
    MixedStep15(input);
    MixedStep16(input);
    MixedStep17(input);
    ScanFromSteps(input, [75, 117, 119, 121], [Ok(Token(Let, "let")), Ok(Token(Ident("x"), "x")), Ok(Token(Assign, "="))]);
  }

  lemma MixedGroup7(input: string)
    requires SpellsAt(input, 120, "= five + six")
    ensures Scan(input, 121, 2) == [Ok(Token(Ident("five"), "five")), Ok(Token(Plus, "+"))]
    ensures PosAfter(input, 121, 2) == 128
  {
    MixedStep18(input);
    MixedStep19(input);
    ScanFromSteps(input, [121, 126, 128], [Ok(Token(Ident("five"), "five")), Ok(Token(Plus, "+"))]);
  }

  lemma MixedGroup8(input: string)
    requires SpellsAt(input, 120, "= five + six") && SpellsAt(input, 132, ";\n        ")
    ensures Scan(input, 128, 2) == [Ok(Token(Ident("six"), "six")), Ok(Token(Semicolon, ";"))]
    ensures PosAfter(input, 128, 2) == 133
  {
    MixedStep20(input);
    MixedStep21(input);
    ScanFromSteps(input, [128, 132, 133], [Ok(Token(Ident("six"), "six")), Ok(Token(Semicolon, ";"))]);
  }

  lemma MixedGroup9(input: string)
    requires |input| == 142
    requires SpellsAt(input, 132, ";\n        ")
    ensures Scan(input, 133, 1) == [Ok(EofToken)]
    ensures PosAfter(input, 133, 1) == 143
  {
    MixedStep22(input);
    ScanFromSteps(input, [133, 143], [Ok(EofToken)]);
  }

  lemma MixedLine0(input: string)
    requires Scan(input, 0, 3) == [Ok(Token(Let, "let")), Ok(Token(Ident("five"), "five")), Ok(Token(Assign, "="))]
    requires PosAfter(input, 0, 3) == 19
    requires Scan(input, 19, 2) == [Ok(Token(Int(5), "5")), Ok(Token(Semicolon, ";"))]
    requires PosAfter(input, 19, 2) == 22
    ensures Scan(input, 0, 5) == [Ok(Token(Let, "let")), Ok(Token(Ident("five"), "five")), Ok(Token(Assign, "=")), Ok(Token(Int(5), "5")), Ok(Token(Semicolon, ";"))]
    ensures PosAfter(input, 0, 5) == 22
  {
    ScanAppend(input, 0, 3, 2);
    PosAfterAppend(input, 0, 3, 2);
    assert [Ok(Token(Let, "let")), Ok(Token(Ident("five"), "five")), Ok(Token(Assign, "="))] + [Ok(Token(Int(5), "5")), Ok(Token(Semicolon, ";"))] == [Ok(Token(Let, "let")), Ok(Token(Ident("five"), "five")), Ok(Token(Assign, "=")), Ok(Token(Int(5), "5")), Ok(Token(Semicolon, ";"))];
  }

  lemma MixedLine1(input: string)
    requires Scan(input, 22, 3) == [Ok(Token(Let, "let")), Ok(Token(Ident("six"), "six")), Ok(Token(Assign, "="))]
    requires PosAfter(input, 22, 3) == 40
    requires Scan(input, 40, 2) == [Ok(Token(Int(6), "6")), Ok(Token(Semicolon, ";"))]
    requires PosAfter(input, 40, 2) == 42
    ensures Scan(input, 22, 5) == [Ok(Token(Let, "let")), Ok(Token(Ident("six"), "six")), Ok(Token(Assign, "=")), Ok(Token(Int(6), "6")), Ok(Token(Semicolon, ";"))]
    ensures PosAfter(input, 22, 5) == 42
  {
    ScanAppend(input, 22, 3, 2);
    PosAfterAppend(input, 22, 3, 2);
    assert [Ok(Token(Let, "let")), Ok(Token(Ident("six"), "six")), Ok(Token(Assign, "="))] + [Ok(Token(Int(6), "6")), Ok(Token(Semicolon, ";"))] == [Ok(Token(Let, "let")), Ok(Token(Ident("six"), "six")), Ok(Token(Assign, "=")), Ok(Token(Int(6), "6")), Ok(Token(Semicolon, ";"))];
  }

  lemma MixedLine2(input: string)
    requires Scan(input, 42, 3) == [Ok(Token(Let, "let")), Ok(Token(Ident("msg"), "msg")), Ok(Token(Assign, "="))]
    requires PosAfter(input, 42, 3) == 60
    requires Scan(input, 60, 2) == [Ok(Token(Str("HelloWorld!"), "HelloWorld!")), Ok(Token(Semicolon, ";"))]
    requires PosAfter(input, 60, 2) == 75
    ensures Scan(input, 42, 5) == [Ok(Token(Let, "let")), Ok(Token(Ident("msg"), "msg")), Ok(Token(Assign, "=")), Ok(Token(Str("HelloWorld!"), "HelloWorld!")), Ok(Token(Semicolon, ";"))]
    ensures PosAfter(input, 42, 5) == 75
  {
    ScanAppend(input, 42, 3, 2);
    PosAfterAppend(input, 42, 3, 2);
    assert [Ok(Token(Let, "let")), Ok(Token(Ident("msg"), "msg")), Ok(Token(Assign, "="))] + [Ok(Token(Str("HelloWorld!"), "HelloWorld!")), Ok(Token(Semicolon, ";"))] == [Ok(Token(Let, "let")), Ok(Token(Ident("msg"), "msg")), Ok(Token(Assign, "=")), Ok(Token(Str("HelloWorld!"), "HelloWorld!")), Ok(Token(Semicolon, ";"))];
  }

  lemma MixedLine3(input: string)
    requires Scan(input, 75, 3) == [Ok(Token(Let, "let")), Ok(Token(Ident("x"), "x")), Ok(Token(Assign, "="))]
    requires PosAfter(input, 75, 3) == 121
    requires Scan(input, 121, 2) == [Ok(Token(Ident("five"), "five")), Ok(Token(Plus, "+"))]
    requires PosAfter(input, 121, 2) == 128
    requires Scan(input, 128, 2) == [Ok(Token(Ident("six"), "six")), Ok(Token(Semicolon, ";"))]
    requires PosAfter(input, 128, 2) == 133
    ensures Scan(input, 75, 7) == [Ok(Token(Let, "let")), Ok(Token(Ident("x"), "x")), Ok(Token(Assign, "=")), Ok(Token(Ident("five"), "five")), Ok(Token(Plus, "+")), Ok(Token(Ident("six"), "six")), Ok(Token(Semicolon, ";"))]
    ensures PosAfter(input, 75, 7) == 133
  {
    ScanAppend(input, 121, 2, 2);
    PosAfterAppend(input, 121, 2, 2);
    ScanAppend(input, 75, 3, 4);
    PosAfterAppend(input, 75, 3, 4);
    assert [Ok(Token(Let, "let")), Ok(Token(Ident("x"), "x")), Ok(Token(Assign, "="))] + [Ok(Token(Ident("five"), "five")), Ok(Token(Plus, "+"))] + [Ok(Token(Ident("six"), "six")), Ok(Token(Semicolon, ";"))] == [Ok(Token(Let, "let")), Ok(Token(Ident("x"), "x")), Ok(Token(Assign, "=")), Ok(Token(Ident("five"), "five")), Ok(Token(Plus, "+")), Ok(Token(Ident("six"), "six")), Ok(Token(Semicolon, ";"))];
  }

  lemma MixedAssembly(input: string)
    requires Scan(input, 0, 5) == [Ok(Token(Let, "let")), Ok(Token(Ident("five"), "five")), Ok(Token(Assign, "=")), Ok(Token(Int(5), "5")), Ok(Token(Semicolon, ";"))]
    requires PosAfter(input, 0, 5) == 22
    requires Scan(input, 22, 5) == [Ok(Token(Let, "let")), Ok(Token(Ident("six"), "six")), Ok(Token(Assign, "=")), Ok(Token(Int(6), "6")), Ok(Token(Semicolon, ";"))]
    requires PosAfter(input, 22, 5) == 42
    requires Scan(input, 42, 5) == [Ok(Token(Let, "let")), Ok(Token(Ident("msg"), "msg")), Ok(Token(Assign, "=")), Ok(Token(Str("HelloWorld!"), "HelloWorld!")), Ok(Token(Semicolon, ";"))]
    requires PosAfter(input, 42, 5) == 75
    requires Scan(input, 75, 7) == [Ok(Token(Let, "let")), Ok(Token(Ident("x"), "x")), Ok(Token(Assign, "=")), Ok(Token(Ident("five"), "five")), Ok(Token(Plus, "+")), Ok(Token(Ident("six"), "six")), Ok(Token(Semicolon, ";"))]
    requires PosAfter(input, 75, 7) == 133
    requires Scan(input, 133, 1) == [Ok(EofToken)]
    requires PosAfter(input, 133, 1) == 143
    ensures Scan(input, 0, 23) ==
      [Ok(Token(Let, "let")), Ok(Token(Ident("five"), "five")), Ok(Token(Assign, "=")), Ok(Token(Int(5), "5")), Ok(Token(Semicolon, ";"))] +
      ([Ok(Token(Let, "let")), Ok(Token(Ident("six"), "six")), Ok(Token(Assign, "=")), Ok(Token(Int(6), "6")), Ok(Token(Semicolon, ";"))] +
      ([Ok(Token(Let, "let")), Ok(Token(Ident("msg"), "msg")), Ok(Token(Assign, "=")), Ok(Token(Str("HelloWorld!"), "HelloWorld!")), Ok(Token(Semicolon, ";"))] +
      ([Ok(Token(Let, "let")), Ok(Token(Ident("x"), "x")), Ok(Token(Assign, "=")), Ok(Token(Ident("five"), "five")), Ok(Token(Plus, "+")), Ok(Token(Ident("six"), "six")), Ok(Token(Semicolon, ";"))] +
      ([Ok(EofToken)]))))
  {
    ScanAppend(input, 75, 7, 1);
    ScanAppend(input, 42, 5, 8);
    ScanAppend(input, 22, 5, 13);
    ScanAppend(input, 0, 5, 18);
  }

  /** The mixed test: `let` statements over several lines, a string and a comment. */
  lemma MixedTest(input: string)
    requires IsMixedInput(input)
    ensures Scan(input, 0, 23) ==
      [Ok(Token(Let, "let")), Ok(Token(Ident("five"), "five")), Ok(Token(Assign, "=")), Ok(Token(Int(5), "5")), Ok(Token(Semicolon, ";"))] +
      ([Ok(Token(Let, "let")), Ok(Token(Ident("six"), "six")), Ok(Token(Assign, "=")), Ok(Token(Int(6), "6")), Ok(Token(Semicolon, ";"))] +
      ([Ok(Token(Let, "let")), Ok(Token(Ident("msg"), "msg")), Ok(Token(Assign, "=")), Ok(Token(Str("HelloWorld!"), "HelloWorld!")), Ok(Token(Semicolon, ";"))] +
      ([Ok(Token(Let, "let")), Ok(Token(Ident("x"), "x")), Ok(Token(Assign, "=")), Ok(Token(Ident("five"), "five")), Ok(Token(Plus, "+")), Ok(Token(Ident("six"), "six")), Ok(Token(Semicolon, ";"))] +
      ([Ok(EofToken)]))))
  {
    MixedGroup0(input);
    MixedGroup1(input);
    MixedGroup2(input);
    MixedGroup3(input);
    MixedGroup4(input);
    MixedGroup5(input);
    MixedGroup6(input);
    MixedGroup7(input);
    MixedGroup8(input);
    MixedGroup9(input);
    MixedLine0(input);
    MixedLine1(input);
    MixedLine2(input);
    MixedLine3(input);
    MixedAssembly(input);
  }

}
