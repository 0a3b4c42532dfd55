/** The parser's unit tests (src/parser.rs), and the multi-line program of the
    lexer's tests run through the parser. */
module ParsingExamples {
  import opened Wrappers
  import opened Lexing
  import opened LexingFacts
  import opened LexingExamples
  import opened Parsing
  import opened ParsingFacts

  const AddProgram: string := "add %r1 %r2"

  lemma AddStep1()
    ensures ScanToken(AddProgram, Start0) == Scanned(Ok(Op(ADD, 0, 4)), Cursor(4, 0, 4))
  {
    hide ScanToken, FromStr;
    var s := AddProgram;
    assert s[0..3] == "add" && s[3] == ' ';
    assert SkipSpace(s, Start0) == Start0;
    OpScan(s, Start0);
    WordEndIs(s, 0, 3);
    FromStrIgnoresCase();
  }

  lemma AddStep2()
    ensures ScanToken(AddProgram, Cursor(4, 0, 4)) == Scanned(Ok(Register("%r1", 0, 7)), Cursor(7, 0, 7))
  {
    hide ScanToken;
    var s := AddProgram;
    assert s[4..7] == "%r1";
    assert SkipSpace(s, Cursor(4, 0, 4)) == Cursor(4, 0, 4);
    RegisterScan(s, Cursor(4, 0, 4));
  }

  lemma AddStep3()
    ensures ScanToken(AddProgram, Cursor(7, 0, 7)) == Scanned(Ok(Register("%r2", 0, 11)), Cursor(11, 0, 11))
  {
    hide ScanToken;
    var s := AddProgram;
    assert s[7] == ' ' && s[8..11] == "%r2";
    SkipSpaces(s, Cursor(7, 0, 7), 8);
    RegisterScan(s, Cursor(7, 0, 7));
  }

  lemma AddStep4()
    ensures ScanToken(AddProgram, Cursor(11, 0, 11)) == Scanned(Ok(Token.EOF), Cursor(11, 0, 11))
  {
    hide ScanToken;
    EofIsStable(AddProgram, Cursor(11, 0, 11));
  }

  /** `test_next_token`: three tokens, then `None` on the fourth call; the
      counter has moved once per call. */
  lemma AddPulls()
    ensures Pull(AddProgram, Initial) == Pulled(Ok(Some(Op(ADD, 0, 4))), ParserState(Cursor(4, 0, 4), 1))
    ensures Pull(AddProgram, ParserState(Cursor(4, 0, 4), 1))
      == Pulled(Ok(Some(Register("%r1", 0, 7))), ParserState(Cursor(7, 0, 7), 2))
    ensures Pull(AddProgram, ParserState(Cursor(7, 0, 7), 2))
      == Pulled(Ok(Some(Register("%r2", 0, 11))), ParserState(Cursor(11, 0, 11), 3))
    ensures Pull(AddProgram, ParserState(Cursor(11, 0, 11), 3))
      == Pulled(Ok(None), ParserState(Cursor(11, 0, 11), 4))
  {
    hide ScanToken;
    AddStep1();
    AddStep2();
    AddStep3();
    AddStep4();
  }

  /** `test_next_token` on the parser object itself. */
  method NextTokenTest() returns (pulled: seq<Result<Option<Token>, LexError>>)
    ensures pulled == [Ok(Some(Op(ADD, 0, 4))), Ok(Some(Register("%r1", 0, 7))),
                       Ok(Some(Register("%r2", 0, 11))), Ok(None)]
  {
    AddPulls();
    var p := new Parser(AddProgram);
    var t1 := p.NextToken();
    var t2 := p.NextToken();
    var t3 := p.NextToken();
    var t4 := p.NextToken();
    pulled := [t1, t2, t3, t4];
  }

  /** `test_handle_expression`: one expression holding both registers. */
  lemma AddParses()
    ensures Parse(AddProgram) == Ok([Expr(Expression(Op(ADD, 0, 4), Register("%r1", 0, 7), Some(Register("%r2", 0, 11))))])
  {
    hide ScanToken;
    var op, r1, r2 := Op(ADD, 0, 4), Register("%r1", 0, 7), Register("%r2", 0, 11);
    AddStep1();
    AddStep2();
    AddStep3();
    AddStep4();
    TokensChain(AddProgram, [Start0, Cursor(4, 0, 4), Cursor(7, 0, 7), Cursor(11, 0, 11)], [op, r1, r2]);
    assert Tokens(AddProgram, Initial.cursor) == Ok([op, r1, r2]);
    assert [op] + ([r1] + ([r2] + [])) == [op, r1, r2];
    var e := Expr(Expression(op, r1, Some(r2)));
    GroupFull(op, r1, r2, [], 0);
    assert Group([], 3) == Some([]) && [e] + [] == [e];
    assert Group([op, r1, r2], 0) == Some([e]);
    ParseIsGrouping(AddProgram, Initial, []);
    assert [] + [e] == [e];
  }

  /** `test_handle_expression` on the parser object itself. */
  method ParseTest() returns (r: Result<seq<Production>, ParseError>)
    ensures r == Ok([Expr(Expression(Op(ADD, 0, 4), Register("%r1", 0, 7), Some(Register("%r2", 0, 11))))])
  {
    AddParses();
    var p := new Parser(AddProgram);
    r := p.Parse();
  }

  /** The multi-line program of the lexer's tests: the label gets pull number
      1, the first expression is built, and the immediate `1` where `SUB`
      expects its second register is refused. */
  lemma SampleParse()
    ensures Parse(Sample) == Err(ExpectedRegister(Immediate("1", 2, 22)))
  {
    hide ScanToken;
    var s := Sample;
    var main := Label(Ident(".main", 0, 6), 1);
    var add := Expr(Expression(Op(ADD, 1, 16), Register("%r1", 1, 19), Some(Register("%r2", 1, 23))));
    SampleStep1();
    SampleStep2();
    SampleStep3();
    SampleStep4();
    SampleStep5();
    SampleStep6();
    SampleStep7();
    ParseStep(s, Initial, []);
    ParseStep(s, ParserState(Cursor(6, 0, 6), 1), [main]);
    BuildSteps(s, ParserState(Cursor(23, 1, 16), 2), Op(ADD, 1, 16));
    ParseStep(s, ParserState(Cursor(30, 1, 23), 4), [main, add]);
    BuildSteps(s, ParserState(Cursor(47, 2, 16), 5), Op(SUB, 2, 16));
  }

  /** In `7 %` the bare sigil does not lex, but `parse` refuses the immediate
      where a production starts before it pulls the sigil. */
  lemma GrammarBeforeLexing()
    ensures Tokens("7 %", Start0) == Err(ExpectedRegisterName)
    ensures Parse("7 %") == Err(IncorrectToken(Immediate("7", 0, 2)))
  {
    hide ScanToken;
    var s := "7 %";
    assert |s| == 3 && s[0] == '7' && s[1] == ' ' && s[2] == '%';
    assert SkipSpace(s, Start0) == Start0;
    ImmediateScan(s, Start0);
    assert DigitsEnd(s, 0) == 1 && s[0..1] == "7";
    assert ScanToken(s, Start0) == Scanned(Ok(Immediate("7", 0, 2)), Cursor(2, 0, 2));
    assert SkipSpace(s, Cursor(2, 0, 2)) == Cursor(2, 0, 2);
    RegisterErrors(s, Cursor(2, 0, 2));
    TokensAfter(s, Start0, Immediate("7", 0, 2), Cursor(2, 0, 2));
    ParseStep(s, Initial, []);
  }

  const AddThenSigil: string := "add %r1 %r2 %"

  lemma SigilStep1()
    ensures ScanToken(AddThenSigil, Start0) == Scanned(Ok(Op(ADD, 0, 4)), Cursor(4, 0, 4))
  {
    hide ScanToken, FromStr;
    var s := AddThenSigil;
    assert s[0..3] == "add" && s[3] == ' ';
    assert SkipSpace(s, Start0) == Start0;
    OpScan(s, Start0);
    WordEndIs(s, 0, 3);
    FromStrIgnoresCase();
  }

  lemma SigilStep2()
    ensures ScanToken(AddThenSigil, Cursor(4, 0, 4)) == Scanned(Ok(Register("%r1", 0, 7)), Cursor(7, 0, 7))
    ensures ScanToken(AddThenSigil, Cursor(7, 0, 7)) == Scanned(Ok(Register("%r2", 0, 11)), Cursor(11, 0, 11))
  {
    hide ScanToken;
    var s := AddThenSigil;
    assert s[4..7] == "%r1" && s[7] == ' ' && s[8..11] == "%r2";
    assert SkipSpace(s, Cursor(4, 0, 4)) == Cursor(4, 0, 4);
    RegisterScan(s, Cursor(4, 0, 4));
    SkipSpaces(s, Cursor(7, 0, 7), 8);
    RegisterScan(s, Cursor(7, 0, 7));
  }

  lemma SigilStep3()
    ensures ScanToken(AddThenSigil, Cursor(11, 0, 11)).token == Err(ExpectedRegisterName)
  {
    hide ScanToken;
    var s := AddThenSigil;
    assert |s| == 13 && s[11] == ' ' && s[12] == '%';
    SkipSpaces(s, Cursor(11, 0, 11), 12);
    RegisterErrors(s, Cursor(11, 0, 11));
  }

  /** When a complete expression comes before the bare sigil, `parse` reports
      the lexer's error. */
  lemma LexingAfterExpression()
    ensures Parse(AddThenSigil) == Err(Lexical(ExpectedRegisterName))
  {
    hide ScanToken;
    var s := AddThenSigil;
    var op, r1, r2 := Op(ADD, 0, 4), Register("%r1", 0, 7), Register("%r2", 0, 11);
    SigilStep1();
    SigilStep2();
    SigilStep3();
    ParseStep(s, Initial, []);
    BuildSteps(s, ParserState(Cursor(4, 0, 4), 1), op);
    ParseStep(s, ParserState(Cursor(11, 0, 11), 3), [Expr(Expression(op, r1, Some(r2)))]);
  }
}
