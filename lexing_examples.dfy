/** The concrete inputs of the lexer's unit tests, with the tokens and cursor
    positions those tests expect. */
module LexingExamples {
  import opened Wrappers
  import opened Lexing
  import opened LexingFacts

  const Start0 := Cursor(0, 0, 0)

  /** `test_consume`: `cur` on a fresh lexer over `A String` and after each of
      seven calls of `consume`. */
  method ConsumeTest() returns (seen: seq<Option<char>>)
    ensures seen == [Some('A'), Some(' '), Some('S'), Some('t'), Some('r'), Some('i'), Some('n'), Some('g')]
  {
    var s := "A String";
    assert |s| == 8 && s[0] == 'A' && s[1] == ' ' && s[2] == 'S' && s[3] == 't'
      && s[4] == 'r' && s[5] == 'i' && s[6] == 'n' && s[7] == 'g';
    var l := new Lexer(s);
    seen := [l.Cur()];
    l.Consume();
    seen := seen + [l.Cur()];
    l.Consume();
    seen := seen + [l.Cur()];
    l.Consume();
    seen := seen + [l.Cur()];
    l.Consume();
    seen := seen + [l.Cur()];
    l.Consume();
    seen := seen + [l.Cur()];
    l.Consume();
    seen := seen + [l.Cur()];
    l.Consume();
    seen := seen + [l.Cur()];
  }

  /** `test_ident`: `.label` ends at column 6, after its last character. */
  lemma IdentExampleBare()
    ensures ScanToken(".label", Start0) == Scanned(Ok(Ident(".label", 0, 6)), Cursor(6, 0, 6))
  {
    hide ScanToken;
    var s := ".label";
    assert |s| == 6 && s[0] == '.' && s[1] == 'l' && s[2] == 'a' && s[3] == 'b' && s[4] == 'e' && s[5] == 'l';
    assert SkipSpace(s, Start0) == Start0;
    IdentScan(s, Start0);
    WordEndIs(s, 1, 6);
    assert s[0..6] == s;
  }

  /** `test_ident`: in ` .label ` the leading space and the delimiting space
      both count, so the label ends at column 8. */
  lemma IdentExamplePadded()
    ensures ScanToken(" .label ", Start0).token == Ok(Ident(".label", 0, 8))
  {
    hide ScanToken;
    var s := " .label ";
    assert |s| == 8 && s[0] == ' ' && s[1] == '.' && s[2] == 'l' && s[3] == 'a' && s[4] == 'b'
      && s[5] == 'e' && s[6] == 'l' && s[7] == ' ';
    SkipSpaces(s, Start0, 1);
    IdentScan(s, Start0);
    WordEndIs(s, 2, 7);
    assert s[1..7] == ".label";
  }

  /** `test_ident`: a one-letter label. */
  lemma IdentExampleLetter()
    ensures ScanToken(".l", Start0).token == Ok(Ident(".l", 0, 2))
  {
    hide ScanToken;
    var s := ".l";
    assert |s| == 2 && s[0] == '.' && s[1] == 'l';
    assert SkipSpace(s, Start0) == Start0;
    IdentScan(s, Start0);
    WordEndIs(s, 1, 2);
    assert s[0..2] == s;
  }

  /** `test_ident`: a label body may be a digit. */
  lemma IdentExampleDigit()
    ensures ScanToken(".1", Start0).token == Ok(Ident(".1", 0, 2))
  {
    hide ScanToken;
    var s := ".1";
    assert |s| == 2 && s[0] == '.' && s[1] == '1';
    assert SkipSpace(s, Start0) == Start0;
    IdentScan(s, Start0);
    WordEndIs(s, 1, 2);
    assert s[0..2] == s;
  }

  /** `test_ident`: ` .1 ` ends at column 4. */
  lemma IdentExampleDigitPadded()
    ensures ScanToken(" .1 ", Start0).token == Ok(Ident(".1", 0, 4))
  {
    hide ScanToken;
    var s := " .1 ";
    assert |s| == 4 && s[0] == ' ' && s[1] == '.' && s[2] == '1' && s[3] == ' ';
    SkipSpaces(s, Start0, 1);
    IdentScan(s, Start0);
    WordEndIs(s, 2, 3);
    assert s[1..3] == ".1";
  }

  /** A lone label marker at the end of input is the label `"."`, and the extra
      `consume` past the end adds a column; whitespace after the marker is an error. */
  lemma LoneMarkerExamples()
    ensures ScanToken(".", Start0) == Scanned(Ok(Ident(".", 0, 2)), Cursor(1, 0, 2))
    ensures ScanToken(". x", Start0).token == Err(EmptyLabel)
  {
    hide ScanToken;
    assert SkipSpace(".", Start0) == Start0;
    IdentScan(".", Start0);
    assert SkipSpace(". x", Start0) == Start0;
    IdentScan(". x", Start0);
  }

  /** `test_register`: `%r1` ends at column 3; calling `register` directly on
      `r1` with the sigil already in the buffer ends at column 2. */
  lemma RegisterExamples()
    ensures ScanToken("%r1", Start0) == Scanned(Ok(Register("%r1", 0, 3)), Cursor(3, 0, 3))
    ensures ScanRegister("r1", Start0, "%") == Scanned(Ok(Register("%r1", 0, 2)), Cursor(2, 0, 2))
    ensures ScanToken("%1r", Start0).token == Err(RegisterSyntax('1'))
    ensures ScanToken("%r", Start0).token == Err(ExpectedRegisterName)
  {
    hide ScanToken;
    var s := "%r1";
    assert SkipSpace(s, Start0) == Start0;
    RegisterScan(s, Start0);
    assert s[0..3] == s;
    assert "r1"[0] == 'r' && "r1"[1] == '1' && "%" + ['r', '1'] == "%r1";
    assert "%1r"[1] == '1' && !IsAlphabetic('1');
    assert SkipSpace("%1r", Start0) == Start0;
    RegisterErrors("%1r", Start0);
    assert |"%r"| == 2 && "%r"[1] == 'r' && IsAlphabetic('r');
    assert SkipSpace("%r", Start0) == Start0;
    RegisterErrors("%r", Start0);
  }

  /** Lowercasing `s` character by character gives `w`. */
  lemma Lowers(s: string, w: string)
    requires |s| == |w| && forall i :: 0 <= i < |s| ==> LowerChar(s[i]) == w[i]
    ensures ToLower(s) == w
  {
  }

  /** `from_str` ignores the case of `add`, `sub` and `mov`. */
  lemma FromStrIgnoresCase()
    ensures FromStr("ADD") == Ok(ADD) && FromStr("Sub") == Ok(SUB) && FromStr("mov") == Ok(MOV)
    ensures FromStr("add") == Ok(ADD) && FromStr("SUB") == Ok(SUB)
  {
    hide FromStr, ToLower;
    Lowers("ADD", "add");
    FromStrAccepts("ADD");
    Lowers("Sub", "sub");
    FromStrAccepts("Sub");
    Lowers("mov", "mov");
    FromStrAccepts("mov");
    Lowers("add", "add");
    FromStrAccepts("add");
    Lowers("SUB", "sub");
    FromStrAccepts("SUB");
  }

  /** `from_str` rejects the control mnemonics in the very spelling its table lists. */
  lemma FromStrRejectsControl()
    ensures FromStr("EQ") == Err(UnsupportedOperation("eq"))
    ensures FromStr("NEQ") == Err(UnsupportedOperation("neq"))
    ensures FromStr("JMP") == Err(UnsupportedOperation("jmp"))
  {
    hide FromStr, ToLower;
    Lowers("EQ", "eq");
    FromStrAccepts("EQ");
    Lowers("NEQ", "neq");
    FromStrAccepts("NEQ");
    Lowers("JMP", "jmp");
    FromStrAccepts("JMP");
  }

  /** The multi-line program of `test_parse_token`: the string continuation
      drops the first line break and indentation, the explicit `\n` and the real
      line break leave an empty line, and the next lines keep their 12-space
      indentation; the last line holds 8 spaces. */
  const Sample: string :=
    ".main\n\n" + "            " + "add %r1 %r2\n" + "            " + "SUB %r1 1\n" + "        "

  lemma SampleStep1()
    ensures ScanToken(Sample, Start0) == Scanned(Ok(Ident(".main", 0, 6)), Cursor(6, 0, 6))
  {
    hide ScanToken;
    var s := Sample;
    assert s[0] == '.' && s[1] == 'm' && s[2] == 'a' && s[3] == 'i' && s[4] == 'n' && s[5] == '\n';
    assert SkipSpace(s, Start0) == Start0;
    IdentScan(s, Start0);
    WordEndIs(s, 1, 5);
    assert s[0..5] == ".main";
  }

  /** The line feed and the indentation before `add`. */
  lemma SampleSkip2()
    ensures SkipSpace(Sample, Cursor(6, 0, 6)) == Cursor(19, 1, 12)
    ensures Sample[19..22] == "add" && Sample[22] == ' '
  {
    var s := Sample;
    assert s[6] == '\n' && s[19..22] == "add" && s[22] == ' ';
    SkipSpaces(s, Cursor(7, 1, 0), 19);
  }

  lemma SampleStep2()
    ensures ScanToken(Sample, Cursor(6, 0, 6)) == Scanned(Ok(Op(ADD, 1, 16)), Cursor(23, 1, 16))
  {
    hide ScanToken, FromStr, SkipSpace;
    var s := Sample;
    SampleSkip2();
    OpScan(s, Cursor(6, 0, 6));
    WordEndIs(s, 19, 22);
    FromStrIgnoresCase();
  }

  lemma SampleStep3()
    ensures ScanToken(Sample, Cursor(23, 1, 16)) == Scanned(Ok(Register("%r1", 1, 19)), Cursor(26, 1, 19))
  {
    hide ScanToken;
    var s := Sample;
    assert s[23..26] == "%r1";
    assert SkipSpace(s, Cursor(23, 1, 16)) == Cursor(23, 1, 16);
    RegisterScan(s, Cursor(23, 1, 16));
  }

  lemma SampleStep4()
    ensures ScanToken(Sample, Cursor(26, 1, 19)) == Scanned(Ok(Register("%r2", 1, 23)), Cursor(30, 1, 23))
  {
    hide ScanToken;
    var s := Sample;
    assert s[26] == ' ' && s[27..30] == "%r2";
    SkipSpaces(s, Cursor(26, 1, 19), 27);
    RegisterScan(s, Cursor(26, 1, 19));
  }

  /** The line feed and the indentation before `SUB`. */
  lemma SampleSkip5()
    ensures SkipSpace(Sample, Cursor(30, 1, 23)) == Cursor(43, 2, 12)
    ensures Sample[43..46] == "SUB" && Sample[46] == ' '
  {
    var s := Sample;
    assert s[30] == '\n' && s[43..46] == "SUB" && s[46] == ' ';
    SkipSpaces(s, Cursor(31, 2, 0), 43);
  }

  lemma SampleStep5()
    ensures ScanToken(Sample, Cursor(30, 1, 23)) == Scanned(Ok(Op(SUB, 2, 16)), Cursor(47, 2, 16))
  {
    hide ScanToken, FromStr, SkipSpace;
    var s := Sample;
    SampleSkip5();
    OpScan(s, Cursor(30, 1, 23));
    WordEndIs(s, 43, 46);
    FromStrIgnoresCase();
  }

  lemma SampleStep6()
    ensures ScanToken(Sample, Cursor(47, 2, 16)) == Scanned(Ok(Register("%r1", 2, 19)), Cursor(50, 2, 19))
  {
    hide ScanToken;
    var s := Sample;
    assert s[47..50] == "%r1";
    assert SkipSpace(s, Cursor(47, 2, 16)) == Cursor(47, 2, 16);
    RegisterScan(s, Cursor(47, 2, 16));
  }

  lemma SampleStep7()
    ensures ScanToken(Sample, Cursor(50, 2, 19)) == Scanned(Ok(Immediate("1", 2, 22)), Cursor(53, 2, 22))
  {
    hide ScanToken;
    var s := Sample;
    assert s[50] == ' ' && s[51] == '1' && s[52] == '\n';
    SkipSpaces(s, Cursor(50, 2, 19), 51);
    ImmediateScan(s, Cursor(50, 2, 19));
    DigitsEndIs(s, 51, 52);
    assert s[51..52] == "1";
  }

  lemma SampleStep8()
    ensures ScanToken(Sample, Cursor(53, 2, 22)) == Scanned(Ok(EOF), Cursor(61, 2, 30))
  {
    var s := Sample;
    assert |s| == 61 && s[53..] == "        ";
    SkipSpaces(s, Cursor(53, 2, 22), 61);
  }

  /** `test_parse_token`: the tokens of the multi-line program, each with the
      row and column the test expects; a newline that ends a token moves the
      column on and leaves the row alone. */
  lemma SampleTokens()
    ensures Tokens(Sample, Start0) == Ok([
      Ident(".main", 0, 6), Op(ADD, 1, 16), Register("%r1", 1, 19), Register("%r2", 1, 23),
      Op(SUB, 2, 16), Register("%r1", 2, 19), Immediate("1", 2, 22)])
  {
    hide ScanToken;
    var cs := [Start0, Cursor(6, 0, 6), Cursor(23, 1, 16), Cursor(26, 1, 19), Cursor(30, 1, 23),
               Cursor(47, 2, 16), Cursor(50, 2, 19), Cursor(53, 2, 22)];
    var ts := [Ident(".main", 0, 6), Op(ADD, 1, 16), Register("%r1", 1, 19), Register("%r2", 1, 23),
               Op(SUB, 2, 16), Register("%r1", 2, 19), Immediate("1", 2, 22)];
    assert |Sample| == 61;
    forall i | 0 <= i < |ts|
      ensures ts[i] != EOF && ScanToken(Sample, cs[i]) == Scanned(Ok(ts[i]), cs[i + 1])
    {
      if i == 0 { SampleStep1(); }
      else if i == 1 { SampleStep2(); }
      else if i == 2 { SampleStep3(); }
      else if i == 3 { SampleStep4(); }
      else if i == 4 { SampleStep5(); }
      else if i == 5 { SampleStep6(); }
      else { SampleStep7(); }
    }
    SampleStep8();
    TokensChain(Sample, cs, ts);
  }
}
