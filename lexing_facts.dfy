/** What one call of `parse_token` promises, stated over the pure scan functions
    of module `Lexing` (which the `Lexer` methods are proved to follow). */
module LexingFacts {
  import opened Wrappers
  import opened Lexing

  /** The whitespace skipped before a token: `SkipSpace` stops at the first
      significant character and everything it passes over is whitespace. */
  lemma {:induction false} SkipSpaceStops(s: string, c: Cursor)
    requires c.pos <= |s|
    ensures var d := SkipSpace(s, c);
      && (forall k :: c.pos <= k < d.pos ==> IsWhitespace(s[k]))
      && (d.pos < |s| ==> !IsWhitespace(s[d.pos]))
    decreases |s| - c.pos
  {
    if c.pos < |s| && IsWhitespace(s[c.pos]) {
      SkipSpaceStops(s, SkipStep(s, c));
    }
  }

  /** Skipping whitespace adds one row per skipped newline. */
  lemma {:induction false} SkipSpaceRow(s: string, c: Cursor)
    requires c.pos <= |s|
    ensures var d := SkipSpace(s, c);
      d.row == c.row + Newlines(s[c.pos..d.pos])
    decreases |s| - c.pos
  {
    var d := SkipSpace(s, c);
    if c.pos < |s| && IsWhitespace(s[c.pos]) {
      SkipSpaceRow(s, SkipStep(s, c));
      assert s[c.pos..d.pos][1..] == s[c.pos + 1..d.pos];
    } else {
      assert s[c.pos..d.pos] == [];
    }
  }

  /** Skipping whitespace leaves `col` at the number of characters consumed
      since the last skipped newline, or advanced by the whole run when no
      newline was skipped. */
  lemma {:induction false} SkipSpaceCol(s: string, c: Cursor)
    requires c.pos <= |s|
    ensures var d := SkipSpace(s, c);
      && ('\n' !in s[c.pos..d.pos] ==> d.col == c.col + (d.pos - c.pos))
      && ('\n' in s[c.pos..d.pos] ==>
            d.col < d.pos - c.pos && s[d.pos - d.col - 1] == '\n' && '\n' !in s[d.pos - d.col..d.pos])
    decreases |s| - c.pos
  {
    var d := SkipSpace(s, c);
    if c.pos < |s| && IsWhitespace(s[c.pos]) {
      var c' := SkipStep(s, c);
      assert SkipSpace(s, c') == d;
      SkipSpaceCol(s, c');
      var run, rest := s[c.pos..d.pos], s[c.pos + 1..d.pos];
      assert run == [s[c.pos]] + rest;
      if '\n' in rest {
        assert '\n' in run;
      } else if s[c.pos] == '\n' {
        assert d.col == d.pos - c.pos - 1;
        assert s[d.pos - d.col..d.pos] == rest;
      } else {
        assert '\n' !in run;
      }
    } else {
      assert s[c.pos..d.pos] == [];
    }
  }

  /** `WordEnd` is determined by its contract: a run of non-whitespace from `i`
      that stops at whitespace or at the end of input ends at `WordEnd(s, i)`. */
  lemma {:induction false} WordEndIs(s: string, i: nat, j: nat)
    requires i <= j <= |s|
    requires forall k :: i <= k < j ==> !IsWhitespace(s[k])
    requires j == |s| || IsWhitespace(s[j])
    ensures WordEnd(s, i) == j
    decreases j - i
  {
    if i < j {
      WordEndIs(s, i + 1, j);
    }
  }

  /** `DigitsEnd` is determined by its contract in the same way. */
  lemma {:induction false} DigitsEndIs(s: string, i: nat, j: nat)
    requires i <= j <= |s|
    requires forall k :: i <= k < j ==> IsNumeric(s[k])
    requires j == |s| || !IsNumeric(s[j])
    ensures DigitsEnd(s, i) == j
    decreases j - i
  {
    if i < j {
      DigitsEndIs(s, i + 1, j);
    }
  }

  /** Skipping a run of spaces (no newline) advances the column by its length. */
  lemma {:induction false} SkipSpaces(s: string, c: Cursor, j: nat)
    requires c.pos <= j <= |s|
    requires forall k :: c.pos <= k < j ==> s[k] == ' '
    requires j == |s| || !IsWhitespace(s[j])
    ensures SkipSpace(s, c) == Cursor(j, c.row, c.col + (j - c.pos))
    decreases j - c.pos
  {
    if c.pos < j {
      SkipSpaces(s, Cursor(c.pos + 1, c.row, c.col + 1), j);
    }
  }

  /** Scanning one token `t` other than `EOF` puts it in front of the tokens
      that follow, whether those lex or not. */
  lemma TokensAfter(s: string, c: Cursor, t: Token, d: Cursor)
    requires c.pos <= |s| && ScanToken(s, c) == Scanned(Ok(t), d) && t != EOF
    ensures d.pos <= |s|
    ensures Tokens(s, c) == match Tokens(s, d) case Ok(ts) => Ok([t] + ts) case Err(e) => Err(e)
    ensures TokensBefore(s, c) == [t] + TokensBefore(s, d)
  {
    hide ScanToken;
  }

  /** A scan that returns `EOF` ends the token list. */
  lemma TokensNil(s: string, c: Cursor)
    requires c.pos <= |s|
    requires ScanToken(s, c).token == Ok(EOF)
    ensures Tokens(s, c) == Ok([])
  {
    hide ScanToken;
  }

  /** Successive scans from `cs[0]`, each leaving the cursor where the next one
      starts and the last one returning `EOF`, make up the token list. */
  lemma {:induction false} TokensChain(s: string, cs: seq<Cursor>, ts: seq<Token>)
    requires |cs| == |ts| + 1
    requires forall i :: 0 <= i < |cs| ==> cs[i].pos <= |s|
    requires forall i :: 0 <= i < |ts| ==> ts[i] != EOF && ScanToken(s, cs[i]) == Scanned(Ok(ts[i]), cs[i + 1])
    requires ScanToken(s, cs[|ts|]).token == Ok(EOF)
    ensures Tokens(s, cs[0]) == Ok(ts)
    decreases |ts|
  {
    hide ScanToken, Tokens;
    if ts == [] {
      TokensNil(s, cs[0]);
    } else {
      TokensChain(s, cs[1..], ts[1..]);
      TokensAfter(s, cs[0], ts[0], cs[1]);
      assert [ts[0]] + ts[1..] == ts;
    }
  }

  /** `parse_token` returns `EOF` exactly when nothing but whitespace is left. */
  lemma EofExactlyWhenBlank(s: string, c: Cursor)
    requires c.pos <= |s|
    ensures ScanToken(s, c).token == Ok(EOF) <==> forall k :: c.pos <= k < |s| ==> IsWhitespace(s[k])
  {
    SkipSpaceStops(s, c);
  }

  /** Once the input is exhausted, `parse_token` returns `EOF` and changes
      neither `row` nor `col`; after any `EOF` the next call returns `EOF`
      again from the same cursor, and no token is left. */
  lemma EofIsStable(s: string, c: Cursor)
    requires c.pos <= |s|
    ensures c.pos == |s| ==> ScanToken(s, c) == Scanned(Ok(EOF), c)
    ensures var r := ScanToken(s, c);
      r.token == Ok(EOF) ==>
        && r.next.pos == |s|
        && ScanToken(s, r.next) == Scanned(Ok(EOF), r.next)
        && Tokens(s, r.next) == Ok([])
  {
  }

  /** The position the first significant character sits at. */
  function Start(s: string, c: Cursor): nat
    requires c.pos <= |s|
  {
    SkipSpace(s, c).pos
  }

  /** Past the skipped whitespace, `parse_token` consumes the first significant
      character and dispatches on it. */
  lemma ScanTokenDispatch(s: string, c: Cursor)
    requires c.pos <= |s| && Start(s, c) < |s|
    ensures ScanToken(s, c) == Dispatch(s, Consumed(s, SkipSpace(s, c)), s[Start(s, c)])
  {
  }

  /** A slice is its first character followed by the rest. */
  lemma SliceCons(s: string, a: nat, j: nat)
    requires a < j <= |s|
    ensures [s[a]] + s[a + 1..j] == s[a..j]
  {
  }

  /** `register` called right after the sigil at `d.pos` was consumed. */
  lemma RegisterBody(s: string, d: Cursor)
    requires d.pos < |s| && s[d.pos] == '%'
    ensures var a, r := d.pos, ScanRegister(s, Consumed(s, d), [s[d.pos]]);
      && (r.token.Ok? <==> a + 3 <= |s| && IsAlphabetic(s[a + 1]) && !IsNumeric(s[a + 1]) && IsNumeric(s[a + 2]))
      && (r.token.Ok? ==> r == Scanned(Ok(Register(s[a..a + 3], d.row, d.col + 3)), Cursor(a + 3, d.row, d.col + 3)))
      && (a + 1 == |s| ==> r.token == Err(ExpectedRegisterName))
      && (a + 1 < |s| && IsWhitespace(s[a + 1]) ==> r.token == Err(RegisterWhitespace))
      && (a + 1 < |s| && !IsWhitespace(s[a + 1]) && !IsAlphabetic(s[a + 1]) ==> r.token == Err(RegisterSyntax(s[a + 1])))
      && (a + 1 < |s| && IsAlphabetic(s[a + 1]) && a + 2 == |s| ==> r.token == Err(ExpectedRegisterName))
      && (a + 2 < |s| && IsAlphabetic(s[a + 1]) && IsWhitespace(s[a + 2]) ==> r.token == Err(RegisterWhitespace))
      && (a + 2 < |s| && IsAlphabetic(s[a + 1]) && !IsWhitespace(s[a + 2]) && !IsNumeric(s[a + 2]) ==>
            r.token == Err(RegisterSyntax(s[a + 2])))
  {
    var a := d.pos;
    if a + 3 <= |s| {
      assert s[a..a + 3] == [s[a]] + [s[a + 1], s[a + 2]];
    }
  }

  /** A register is the sigil, one letter and one digit: `parse_token` succeeds
      on a `%` exactly then, the token's text is those three characters, and
      nothing after the digit is consumed. */
  lemma RegisterScan(s: string, c: Cursor)
    requires c.pos <= |s|
    requires Start(s, c) < |s| && s[Start(s, c)] == '%'
    ensures var a, d := Start(s, c), SkipSpace(s, c);
      && (ScanToken(s, c).token.Ok? <==>
            a + 3 <= |s| && IsAlphabetic(s[a + 1]) && !IsNumeric(s[a + 1]) && IsNumeric(s[a + 2]))
      && (ScanToken(s, c).token.Ok? ==>
            ScanToken(s, c) == Scanned(Ok(Register(s[a..a + 3], d.row, d.col + 3)), Cursor(a + 3, d.row, d.col + 3)))
  {
    var d := SkipSpace(s, c);
    ScanTokenDispatch(s, c);
    hide ScanToken, ScanRegister, ScanImmediate, ScanIdent, ScanOp;
    RegisterBody(s, d);
  }

  /** The end-of-input, whitespace and wrong-class cases of a register are
      each an error. */
  lemma RegisterErrors(s: string, c: Cursor)
    requires c.pos <= |s|
    requires Start(s, c) < |s| && s[Start(s, c)] == '%'
    ensures var a, t := Start(s, c), ScanToken(s, c).token;
      && (a + 1 == |s| ==> t == Err(ExpectedRegisterName))
      && (a + 1 < |s| && IsWhitespace(s[a + 1]) ==> t == Err(RegisterWhitespace))
      && (a + 1 < |s| && !IsWhitespace(s[a + 1]) && !IsAlphabetic(s[a + 1]) ==> t == Err(RegisterSyntax(s[a + 1])))
      && (a + 1 < |s| && IsAlphabetic(s[a + 1]) && a + 2 == |s| ==> t == Err(ExpectedRegisterName))
      && (a + 2 < |s| && IsAlphabetic(s[a + 1]) && IsWhitespace(s[a + 2]) ==> t == Err(RegisterWhitespace))
      && (a + 2 < |s| && IsAlphabetic(s[a + 1]) && !IsWhitespace(s[a + 2]) && !IsNumeric(s[a + 2]) ==>
            t == Err(RegisterSyntax(s[a + 2])))
  {
    var d := SkipSpace(s, c);
    ScanTokenDispatch(s, c);
    hide ScanToken, ScanRegister, ScanImmediate, ScanIdent, ScanOp;
    RegisterBody(s, d);
  }

  /** `intermediate` called right after the digit at `d.pos` was consumed. */
  lemma ImmediateBody(s: string, d: Cursor)
    requires d.pos < |s| && IsNumeric(s[d.pos])
    ensures var a, j := d.pos, DigitsEnd(s, d.pos);
      var r, e := ScanImmediate(s, Consumed(s, d), [s[d.pos]]), Delimited(s, d, j);
      && (r.token.Ok? <==> j == |s| || IsWhitespace(s[j]))
      && (r.token.Ok? ==> r == Scanned(Ok(Immediate(s[a..j], e.row, e.col)), e))
      && (r.token.Err? ==> r.token == Err(ExpectedNumber(s[j])))
  {
    var a, e := d.pos, Consumed(s, d);
    var j := DigitsEnd(s, a);
    assert DigitsEnd(s, e.pos) == j;
    assert Delimited(s, e, j) == Delimited(s, d, j);
    SliceCons(s, a, j);
  }

  /** An immediate is the dispatch digit and the digits after it. It is an
      error when a non-digit, non-whitespace character comes before the
      delimiter; otherwise its text is exactly the digits, and the delimiting
      whitespace is consumed but not kept. */
  lemma ImmediateScan(s: string, c: Cursor)
    requires c.pos <= |s|
    requires Start(s, c) < |s| && IsNumeric(s[Start(s, c)])
    ensures var a, d, j := Start(s, c), SkipSpace(s, c), DigitsEnd(s, Start(s, c));
      var e := Delimited(s, d, j);
      && (ScanToken(s, c).token.Ok? <==> j == |s| || IsWhitespace(s[j]))
      && (ScanToken(s, c).token.Ok? ==> ScanToken(s, c) == Scanned(Ok(Immediate(s[a..j], e.row, e.col)), e))
      && (ScanToken(s, c).token.Err? ==> ScanToken(s, c).token == Err(ExpectedNumber(s[j])))
  {
    var d := SkipSpace(s, c);
    ScanTokenDispatch(s, c);
    hide ScanToken, ScanRegister, ScanImmediate, ScanIdent, ScanOp;
    ImmediateBody(s, d);
  }

  /** `ident` on a label with at least one character after the marker. */
  lemma IdentWord(s: string, d: Cursor)
    requires d.pos + 1 < |s| && s[d.pos] == '.' && !IsWhitespace(s[d.pos + 1])
    ensures var a := d.pos;
      var j := WordEnd(s, a + 1);
      var e := Delimited(s, d, j);
      ScanIdent(s, Consumed(s, d), [s[d.pos]]) == Scanned(Ok(Ident(s[a..j], e.row, e.col)), e)
  {
    var a, e := d.pos, Consumed(s, d);
    var j := WordEnd(s, a + 1);
    var f := Consumed(s, e);
    assert WordEnd(s, f.pos) == j;
    assert Delimited(s, f, j) == Delimited(s, d, j);
    SliceCons(s, a + 1, j);
    SliceCons(s, a, j);
    assert ['.'] + [s[a + 1]] + s[a + 2..j] == [s[a]] + ([s[a + 1]] + s[a + 2..j]);
  }

  /** `ident` on a lone marker at the end of input: `consume` runs past the end once more. */
  lemma IdentLone(s: string, d: Cursor)
    requires d.pos + 1 == |s| && s[d.pos] == '.'
    ensures ScanIdent(s, Consumed(s, d), [s[d.pos]]) == Scanned(Ok(Ident(".", d.row, d.col + 2)), Cursor(|s|, d.row, d.col + 2))
  {
    assert WordEnd(s, |s|) == |s|;
    assert ['.'] + [] + s[|s|..|s|] == ".";
  }

  /** `ident` called right after the marker at `d.pos` was consumed. */
  lemma IdentBody(s: string, d: Cursor)
    requires d.pos < |s| && s[d.pos] == '.'
    ensures var a, r := d.pos, ScanIdent(s, Consumed(s, d), [s[d.pos]]);
      var j := WordEnd(s, a + 1);
      var e := Delimited(s, d, j);
      && (r.token.Ok? <==> !(a + 1 < |s| && IsWhitespace(s[a + 1])))
      && (r.token.Err? ==> r.token == Err(EmptyLabel))
      && (r.token.Ok? && a + 1 < |s| ==> r == Scanned(Ok(Ident(s[a..j], e.row, e.col)), e))
      && (a + 1 == |s| ==> r == Scanned(Ok(Ident(".", d.row, d.col + 2)), Cursor(|s|, d.row, d.col + 2)))
  {
    var a := d.pos;
    if a + 1 < |s| && !IsWhitespace(s[a + 1]) {
      IdentWord(s, d);
    } else if a + 1 == |s| {
      IdentLone(s, d);
    } else {
      assert ScanIdent(s, Consumed(s, d), [s[d.pos]]).token == Err(EmptyLabel);
    }
  }

  /** A label starts with its marker and runs to the next whitespace. Whitespace
      right after the marker is an error; a lone marker at the end of input
      gives the label `"."` with one extra column for the `consume` past the end. */
  lemma IdentScan(s: string, c: Cursor)
    requires c.pos <= |s|
    requires Start(s, c) < |s| && s[Start(s, c)] == '.'
    ensures var a, d := Start(s, c), SkipSpace(s, c);
      var j := WordEnd(s, a + 1);
      var e := Delimited(s, d, j);
      && (ScanToken(s, c).token.Ok? <==> !(a + 1 < |s| && IsWhitespace(s[a + 1])))
      && (ScanToken(s, c).token.Err? ==> ScanToken(s, c).token == Err(EmptyLabel))
      && (ScanToken(s, c).token.Ok? && a + 1 < |s| ==>
            ScanToken(s, c) == Scanned(Ok(Ident(s[a..j], e.row, e.col)), e))
      && (a + 1 == |s| ==>
            ScanToken(s, c) == Scanned(Ok(Ident(".", d.row, d.col + 2)), Cursor(|s|, d.row, d.col + 2)))
  {
    var d := SkipSpace(s, c);
    ScanTokenDispatch(s, c);
    hide ScanToken, ScanRegister, ScanImmediate, ScanIdent, ScanOp;
    IdentBody(s, d);
  }

  /** `op` called right after the first character of the word, at `d.pos`, was consumed. */
  lemma OpBody(s: string, d: Cursor)
    requires d.pos < |s| && !IsWhitespace(s[d.pos])
    ensures var a, r := d.pos, ScanOp(s, Consumed(s, d), [s[d.pos]]);
      var j := WordEnd(s, a);
      var e, w := Delimited(s, d, j), FromStr(s[a..j]);
      && r.next == e
      && r.token == if w.Ok? then Ok(Op(w.value, e.row, e.col)) else Err(w.error)
  {
    hide FromStr;
    var a, e := d.pos, Consumed(s, d);
    var j := WordEnd(s, a);
    assert WordEnd(s, e.pos) == j;
    var f := Delimited(s, e, j);
    assert f == Delimited(s, d, j);
    SliceCons(s, a, j);
  }

  /** Any other significant character starts a mnemonic, which runs to the next
      whitespace and is resolved by `from_str`; the delimiter is consumed. */
  lemma OpScan(s: string, c: Cursor)
    requires c.pos <= |s|
    requires var a := Start(s, c);
      a < |s| && !IsNumeric(s[a]) && s[a] != '%' && s[a] != '.'
    ensures var a, d := Start(s, c), SkipSpace(s, c);
      var j := WordEnd(s, a);
      var e, w := Delimited(s, d, j), FromStr(s[a..j]);
      && ScanToken(s, c).next == e
      && ScanToken(s, c).token == if w.Ok? then Ok(Op(w.value, e.row, e.col)) else Err(w.error)
  {
    var d := SkipSpace(s, c);
    ScanTokenDispatch(s, c);
    SkipSpaceStops(s, c);
    hide ScanToken, ScanRegister, ScanImmediate, ScanIdent, ScanOp, FromStr;
    OpBody(s, d);
  }

  /** A mnemonic is accepted exactly when it spells `add`, `sub` or `mov` in
      any mix of cases; any other word is an error naming its lowercased form. */
  lemma OpAccepted(s: string, c: Cursor)
    requires c.pos <= |s|
    requires var a := Start(s, c);
      a < |s| && !IsNumeric(s[a]) && s[a] != '%' && s[a] != '.'
    ensures var a := Start(s, c);
      var w, t := s[a..WordEnd(s, a)], ScanToken(s, c).token;
      && (t.Ok? <==> ToLower(w) in {"add", "sub", "mov"})
      && (t.Ok? ==> t.value.Op? && t.value.op in {ADD, SUB, MOV})
      && (t.Err? ==> t == Err(UnsupportedOperation(ToLower(w))))
  {
    OpScan(s, c);
    var a := Start(s, c);
    FromStrAccepts(s[a..WordEnd(s, a)]);
  }

  /** Every token reports the cursor after it, and lexing a token never changes
      the row, even when the delimiter that ends it is a newline: the row is the
      one reached by the skipped whitespace, and the column has advanced by one
      per character consumed for the token (plus the extra `consume` of a lone
      label marker at the end of input). */
  lemma TokenPosition(s: string, c: Cursor)
    requires c.pos <= |s|
    ensures var r, d := ScanToken(s, c), SkipSpace(s, c);
      r.token.Ok? && r.token.value != EOF ==>
        && r.token.value.row == r.next.row == d.row
        && r.token.value.col == r.next.col
        && r.next.col == d.col + (r.next.pos - d.pos)
                         + (if r.token.value.Ident? && r.token.value.text == "." then 1 else 0)
  {
    var r, d := ScanToken(s, c), SkipSpace(s, c);
    if r.token.Ok? && r.token.value != EOF {
      var a := d.pos;
      if s[a] == '.' {
        IdentScan(s, c);
        if a + 1 < |s| {
          var j := WordEnd(s, a + 1);
          assert r.token.value.text == s[a..j] && |s[a..j]| >= 2;
        }
      } else if IsNumeric(s[a]) {
        ImmediateScan(s, c);
      } else if s[a] == '%' {
        RegisterScan(s, c);
      } else {
        OpScan(s, c);
      }
    }
  }
}
