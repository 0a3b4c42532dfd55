/** The lexer of the assembly front end (src/lexer.rs).

    The pure functions below specify, on a `Cursor` over the whole input, what
    one call of each lexer routine does; the class `Lexer` is the stateful
    cursor of the source, and each of its methods is proved to move the cursor
    and return exactly what the matching function describes. */
module Lexing {
  import opened Wrappers

  /** The mnemonics of the instruction set. */
  datatype Operator = ADD | SUB | MOV | EQ | NEQ | JMP

  /** A lexical token. The two numbers are the cursor's row and column after the
      token has been consumed, including the delimiter that ended it for the
      kinds that consume one (a register does not). */
  datatype Token =
    | Op(op: Operator, row: nat, col: nat)
    | Ident(text: string, row: nat, col: nat)
    | Register(text: string, row: nat, col: nat)
    | Immediate(text: string, row: nat, col: nat)
    | EOF

  /** The panics of the lexer, without their message text. */
  datatype LexError =
    | UnsupportedOperation(word: string)   // `from_str` failed on the lowercased word
    | ExpectedNumber(found: char)          // a non-digit inside an immediate
    | ExpectedRegisterName                 // input ended inside a register
    | RegisterWhitespace                   // whitespace inside a register
    | RegisterSyntax(found: char)          // wrong character class inside a register
    | EmptyLabel                           // whitespace right after the label marker

  // ---------------------------------------------------------------------------
  // Character classes (ASCII stand-ins for Rust's Unicode predicates)
  // ---------------------------------------------------------------------------

  /** Space, tab, line feed, vertical tab, form feed and carriage return. */
  predicate IsWhitespace(c: char) { c == ' ' || '\t' <= c <= '\r' }

  predicate IsNumeric(c: char) { '0' <= c <= '9' }

  predicate IsAlphabetic(c: char) { 'a' <= c <= 'z' || 'A' <= c <= 'Z' }

  function LowerChar(c: char): char {
    if 'A' <= c <= 'Z' then (c as int + 32) as char else c
  }

  function ToLower(s: string): string {
    seq(|s|, i requires 0 <= i < |s| => LowerChar(s[i]))
  }

  // ---------------------------------------------------------------------------
  // Operator::from_str
  // ---------------------------------------------------------------------------

  /** The arms of the `match` in `Operator::from_str`, in source order. */
  const Mnemonics: seq<(string, Operator)> :=
    [("add", ADD), ("sub", SUB), ("mov", MOV), ("EQ", EQ), ("NEQ", NEQ), ("JMP", JMP)]

  /** The operator of the first arm whose pattern equals `w`. */
  function Lookup(arms: seq<(string, Operator)>, w: string): Option<Operator> {
    if arms == [] then None
    else if arms[0].0 == w then Some(arms[0].1)
    else Lookup(arms[1..], w)
  }

  /** `Operator::from_str`: the word is lowercased first and then compared with
      every arm of the table, the upper-case ones included. */
  function FromStr(s: string): (r: Result<Operator, LexError>)
    ensures r.Ok? ==> r.value in {ADD, SUB, MOV}
    ensures r.Err? ==> r.error == UnsupportedOperation(ToLower(s))
  {
    var w := ToLower(s);
    LookupMnemonics(w);
    LowerHasNoUpper(s);
    assert |w| > 0 ==> !('A' <= w[0] <= 'Z');
    match Lookup(Mnemonics, w)
    case Some(o) => Ok(o)
    case None => Err(UnsupportedOperation(w))
  }

  /** The table lookup, arm by arm. */
  lemma LookupMnemonics(w: string)
    ensures Lookup(Mnemonics, w) ==
      if w == "add" then Some(ADD)
      else if w == "sub" then Some(SUB)
      else if w == "mov" then Some(MOV)
      else if w == "EQ" then Some(EQ)
      else if w == "NEQ" then Some(NEQ)
      else if w == "JMP" then Some(JMP)
      else None
  {
    var m := Mnemonics;
    assert m[1..] == [("sub", SUB), ("mov", MOV), ("EQ", EQ), ("NEQ", NEQ), ("JMP", JMP)];
    assert m[2..] == [("mov", MOV), ("EQ", EQ), ("NEQ", NEQ), ("JMP", JMP)];
    assert m[3..] == [("EQ", EQ), ("NEQ", NEQ), ("JMP", JMP)];
    assert m[4..] == [("NEQ", NEQ), ("JMP", JMP)];
    assert m[5..] == [("JMP", JMP)];
    assert m[6..] == [];
    assert Lookup(m[6..], w) == None;
    assert Lookup(m[5..], w) == if w == "JMP" then Some(JMP) else None;
    assert Lookup(m[4..], w) == if w == "NEQ" then Some(NEQ) else Lookup(m[5..], w);
    assert Lookup(m[3..], w) == if w == "EQ" then Some(EQ) else Lookup(m[4..], w);
    assert Lookup(m[2..], w) == if w == "mov" then Some(MOV) else Lookup(m[3..], w);
    assert Lookup(m[1..], w) == if w == "sub" then Some(SUB) else Lookup(m[2..], w);
  }

  /** A lowercased word holds no upper-case letter. */
  lemma LowerHasNoUpper(s: string)
    ensures forall i :: 0 <= i < |s| ==> !('A' <= ToLower(s)[i] <= 'Z')
  {
  }

  /** `from_str` accepts a word exactly when it spells `add`, `sub` or `mov`
      in any mix of cases; the upper-case `EQ`, `NEQ` and `JMP` arms can never
      match a lowercased word, so those three operators are never produced and
      every other word is rejected with its lowercased spelling. */
  lemma FromStrAccepts(s: string)
    ensures FromStr(s).Ok? <==> ToLower(s) in {"add", "sub", "mov"}
    ensures FromStr(s) == Ok(ADD) <==> ToLower(s) == "add"
    ensures FromStr(s) == Ok(SUB) <==> ToLower(s) == "sub"
    ensures FromStr(s) == Ok(MOV) <==> ToLower(s) == "mov"
    ensures FromStr(s) != Ok(EQ) && FromStr(s) != Ok(NEQ) && FromStr(s) != Ok(JMP)
    ensures FromStr(s).Err? ==> FromStr(s) == Err(UnsupportedOperation(ToLower(s)))
  {
    var w := ToLower(s);
    LookupMnemonics(w);
    LowerHasNoUpper(s);
    assert |w| > 0 ==> !('A' <= w[0] <= 'Z');
  }

  // ---------------------------------------------------------------------------
  // The cursor and the pure specification of one scan
  // ---------------------------------------------------------------------------

  /** The lexer's position: `pos` indexes the current character `cur` in the
      input (`pos == |s|` when `cur` is `None`), `row` and `col` are its counters. */
  datatype Cursor = Cursor(pos: nat, row: nat, col: nat)

  /** What one lexer routine returns, and where it leaves the cursor. */
  datatype Scanned = Scanned(token: Result<Token, LexError>, next: Cursor)

  /** `consume`: one more column, and `cur` moves to the next character or stays absent. */
  function Consumed(s: string, c: Cursor): (d: Cursor)
    ensures d.row == c.row && d.col == c.col + 1
    ensures c.pos <= |s| ==> c.pos <= d.pos <= |s| && d.pos <= c.pos + 1
    ensures c.pos < |s| ==> d.pos == c.pos + 1
  {
    Cursor(if c.pos < |s| then c.pos + 1 else c.pos, c.row, c.col + 1)
  }

  /** The first index at or after `i` that holds whitespace, or `|s|`. */
  function WordEnd(s: string, i: nat): (j: nat)
    requires i <= |s|
    ensures i <= j <= |s|
    ensures forall k :: i <= k < j ==> !IsWhitespace(s[k])
    ensures j < |s| ==> IsWhitespace(s[j])
    decreases |s| - i
  {
    if i == |s| || IsWhitespace(s[i]) then i else WordEnd(s, i + 1)
  }

  /** The first index at or after `i` that holds a non-digit, or `|s|`. */
  function DigitsEnd(s: string, i: nat): (j: nat)
    requires i <= |s|
    ensures i <= j <= |s|
    ensures forall k :: i <= k < j ==> IsNumeric(s[k])
    ensures j < |s| ==> !IsNumeric(s[j])
    decreases |s| - i
  {
    if i == |s| || !IsNumeric(s[i]) then i else DigitsEnd(s, i + 1)
  }

  /** The cursor after consuming `s[c.pos..j]` and then the delimiter at `j`, if any.
      A delimiting newline counts as one column and does not start a new row. */
  function Delimited(s: string, c: Cursor, j: nat): Cursor
    requires c.pos <= j <= |s|
  {
    if j < |s| then Cursor(j + 1, c.row, c.col + (j - c.pos) + 1)
    else Cursor(j, c.row, c.col + (j - c.pos))
  }

  /** The number of line feeds in `t`. */
  function Newlines(t: string): nat {
    if t == [] then 0 else (if t[0] == '\n' then 1 else 0) + Newlines(t[1..])
  }

  /** The whitespace-skipping loop at the head of `parse_token`: every skipped
      character is consumed, and a skipped newline starts a new row at column 0. */
  function SkipSpace(s: string, c: Cursor): (d: Cursor)
    requires c.pos <= |s|
    ensures c.pos <= d.pos <= |s|
    decreases |s| - c.pos
  {
    if c.pos < |s| && IsWhitespace(s[c.pos]) then SkipSpace(s, SkipStep(s, c)) else c
  }

  /** One step of the skipping loop: the character is consumed, and a newline
      moves to the next row at column 0. */
  function SkipStep(s: string, c: Cursor): Cursor
    requires c.pos < |s|
  {
    var e := Consumed(s, c);
    if s[c.pos] == '\n' then Cursor(e.pos, c.row + 1, 0) else e
  }

  /** `intermediate`: the digits after the dispatch digit up to whitespace or the
      end of input; the delimiter is consumed but not kept. */
  function ScanImmediate(s: string, c: Cursor, acc: string): (r: Scanned)
    requires c.pos <= |s|
    ensures c.pos <= r.next.pos <= |s|
    ensures r.token.Ok? ==>
      && r.token.value.Immediate? && acc <= r.token.value.text
      && (forall k :: |acc| <= k < |r.token.value.text| ==> IsNumeric(r.token.value.text[k]))
      && r.token.value.row == r.next.row && r.token.value.col == r.next.col
    ensures r.token.Err? ==>
      r.token.error.ExpectedNumber? && !IsNumeric(r.token.error.found) && !IsWhitespace(r.token.error.found)
  {
    var j := DigitsEnd(s, c.pos);
    var d := Delimited(s, c, j);
    if j < |s| && !IsWhitespace(s[j]) then Scanned(Err(ExpectedNumber(s[j])), d)
    else Scanned(Ok(Immediate(acc + s[c.pos..j], d.row, d.col)), d)
  }

  /** `register`: exactly one letter and then one digit after the sigil; nothing
      after the digit is looked at. */
  function ScanRegister(s: string, c: Cursor, acc: string): (r: Scanned)
    requires c.pos <= |s|
    ensures c.pos <= r.next.pos <= |s| && r.next.pos <= c.pos + 2
    ensures r.token.Ok? ==>
      && r.token.value.Register? && r.next.pos == c.pos + 2
      && |r.token.value.text| == |acc| + 2 && acc <= r.token.value.text
      && IsAlphabetic(r.token.value.text[|acc|]) && !IsNumeric(r.token.value.text[|acc|])
      && IsNumeric(r.token.value.text[|acc| + 1])
      && r.token.value.row == r.next.row && r.token.value.col == r.next.col
  {
    if c.pos == |s| then Scanned(Err(ExpectedRegisterName), c)
    else
      var x := s[c.pos];
      var e := Consumed(s, c);
      if IsWhitespace(x) then Scanned(Err(RegisterWhitespace), e)
      else if IsNumeric(x) || !IsAlphabetic(x) then Scanned(Err(RegisterSyntax(x)), e)
      else if e.pos == |s| then Scanned(Err(ExpectedRegisterName), e)
      else
        var y := s[e.pos];
        var f := Consumed(s, e);
        if IsWhitespace(y) then Scanned(Err(RegisterWhitespace), f)
        else if !IsNumeric(y) then Scanned(Err(RegisterSyntax(y)), f)
        else Scanned(Ok(Register(acc + [x, y], f.row, f.col)), f)
  }

  /** `ident`: the character after the marker must not be whitespace; it is
      consumed even when the input has ended, then the rest of the word up to
      whitespace follows. */
  function ScanIdent(s: string, c: Cursor, acc: string): (r: Scanned)
    requires c.pos <= |s|
    ensures c.pos <= r.next.pos <= |s|
    ensures r.token.Err? <==> c.pos < |s| && IsWhitespace(s[c.pos])
    ensures r.token.Err? ==> r.token.error == EmptyLabel && r.next == c
    ensures r.token.Ok? ==>
      && r.token.value.Ident? && acc <= r.token.value.text
      && (forall k :: |acc| <= k < |r.token.value.text| ==> !IsWhitespace(r.token.value.text[k]))
      && r.token.value.row == r.next.row && r.token.value.col == r.next.col
  {
    if c.pos < |s| && IsWhitespace(s[c.pos]) then Scanned(Err(EmptyLabel), c)
    else
      var first := if c.pos < |s| then [s[c.pos]] else [];
      var e := Consumed(s, c);
      var j := WordEnd(s, e.pos);
      var d := Delimited(s, e, j);
      Scanned(Ok(Ident(acc + first + s[e.pos..j], d.row, d.col)), d)
  }

  /** `op`: the word up to whitespace, resolved by `from_str`. */
  function ScanOp(s: string, c: Cursor, acc: string): (r: Scanned)
    requires c.pos <= |s|
    ensures c.pos <= r.next.pos <= |s|
    ensures r.token.Ok? ==>
      && r.token.value.Op? && r.token.value.op in {ADD, SUB, MOV}
      && r.token.value.row == r.next.row && r.token.value.col == r.next.col
    ensures r.token.Err? ==> r.token.error.UnsupportedOperation?
  {
    var j := WordEnd(s, c.pos);
    var d := Delimited(s, c, j);
    match FromStr(acc + s[c.pos..j])
    case Ok(o) => Scanned(Ok(Op(o, d.row, d.col)), d)
    case Err(e) => Scanned(Err(e), d)
  }

  /** The dispatch of `parse_token` on the significant character `x`, which
      has just been consumed. */
  function Dispatch(s: string, e: Cursor, x: char): (r: Scanned)
    requires e.pos <= |s|
    ensures e.pos <= r.next.pos <= |s|
    ensures r.token.Ok? ==> r.token.value != EOF
    ensures r.token.Ok? ==>
      && (r.token.value.Immediate? <==> IsNumeric(x))
      && (r.token.value.Register? <==> !IsNumeric(x) && x == '%')
      && (r.token.value.Ident? <==> !IsNumeric(x) && x != '%' && x == '.')
      && (r.token.value.Op? <==> !IsNumeric(x) && x != '%' && x != '.')
  {
    if IsNumeric(x) then ScanImmediate(s, e, [x])
    else if x == '%' then ScanRegister(s, e, [x])
    else if x == '.' then ScanIdent(s, e, [x])
    else ScanOp(s, e, [x])
  }

  /** `parse_token`: skip whitespace, consume the first significant character
      and dispatch on it. `EOF` exactly when only whitespace was left. */
  function ScanToken(s: string, c: Cursor): (r: Scanned)
    requires c.pos <= |s|
    ensures c.pos <= r.next.pos <= |s|
    ensures r.token == Ok(EOF) <==> SkipSpace(s, c).pos == |s|
    ensures r.token.Ok? && r.token.value != EOF ==> c.pos < r.next.pos
  {
    var d := SkipSpace(s, c);
    if d.pos == |s| then Scanned(Ok(EOF), d)
    else Dispatch(s, Consumed(s, d), s[d.pos])
  }

  /** Every token up to end of input, or the first lexical error. */
  function Tokens(s: string, c: Cursor): Result<seq<Token>, LexError>
    requires c.pos <= |s|
    decreases |s| - c.pos
  {
    var r := ScanToken(s, c);
    match r.token
    case Err(e) => Err(e)
    case Ok(t) =>
      if t == EOF then Ok([])
      else
        match Tokens(s, r.next)
        case Ok(ts) => Ok([t] + ts)
        case Err(e) => Err(e)
  }

  /** The tokens scanned before the first lexical error or `EOF`: every token
      when the input lexes. */
  function TokensBefore(s: string, c: Cursor): (ts: seq<Token>)
    requires c.pos <= |s|
    ensures Tokens(s, c).Ok? ==> ts == Tokens(s, c).value
    ensures forall i :: 0 <= i < |ts| ==> ts[i] != EOF
    decreases |s| - c.pos
  {
    var r := ScanToken(s, c);
    match r.token
    case Err(_) => []
    case Ok(t) => if t == EOF then [] else [t] + TokensBefore(s, r.next)
  }

  // ---------------------------------------------------------------------------
  // The stateful lexer
  // ---------------------------------------------------------------------------

  /** The `Lexer` struct: the characters `cur` and `file_pos` are the input and
      the index of `cur` in it; `row` and `col` are its counters. */
  class Lexer {
    const input: string
    var pos: nat
    var row: nat
    var col: nat

    ghost predicate Valid()
      reads this
    {
      pos <= |input|
    }

    /** The cursor this lexer stands at. */
    function At(): Cursor
      reads this
    {
      Cursor(pos, row, col)
    }

    /** The field `cur`. */
    function Cur(): Option<char>
      reads this
    {
      if pos < |input| then Some(input[pos]) else None
    }

    /** `Lexer::new`: `cur` is the first character, both counters are zero. */
    constructor (chars: string)
      ensures Valid() && input == chars && At() == Cursor(0, 0, 0)
      ensures Cur() == if chars == [] then None else Some(chars[0])
    {
      input := chars;
      pos, row, col := 0, 0, 0;
    }

    /** `consume`: the column grows by exactly one and `cur` moves to the next
        character (or stays absent); the row is untouched. */
    method Consume()
      requires Valid()
      modifies this
      ensures Valid() && At() == Consumed(input, old(At()))
      ensures col == old(col) + 1 && row == old(row)
      ensures old(pos) < |input| ==>
                Cur() == if old(pos) + 1 < |input| then Some(input[old(pos) + 1]) else None
      ensures old(Cur()) == None ==> Cur() == None
    {
      col := col + 1;
      if pos < |input| {
        pos := pos + 1;
      }
    }

    /** `parse_token`. */
    method ParseToken() returns (r: Result<Token, LexError>)
      requires Valid()
      modifies this
      ensures Valid() && Scanned(r, At()) == ScanToken(input, old(At()))
    {
      var token := "";
      while pos < |input|
        invariant Valid()
        invariant SkipSpace(input, At()) == SkipSpace(input, old(At()))
        invariant token == ""
        decreases |input| - pos
      {
        var c := input[pos];
        ghost var here := At();
        Consume();
        if IsWhitespace(c) {
          if c == '\n' {
            row := row + 1;
            col := 0;
          }
          continue;
        }
        assert SkipSpace(input, old(At())) == SkipSpace(input, here) == here;
        token := token + [c];
        assert token == [c];
        ghost var e := At();
        assert ScanToken(input, old(At())) == Dispatch(input, e, c);
        if IsNumeric(c) {
          assert Dispatch(input, e, c) == ScanImmediate(input, e, [c]);
          r := LexImmediate(token);
          return;
        }
        if c == '%' {
          assert Dispatch(input, e, c) == ScanRegister(input, e, [c]);
          r := LexRegister(token);
        } else if c == '.' {
          assert Dispatch(input, e, c) == ScanIdent(input, e, [c]);
          r := LexIdent(token);
        } else {
          assert Dispatch(input, e, c) == ScanOp(input, e, [c]);
          r := LexOp(token);
        }
        return;
      }
      r := Ok(EOF);
    }

    /** `intermediate`. */
    method LexImmediate(token: string) returns (r: Result<Token, LexError>)
      requires Valid()
      modifies this
      ensures Valid() && Scanned(r, At()) == ScanImmediate(input, old(At()), token)
    {
      ghost var c0 := At();
      ghost var j := DigitsEnd(input, pos);
      var text := token;
      while pos < |input|
        invariant Valid() && c0.pos <= pos <= j
        invariant row == c0.row && col == c0.col + (pos - c0.pos)
        invariant text == token + input[c0.pos..pos]
        decreases |input| - pos
      {
        var c := input[pos];
        Consume();
        if IsWhitespace(c) {
          break;
        }
        if !IsNumeric(c) {
          return Err(ExpectedNumber(c));
        }
        assert input[c0.pos..pos] == input[c0.pos..pos - 1] + [c];
        text := text + [c];
      }
      r := Ok(Immediate(text, row, col));
    }

    /** `register`. */
    method LexRegister(token: string) returns (r: Result<Token, LexError>)
      requires Valid()
      modifies this
      ensures Valid() && Scanned(r, At()) == ScanRegister(input, old(At()), token)
    {
      if pos == |input| {
        return Err(ExpectedRegisterName);
      }
      var c := input[pos];
      Consume();
      if IsWhitespace(c) {
        return Err(RegisterWhitespace);
      }
      if IsNumeric(c) || !IsAlphabetic(c) {
        return Err(RegisterSyntax(c));
      }
      var text := token + [c];
      if pos == |input| {
        return Err(ExpectedRegisterName);
      }
      c := input[pos];
      Consume();
      if IsWhitespace(c) {
        return Err(RegisterWhitespace);
      }
      if !IsNumeric(c) {
        return Err(RegisterSyntax(c));
      }
      assert text + [c] == token + [text[|token|], c];
      text := text + [c];
      r := Ok(Register(text, row, col));
    }

    /** `ident`. */
    method LexIdent(token: string) returns (r: Result<Token, LexError>)
      requires Valid()
      modifies this
      ensures Valid() && Scanned(r, At()) == ScanIdent(input, old(At()), token)
    {
      var text := token;
      if pos < |input| {
        var c := input[pos];
        if IsWhitespace(c) {
          return Err(EmptyLabel);
        }
        text := text + [c];
      }
      Consume();
      ghost var c1 := At();
      ghost var acc := text;
      ghost var j := WordEnd(input, pos);
      while pos < |input|
        invariant Valid() && c1.pos <= pos <= j
        invariant row == c1.row && col == c1.col + (pos - c1.pos)
        invariant text == acc + input[c1.pos..pos]
        decreases |input| - pos
      {
        var c := input[pos];
        Consume();
        if IsWhitespace(c) {
          break;
        }
        assert input[c1.pos..pos] == input[c1.pos..pos - 1] + [c];
        text := text + [c];
      }
      r := Ok(Ident(text, row, col));
    }

    /** `op`. */
    method LexOp(token: string) returns (r: Result<Token, LexError>)
      requires Valid()
      modifies this
      ensures Valid() && Scanned(r, At()) == ScanOp(input, old(At()), token)
    {
      ghost var c0 := At();
      ghost var j := WordEnd(input, pos);
      var text := token;
      while pos < |input|
        invariant Valid() && c0.pos <= pos <= j
        invariant row == c0.row && col == c0.col + (pos - c0.pos)
        invariant text == token + input[c0.pos..pos]
        decreases |input| - pos
      {
        var c := input[pos];
        Consume();
        if IsWhitespace(c) {
          break;
        }
        assert input[c0.pos..pos] == input[c0.pos..pos - 1] + [c];
        text := text + [c];
      }
      match FromStr(text)
      case Ok(o) => r := Ok(Op(o, row, col));
      case Err(e) => r := Err(e);
    }
  }
}
